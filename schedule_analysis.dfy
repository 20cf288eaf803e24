/** Statistics of a sleep history: average bed and wake-up times, their
    standard deviations, weekday and weekend averages, and a consistency
    score from 0 to 100. */
module ScheduleAnalysis {
  import opened Wrappers
  import opened Clock
  import opened RealMath
  import opened CoachConstants
  import opened CoachTypes

  /** `timeToMinutes`: minutes after midnight, with times before 06:00
      counted as belonging to the next day, so that a night's bedtimes sort
      in order across midnight. */
  function TimeToMinutes(time: TimeString): (m: int)
    ensures 360 <= m < 1800
    ensures m >= MinutesPerDay <==> HourOf(time) < 6
    ensures Wrap(m) == ParseTime(time)
  {
    var total := HourOf(time) * 60 + MinuteOf(time);
    if HourOf(time) < 6 then
      DivisionUnique(total + MinutesPerDay, MinutesPerDay, 1, total);
      total + MinutesPerDay
    else
      DivisionUnique(total, MinutesPerDay, 0, total);
      total
  }

  /** `minutesToTime`: the zero-padded `HH:MM` clock time of a minute count,
      wrapping past midnight. Every caller passes an average of
      `TimeToMinutes` values, which is never negative. */
  function MinutesToTime(minutes: nat): string {
    FormatTime(minutes % MinutesPerDay)
  }

  /** A minute count from the range `TimeToMinutes` produces renders as a
      time string that converts back to it. */
  lemma MinutesToTimeRoundTrip(m: int)
    requires 360 <= m < 1800
    ensures IsTimeString(MinutesToTime(m))
    ensures TimeToMinutes(MinutesToTime(m)) == m
  {
    FormatThenParse(m % MinutesPerDay);
    OneDayWindow(TimeToMinutes(MinutesToTime(m)), m);
  }

  /** Two minute counts from 06:00 of one day to 06:00 of the next that
      show the same clock time are equal. */
  lemma OneDayWindow(a: int, b: int)
    requires 360 <= a < 1800 && 360 <= b < 1800
    requires Wrap(a) == Wrap(b)
    ensures a == b
  {
    if a < MinutesPerDay {
      DivisionUnique(a, MinutesPerDay, 0, a);
    } else {
      DivisionUnique(a, MinutesPerDay, 1, a - MinutesPerDay);
    }
    if b < MinutesPerDay {
      DivisionUnique(b, MinutesPerDay, 0, b);
    } else {
      DivisionUnique(b, MinutesPerDay, 1, b - MinutesPerDay);
    }
  }

  /** A zero-padded time string converts to minutes and back unchanged. */
  lemma TimeToMinutesRoundTrip(time: TimeString)
    requires |time| == 5
    ensures MinutesToTime(TimeToMinutes(time)) == time
  {
    ParseThenFormat(time);
  }

  function Sum(s: seq<real>): real {
    if s == [] then 0.0 else Sum(s[..|s| - 1]) + s[|s| - 1]
  }

  /** `calculateAverage`: 0 for no values. */
  function Average(s: seq<real>): real {
    if |s| == 0 then 0.0 else Sum(s) / |s| as real
  }

  function SquaredDeviations(s: seq<real>, mean: real): (r: seq<real>)
    ensures |r| == |s|
    ensures forall i :: 0 <= i < |s| ==> r[i] == (s[i] - mean) * (s[i] - mean)
  {
    seq(|s|, i requires 0 <= i < |s| => (s[i] - mean) * (s[i] - mean))
  }

  /** `calculateStdDev`: the population standard deviation, 0 for fewer than
      two values. */
  function StdDev(s: seq<real>): (r: real)
    ensures r >= 0.0
    ensures |s| < 2 ==> r == 0.0
    ensures |s| >= 2 ==> Square(r) <= Average(SquaredDeviations(s, Average(s))) < Square(r + 0.001)
  {
    if |s| < 2 then 0.0
    else
      VarianceNonNegative(s, Average(s));
      Sqrt(Average(SquaredDeviations(s, Average(s))))
  }

  /** A sum of values none of which is negative is not negative. */
  lemma {:induction false} SumNonNegative(s: seq<real>)
    requires forall i :: 0 <= i < |s| ==> s[i] >= 0.0
    ensures Sum(s) >= 0.0
    decreases |s|
  {
    if s != [] {
      var init := s[..|s| - 1];
      assert forall i :: 0 <= i < |init| ==> init[i] == s[i];
      SumNonNegative(init);
    }
  }

  /** The mean squared deviation from any point is not negative. */
  lemma VarianceNonNegative(s: seq<real>, mean: real)
    ensures Average(SquaredDeviations(s, mean)) >= 0.0
  {
    var d := SquaredDeviations(s, mean);
    forall i | 0 <= i < |d|
      ensures d[i] >= 0.0
    {
      SquareNonNegative(s[i] - mean);
    }
    SumNonNegative(d);
    if |d| > 0 {
      assert Sum(d) / |d| as real >= 0.0;
    }
  }

  /** A sum of values between `lo` and `hi` lies between `|s|` times each. */
  lemma {:induction false} SumBounds(s: seq<real>, lo: real, hi: real)
    requires forall i :: 0 <= i < |s| ==> lo <= s[i] <= hi
    ensures |s| as real * lo <= Sum(s) <= |s| as real * hi
    decreases |s|
  {
    if s != [] {
      var init := s[..|s| - 1];
      assert forall i :: 0 <= i < |init| ==> init[i] == s[i];
      SumBounds(init, lo, hi);
      assert |s| as real * lo == |init| as real * lo + lo;
      assert |s| as real * hi == |init| as real * hi + hi;
    }
  }

  /** An average lies between the least and the greatest value. */
  lemma AverageBounds(s: seq<real>, lo: real, hi: real)
    requires |s| > 0
    requires forall i :: 0 <= i < |s| ==> lo <= s[i] <= hi
    ensures lo <= Average(s) <= hi
  {
    SumBounds(s, lo, hi);
    var n := |s| as real;
    assert (n * lo) / n == lo && (n * hi) / n == hi;
  }

  /** The average of values that are all `c` is `c`. */
  lemma AverageOfConstant(s: seq<real>, c: real)
    requires |s| > 0
    requires forall i :: 0 <= i < |s| ==> s[i] == c
    ensures Average(s) == c
  {
    AverageBounds(s, c, c);
  }

  /** Values that are all equal have no spread. */
  lemma StdDevOfConstant(s: seq<real>, c: real)
    requires forall i :: 0 <= i < |s| ==> s[i] == c
    ensures StdDev(s) == 0.0
  {
    if |s| >= 2 {
      AverageOfConstant(s, c);
      var d := SquaredDeviations(s, c);
      forall i | 0 <= i < |d|
        ensures d[i] == 0.0
      {
        assert s[i] - c == 0.0;
      }
      AverageOfConstant(d, 0.0);
      SqrtZero();
    }
  }

  /** `isWeekend` of a date, given its `getDay()` number. */
  predicate IsWeekend(weekday: int) {
    weekday in WeekendDays
  }

  /** One of the three parts of the consistency score: 1 for no spread,
      falling linearly to 0 at `limit` minutes. */
  function PartScore(spread: real, limit: real): (r: real)
    requires limit > 0.0
    ensures r >= 0.0
    ensures spread >= 0.0 ==> r <= 1.0
    ensures spread == 0.0 ==> r == 1.0
    ensures spread >= limit ==> r == 0.0
  {
    MaxReal(0.0, 1.0 - spread / limit)
  }

  lemma PartScoreMonotone(a: real, b: real, limit: real)
    requires limit > 0.0 && a <= b
    ensures PartScore(b, limit) <= PartScore(a, limit)
  {
    assert a / limit <= b / limit;
  }

  /** `calculateConsistencyScore`: the weighted sum of the bedtime, wake-up
      and weekend part scores, as a rounded percentage. */
  function ConsistencyScore(bedtimeVar: real, wakeupVar: real, weekendDiff: real): (score: int)
    ensures bedtimeVar >= 0.0 && wakeupVar >= 0.0 && weekendDiff >= 0.0 ==> 0 <= score <= 100
    ensures bedtimeVar == 0.0 && wakeupVar == 0.0 && weekendDiff == 0.0 ==> score == 100
    ensures (bedtimeVar >= VarianceVeryPoor as real && wakeupVar >= VarianceVeryPoor as real
             && weekendDiff >= (VariancePoor * 2) as real) ==> score == 0
  {
    var bedtimeScore := PartScore(bedtimeVar, VarianceVeryPoor as real);
    var wakeupScore := PartScore(wakeupVar, VarianceVeryPoor as real);
    var weekendScore := PartScore(weekendDiff, (VariancePoor * 2) as real);
    var weighted := bedtimeScore * BedtimeVarianceWeight + wakeupScore * WakeupVarianceWeight
      + weekendScore * WeekendConsistencyWeight;
    Round(weighted * 100.0)
  }

  /** More spread never raises the score. */
  lemma ConsistencyScoreMonotone(b1: real, w1: real, d1: real, b2: real, w2: real, d2: real)
    requires b1 <= b2 && w1 <= w2 && d1 <= d2
    ensures ConsistencyScore(b2, w2, d2) <= ConsistencyScore(b1, w1, d1)
  {
    PartScoreMonotone(b1, b2, VarianceVeryPoor as real);
    PartScoreMonotone(w1, w2, VarianceVeryPoor as real);
    PartScoreMonotone(d1, d2, (VariancePoor * 2) as real);
    var x1 := PartScore(b1, 120.0) * 0.4 + PartScore(w1, 120.0) * 0.4 + PartScore(d1, 180.0) * 0.2;
    var x2 := PartScore(b2, 120.0) * 0.4 + PartScore(w2, 120.0) * 0.4 + PartScore(d2, 180.0) * 0.2;
    RoundMonotone(x2 * 100.0, x1 * 100.0);
  }

  function BedtimeMinutes(entries: seq<DayRecord>): (r: seq<real>)
    ensures |r| == |entries|
    ensures forall i :: 0 <= i < |entries| ==> r[i] == TimeToMinutes(entries[i].bedtime) as real
  {
    seq(|entries|, i requires 0 <= i < |entries| => TimeToMinutes(entries[i].bedtime) as real)
  }

  function WakeupMinutes(entries: seq<DayRecord>): (r: seq<real>)
    ensures |r| == |entries|
    ensures forall i :: 0 <= i < |entries| ==> r[i] == TimeToMinutes(entries[i].wakeupTime) as real
  {
    seq(|entries|, i requires 0 <= i < |entries| => TimeToMinutes(entries[i].wakeupTime) as real)
  }

  /** The entries that fall on a weekend (`weekend`) or on a weekday
      (`!weekend`), in order. */
  function OnWeekend(entries: seq<DayRecord>, weekend: bool): (r: seq<DayRecord>)
    ensures |r| <= |entries|
    ensures forall i :: 0 <= i < |r| ==> IsWeekend(r[i].weekday) == weekend && r[i] in entries
  {
    if entries == [] then []
    else
      var last := entries[|entries| - 1];
      OnWeekend(entries[..|entries| - 1], weekend) + (if IsWeekend(last.weekday) == weekend then [last] else [])
  }

  /** The filter keeps every entry of the kind, and so keeps a history of
      that kind whole and keeps nothing of it for the other kind. */
  lemma {:induction false} OnWeekendKeepsAll(entries: seq<DayRecord>, weekend: bool)
    ensures forall e :: e in entries && IsWeekend(e.weekday) == weekend ==> e in OnWeekend(entries, weekend)
    ensures (forall e :: e in entries ==> IsWeekend(e.weekday) == weekend) ==>
      OnWeekend(entries, weekend) == entries && OnWeekend(entries, !weekend) == []
    decreases |entries|
  {
    if entries != [] {
      var init, last := entries[..|entries| - 1], entries[|entries| - 1];
      assert entries == init + [last];
      OnWeekendKeepsAll(init, weekend);
    }
  }

  /** The average of a group, or `fallback` when the group is empty. */
  function AverageOr(s: seq<real>, fallback: real): real {
    if |s| > 0 then Average(s) else fallback
  }

  /** `analyzeSchedule`: nothing for fewer than three entries, else the
      statistics of the history. */
  function AnalyzeSchedule(entries: seq<DayRecord>): (r: Option<ScheduleStats>)
    ensures r.None? <==> |entries| < MinEntriesForAnalysis
    ensures r.Some? ==> r.value.dataPoints == |entries|
  {
    if |entries| < MinEntriesForAnalysis then None
    else
      var bedtimes, wakeups := BedtimeMinutes(entries), WakeupMinutes(entries);
      var weekdays, weekends := OnWeekend(entries, false), OnWeekend(entries, true);
      var bedtimeVariance, wakeupVariance := StdDev(bedtimes), StdDev(wakeups);
      var avgBedtime, avgWakeup := Average(bedtimes), Average(wakeups);
      var weekdayAvgBedtime := AverageOr(BedtimeMinutes(weekdays), avgBedtime);
      var weekendAvgBedtime := AverageOr(BedtimeMinutes(weekends), avgBedtime);
      var weekdayAvgWakeup := AverageOr(WakeupMinutes(weekdays), avgWakeup);
      var weekendAvgWakeup := AverageOr(WakeupMinutes(weekends), avgWakeup);
      var weekendBedtimeDiff := AbsReal(weekendAvgBedtime - weekdayAvgBedtime);
      Some(ScheduleStats(
        Round(bedtimeVariance), Round(wakeupVariance),
        Round(avgBedtime), Round(avgWakeup),
        Round(weekdayAvgBedtime), Round(weekendAvgBedtime),
        Round(weekdayAvgWakeup), Round(weekendAvgWakeup),
        ConsistencyScore(bedtimeVariance, wakeupVariance, weekendBedtimeDiff),
        |entries|))
  }

  /** Every bed or wake-up time converts to between 360 and 1800 minutes. */
  lemma ConvertedTimesInRange(entries: seq<DayRecord>)
    ensures forall i :: 0 <= i < |entries| ==>
      360.0 <= BedtimeMinutes(entries)[i] <= 1800.0 && 360.0 <= WakeupMinutes(entries)[i] <= 1800.0
  {
  }

  lemma AverageOrInRange(s: seq<real>, fallback: real)
    requires 360.0 <= fallback <= 1800.0
    requires forall i :: 0 <= i < |s| ==> 360.0 <= s[i] <= 1800.0
    ensures 360.0 <= AverageOr(s, fallback) <= 1800.0
  {
    if |s| > 0 {
      AverageBounds(s, 360.0, 1800.0);
    }
  }

  /** Rounding keeps a clock minute between 06:00 and the next 06:00. */
  lemma RoundedInDay(x: real)
    requires 360.0 <= x <= 1800.0
    ensures 360 <= Round(x) <= 1800
  {
    RoundMonotone(360.0, x);
    RoundMonotone(x, 1800.0);
  }

  lemma AverageOrRounded(s: seq<real>, fallback: real)
    requires 360.0 <= fallback <= 1800.0
    requires forall i :: 0 <= i < |s| ==> 360.0 <= s[i] <= 1800.0
    ensures 360 <= Round(AverageOr(s, fallback)) <= 1800
  {
    AverageOrInRange(s, fallback);
    RoundedInDay(AverageOr(s, fallback));
  }

  /** The statistics are in range: averages are clock minutes between 06:00
      and 06:00 of the next day, spreads are not negative and the score is a
      percentage. */
  lemma AnalyzeScheduleInRange(entries: seq<DayRecord>)
    requires |entries| >= MinEntriesForAnalysis
    ensures var stats := AnalyzeSchedule(entries).value;
      && 0 <= stats.consistencyScore <= 100
      && stats.bedtimeVarianceMinutes >= 0 && stats.wakeupVarianceMinutes >= 0
      && 360 <= stats.avgBedtimeMinutes <= 1800 && 360 <= stats.avgWakeupMinutes <= 1800
      && 360 <= stats.weekdayAvgBedtime <= 1800 && 360 <= stats.weekendAvgBedtime <= 1800
      && 360 <= stats.weekdayAvgWakeup <= 1800 && 360 <= stats.weekendAvgWakeup <= 1800
  {
    var bedtimes, wakeups := BedtimeMinutes(entries), WakeupMinutes(entries);
    var weekdays, weekends := OnWeekend(entries, false), OnWeekend(entries, true);
    ConvertedTimesInRange(entries);
    ConvertedTimesInRange(weekdays);
    ConvertedTimesInRange(weekends);
    AverageBounds(bedtimes, 360.0, 1800.0);
    AverageBounds(wakeups, 360.0, 1800.0);
    RoundedInDay(Average(bedtimes));
    RoundedInDay(Average(wakeups));
    AverageOrRounded(BedtimeMinutes(weekdays), Average(bedtimes));
    AverageOrRounded(BedtimeMinutes(weekends), Average(bedtimes));
    AverageOrRounded(WakeupMinutes(weekdays), Average(wakeups));
    AverageOrRounded(WakeupMinutes(weekends), Average(wakeups));
    RoundMonotone(0.0, StdDev(bedtimes));
    RoundMonotone(0.0, StdDev(wakeups));
  }

  /** With no weekend entries the weekend averages fall back to the overall
      averages, which are also the weekday averages, so the weekend gap adds
      no penalty to the score. */
  lemma WeekdaysOnlyFallBack(entries: seq<DayRecord>)
    requires |entries| >= MinEntriesForAnalysis
    requires forall e :: e in entries ==> !IsWeekend(e.weekday)
    ensures var stats := AnalyzeSchedule(entries).value;
      && stats.weekendAvgBedtime == stats.weekdayAvgBedtime == stats.avgBedtimeMinutes
      && stats.weekendAvgWakeup == stats.weekdayAvgWakeup == stats.avgWakeupMinutes
    ensures AnalyzeSchedule(entries).value.consistencyScore
         == ConsistencyScore(StdDev(BedtimeMinutes(entries)), StdDev(WakeupMinutes(entries)), 0.0)
  {
    SingleKindGroups(entries, false);
    var b := Average(BedtimeMinutes(entries));
    assert AbsReal(b - b) == 0.0;
  }

  /** With no weekday entries the weekday averages fall back to the overall
      averages, which are also the weekend averages, so the weekend gap adds
      no penalty to the score. */
  lemma WeekendsOnlyFallBack(entries: seq<DayRecord>)
    requires |entries| >= MinEntriesForAnalysis
    requires forall e :: e in entries ==> IsWeekend(e.weekday)
    ensures var stats := AnalyzeSchedule(entries).value;
      && stats.weekendAvgBedtime == stats.weekdayAvgBedtime == stats.avgBedtimeMinutes
      && stats.weekendAvgWakeup == stats.weekdayAvgWakeup == stats.avgWakeupMinutes
    ensures AnalyzeSchedule(entries).value.consistencyScore
         == ConsistencyScore(StdDev(BedtimeMinutes(entries)), StdDev(WakeupMinutes(entries)), 0.0)
  {
    SingleKindGroups(entries, true);
    var b := Average(BedtimeMinutes(entries));
    assert AbsReal(b - b) == 0.0;
  }

  /** The two filters split the history: every entry lands in exactly one
      of them, as often as it occurs. */
  lemma {:induction false} OnWeekendPartition(entries: seq<DayRecord>)
    ensures multiset(OnWeekend(entries, true)) + multiset(OnWeekend(entries, false)) == multiset(entries)
    decreases |entries|
  {
    if entries != [] {
      var init, last := entries[..|entries| - 1], entries[|entries| - 1];
      assert entries == init + [last];
      OnWeekendPartition(init);
    }
  }

  /** Filtering a concatenation filters each part in turn, so the filter
      keeps the order of the history. */
  lemma {:induction false} OnWeekendAppend(a: seq<DayRecord>, b: seq<DayRecord>, weekend: bool)
    ensures OnWeekend(a + b, weekend) == OnWeekend(a, weekend) + OnWeekend(b, weekend)
    decreases |b|
  {
    if b == [] {
      assert a + b == a;
    } else {
      var init, last := b[..|b| - 1], b[|b| - 1];
      assert (a + b)[..|a + b| - 1] == a + init;
      OnWeekendAppend(a, init, weekend);
    }
  }

  /** A history all of one kind splits into itself and nothing. */
  lemma SingleKindGroups(entries: seq<DayRecord>, weekend: bool)
    requires forall e :: e in entries ==> IsWeekend(e.weekday) == weekend
    ensures OnWeekend(entries, weekend) == entries && OnWeekend(entries, !weekend) == []
  {
    OnWeekendKeepsAll(entries, weekend);
  }

  /** Going to bed and getting up at the same times every day gives no
      spread, no weekend difference and a perfect score. */
  lemma RegularScheduleScoresFull(entries: seq<DayRecord>, bedtime: TimeString, wakeupTime: TimeString)
    requires |entries| >= MinEntriesForAnalysis
    requires forall i :: 0 <= i < |entries| ==> entries[i].bedtime == bedtime && entries[i].wakeupTime == wakeupTime
    ensures var stats := AnalyzeSchedule(entries).value;
      && stats.consistencyScore == 100
      && stats.bedtimeVarianceMinutes == 0 && stats.wakeupVarianceMinutes == 0
      && stats.weekendAvgBedtime == stats.weekdayAvgBedtime == stats.avgBedtimeMinutes
  {
    var b := TimeToMinutes(bedtime) as real;
    var w := TimeToMinutes(wakeupTime) as real;
    var bedtimes, wakeups := BedtimeMinutes(entries), WakeupMinutes(entries);
    var weekdays, weekends := OnWeekend(entries, false), OnWeekend(entries, true);
    StdDevOfConstant(bedtimes, b);
    StdDevOfConstant(wakeups, w);
    AverageOfConstant(bedtimes, b);
    GroupFallsToConstant(entries, weekdays, bedtime, b);
    GroupFallsToConstant(entries, weekends, bedtime, b);
  }

  /** A group of entries that all share one bedtime averages to it, and so
      does the fallback when the group is empty. */
  lemma GroupFallsToConstant(entries: seq<DayRecord>, group: seq<DayRecord>, bedtime: TimeString, b: real)
    requires b == TimeToMinutes(bedtime) as real
    requires forall i :: 0 <= i < |entries| ==> entries[i].bedtime == bedtime
    requires forall i :: 0 <= i < |group| ==> group[i] in entries
    ensures AverageOr(BedtimeMinutes(group), b) == b
  {
    if |group| > 0 {
      forall i | 0 <= i < |group|
        ensures BedtimeMinutes(group)[i] == b
      {
        var j :| 0 <= j < |entries| && entries[j] == group[i];
      }
      AverageOfConstant(BedtimeMinutes(group), b);
    }
  }
}

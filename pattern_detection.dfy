/** The sleep coach's pattern detectors: a shift of the schedule on
    weekends, a trend of the consistency score between the newest entries
    and the older ones, a streak of consistent nights, and an irregular
    schedule. Each reports a pattern or nothing. */
module PatternDetection {
  import opened Wrappers
  import opened RealMath
  import opened Sorting
  import opened CoachConstants
  import opened CoachTypes
  import opened ScheduleAnalysis

  /** `detectWeekendPattern`: a shift when the weekend bedtime or wake-up
      average lies at least 45 minutes from the weekday one. */
  function DetectWeekendPattern(stats: ScheduleStats): (r: Option<PatternResult>)
    ensures r.Some? <==>
      (|| Abs(stats.weekendAvgBedtime - stats.weekdayAvgBedtime) >= WeekendShiftThreshold
       || Abs(stats.weekendAvgWakeup - stats.weekdayAvgWakeup) >= WeekendShiftThreshold)
    ensures r.Some? ==>
      && r.value.pattern == WeekendShift
      && r.value.details.WeekendDetails?
      && r.value.details.bedtimeDiffMinutes == Abs(stats.weekendAvgBedtime - stats.weekdayAvgBedtime)
      && r.value.details.wakeupDiffMinutes == Abs(stats.weekendAvgWakeup - stats.weekdayAvgWakeup)
      && (r.value.details.laterOnWeekend <==> stats.weekendAvgBedtime > stats.weekdayAvgBedtime)
      && 0.5 <= r.value.confidence <= 1.0
      && r.value.confidence
         == MinReal(1.0, MaxInt(r.value.details.bedtimeDiffMinutes, r.value.details.wakeupDiffMinutes) as real / 90.0)
  {
    var bedtimeDiff := Abs(stats.weekendAvgBedtime - stats.weekdayAvgBedtime);
    var wakeupDiff := Abs(stats.weekendAvgWakeup - stats.weekdayAvgWakeup);
    if bedtimeDiff >= WeekendShiftThreshold || wakeupDiff >= WeekendShiftThreshold then
      var isLaterOnWeekend := stats.weekendAvgBedtime > stats.weekdayAvgBedtime;
      Some(PatternResult(
        WeekendShift,
        MinReal(1.0, MaxInt(bedtimeDiff, wakeupDiff) as real / 90.0),
        WeekendDetails(bedtimeDiff, wakeupDiff, isLaterOnWeekend)))
    else
      None
  }

  /** The sort key that puts the newest date first (the comparator
      `(a, b) => date(b) - date(a)`). */
  function NewestFirstKey(e: DayRecord): int {
    -e.dateKey
  }

  /** Where the newest-first list is cut: `Math.ceil(n * 0.3)`. */
  function SplitIndex(n: nat): (split: int)
    ensures 0 <= split <= n
    ensures n >= MinEntriesForTrends ==> 3 <= split <= n - 4
  {
    Ceil(n as real * 0.3)
  }

  /** The first `k` elements of `s`, or all of them (`slice(0, k)`). */
  function Take<T>(s: seq<T>, k: int): (r: seq<T>)
    ensures |r| == if k < 0 then 0 else if k > |s| then |s| else k
    ensures r == s[..|r|]
  {
    if k < 0 then [] else if k > |s| then s else s[..k]
  }

  /** The trend a change of the consistency score shows: improving from a
      rise of 10 points, declining from a fall of 10, else none. */
  function ClassifyTrend(recentScore: int, previousScore: int): (r: Option<PatternResult>)
    ensures var diff := recentScore - previousScore;
      && (r.Some? <==> diff >= TrendThreshold || diff <= -TrendThreshold)
      && (r.Some? ==>
           && (r.value.pattern == Improving <==> diff >= TrendThreshold)
           && (r.value.pattern == Declining <==> diff <= -TrendThreshold)
           && r.value.details == TrendDetails(recentScore, previousScore, Abs(diff))
           && r.value.confidence == MinReal(1.0, Abs(diff) as real / 30.0)
           && 1.0 / 3.0 <= r.value.confidence <= 1.0)
  {
    var scoreDiff := recentScore - previousScore;
    if scoreDiff >= TrendThreshold then
      Some(PatternResult(Improving, MinReal(1.0, scoreDiff as real / 30.0),
        TrendDetails(recentScore, previousScore, scoreDiff)))
    else if scoreDiff <= -TrendThreshold then
      Some(PatternResult(Declining, MinReal(1.0, Abs(scoreDiff) as real / 30.0),
        TrendDetails(recentScore, previousScore, Abs(scoreDiff))))
    else
      None
  }

  /** `detectTrend`: nothing for fewer than seven entries; otherwise the
      entries, newest first, are cut after `ceil(0.3 n)` (but at least three)
      and the consistency score of the newer part is compared with that of
      the older part. The entries are sorted as a copy: `entries` is a value
      and stays as the caller passed it. */
  function DetectTrend(entries: seq<DayRecord>): (r: Option<PatternResult>)
    ensures |entries| < MinEntriesForTrends ==> r.None?
    ensures r.Some? ==> (r.value.pattern == Improving || r.value.pattern == Declining) && r.value.details.TrendDetails?
  {
    if |entries| < MinEntriesForTrends then None
    else
      var sorted := SortByKey(entries, NewestFirstKey);
      var splitIndex := SplitIndex(|sorted|);
      var recentEntries := Take(sorted, MaxInt(3, splitIndex));
      var earlierEntries := sorted[splitIndex..];
      if |earlierEntries| < 3 then None
      else
        var recentStats := AnalyzeSchedule(recentEntries);
        var earlierStats := AnalyzeSchedule(earlierEntries);
        if recentStats.None? || earlierStats.None? then None
        else ClassifyTrend(recentStats.value.consistencyScore, earlierStats.value.consistencyScore)
  }

  /** The newer part of the entries, newest first. */
  function RecentPart(entries: seq<DayRecord>): seq<DayRecord>
    requires |entries| >= MinEntriesForTrends
  {
    SortByKey(entries, NewestFirstKey)[..SplitIndex(|entries|)]
  }

  /** The older part of the entries, newest first. */
  function EarlierPart(entries: seq<DayRecord>): seq<DayRecord>
    requires |entries| >= MinEntriesForTrends
  {
    SortByKey(entries, NewestFirstKey)[SplitIndex(|entries|)..]
  }

  /** From seven entries on, the cut lies at three or more and leaves at
      least four older entries: the two parts split the sorted entries
      between them, and every newer entry is dated no earlier than any
      older one. */
  lemma TrendSplitsEntries(entries: seq<DayRecord>)
    requires |entries| >= MinEntriesForTrends
    ensures |RecentPart(entries)| >= 3 && |EarlierPart(entries)| >= 4
    ensures RecentPart(entries) + EarlierPart(entries) == SortByKey(entries, NewestFirstKey)
    ensures multiset(RecentPart(entries) + EarlierPart(entries)) == multiset(entries)
    ensures forall i, j :: 0 <= i < |RecentPart(entries)| && 0 <= j < |EarlierPart(entries)| ==>
      RecentPart(entries)[i].dateKey >= EarlierPart(entries)[j].dateKey
  {
    var sorted := SortByKey(entries, NewestFirstKey);
    var split := SplitIndex(|entries|);
    assert sorted[..split] + sorted[split..] == sorted;
    SortIsPermutation(entries, NewestFirstKey);
    SortIsSorted(entries, NewestFirstKey);
    NewerBeforeOlder(sorted, split);
  }

  /** From seven entries on, the guard against fewer than three older
      entries never fires, and the trend is the one the two parts' scores
      show. */
  lemma TrendOfParts(entries: seq<DayRecord>)
    requires |entries| >= MinEntriesForTrends
    ensures DetectTrend(entries) == ClassifyTrend(
      AnalyzeSchedule(RecentPart(entries)).value.consistencyScore,
      AnalyzeSchedule(EarlierPart(entries)).value.consistencyScore)
  {
    var sorted := SortByKey(entries, NewestFirstKey);
    var split := SplitIndex(|entries|);
    assert Take(sorted, MaxInt(3, split)) == sorted[..split];
  }

  /** Cut anywhere, a list sorted newest first has every entry before the
      cut dated no earlier than any entry after it. */
  lemma NewerBeforeOlder(sorted: seq<DayRecord>, split: int)
    requires 0 <= split <= |sorted|
    requires SortedBy(sorted, NewestFirstKey)
    ensures forall i, j :: 0 <= i < split && 0 <= j < |sorted| - split ==>
      sorted[..split][i].dateKey >= sorted[split..][j].dateKey
  {
    forall i, j | 0 <= i < split && 0 <= j < |sorted| - split
      ensures sorted[..split][i].dateKey >= sorted[split..][j].dateKey
    {
      assert NewestFirstKey(sorted[i]) <= NewestFirstKey(sorted[split + j]);
    }
  }

  /** `detectConsistentStreak`: from five entries on, a consistency score
      of 80 or more is a streak as long as the history. */
  function DetectConsistentStreak(entries: seq<DayRecord>): (r: Option<PatternResult>)
    ensures r.Some? <==>
      |entries| >= MinEntriesForPatterns && AnalyzeSchedule(entries).value.consistencyScore >= 80
    ensures r.Some? ==>
      && r.value.pattern == Consistent
      && r.value.details == StreakDetails(AnalyzeSchedule(entries).value.consistencyScore, |entries|)
      && r.value.confidence == AnalyzeSchedule(entries).value.consistencyScore as real / 100.0
      && 0.8 <= r.value.confidence <= 1.0
  {
    if |entries| < MinEntriesForPatterns then None
    else
      var stats := AnalyzeSchedule(entries);
      if stats.None? then None
      else if stats.value.consistencyScore >= 80 && stats.value.dataPoints >= MinEntriesForPatterns then
        AnalyzeScheduleInRange(entries);
        Some(PatternResult(Consistent, stats.value.consistencyScore as real / 100.0,
          StreakDetails(stats.value.consistencyScore, stats.value.dataPoints)))
      else None
  }

  /** `detectIrregularPattern`: irregular when the two standard deviations
      average an hour or more. */
  function DetectIrregularPattern(stats: ScheduleStats): (r: Option<PatternResult>)
    ensures var avg := (stats.bedtimeVarianceMinutes + stats.wakeupVarianceMinutes) as real / 2.0;
      && (r.Some? <==> avg >= 60.0)
      && (r.Some? ==>
           && r.value.pattern == Irregular
           && r.value.confidence == MinReal(1.0, avg / 120.0)
           && 0.5 <= r.value.confidence <= 1.0
           && r.value.details == IrregularDetails(stats.bedtimeVarianceMinutes,
                stats.wakeupVarianceMinutes, Round(avg)))
  {
    var avgVariance := (stats.bedtimeVarianceMinutes + stats.wakeupVarianceMinutes) as real / 2.0;
    if avgVariance >= 60.0 then
      Some(PatternResult(Irregular, MinReal(1.0, avgVariance / 120.0),
        IrregularDetails(stats.bedtimeVarianceMinutes, stats.wakeupVarianceMinutes, Round(avgVariance))))
    else
      None
  }
}

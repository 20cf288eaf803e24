/** The sleep-cycle calculator: how many whole 90-minute (by default) cycles
    fit between falling asleep and waking up, which bedtimes end on a whole
    cycle for a given wake-up time and which wake-up times do for a given
    bedtime, and when to remind the user to go to bed.

    Times of day are minutes after midnight (`Clock.MinuteOfDay`); a moment
    that lies past midnight of the parsed day is an `int` beyond 1440. */
module SleepCycles {
  import opened Clock
  import opened RealMath

  const DefaultCycleLength: int := 90
  const DefaultLatency: int := 15
  const DefaultNumberOfOptions: int := 4
  const DefaultNotificationLeadTime: int := 30

  /** `getMinutesDifference`: minutes from `start` to `end`, one day added when
      `end` comes first. */
  function MinutesDifference(start: int, end: int): (d: int)
    ensures d == end - start || d == end - start + MinutesPerDay
    ensures d >= 0 <==> end - start >= -MinutesPerDay
    ensures end - start >= 0 ==> d == end - start
    ensures 0 <= start < MinutesPerDay && 0 <= end < MinutesPerDay ==> d == Wrap(end - start)
  {
    var diff := end - start;
    if diff < 0 then diff + MinutesPerDay else diff
  }

  /** The `%` of JavaScript: the remainder takes the sign of the dividend. */
  function JsRemainder(a: int, b: int): (r: int)
    requires b > 0
    ensures a >= 0 ==> r == a % b
    ensures a < 0 ==> -b < r <= 0
  {
    if a >= 0 then a % b else -((-a) % b)
  }

  /** Truncation is symmetric about zero, unlike the floor that Dafny's `%`
      follows. */
  lemma JsRemainderOdd(a: int, b: int)
    requires b > 0
    ensures JsRemainder(-a, b) == -JsRemainder(a, b)
  {
  }

  datatype SleepCycleResult = SleepCycleResult(
    completeCycles: int,
    partialCycle: real,
    totalSleepMinutes: int,
    adjustedBedtime: MinuteOfDay)

  /** Splitting a number of minutes into whole cycles (the floor of the
      quotient) and the fraction of a cycle left over. */
  lemma CycleSplit(total: int, cycleLength: int, complete: int, partial: real)
    requires cycleLength > 0
    requires complete == total / cycleLength
    requires partial == JsRemainder(total, cycleLength) as real / cycleLength as real
    ensures complete * cycleLength <= total < (complete + 1) * cycleLength
    ensures total >= 0 ==>
      0.0 <= partial < 1.0 && (complete * cycleLength) as real + partial * cycleLength as real == total as real
  {
    WholeCycles(total, cycleLength);
    if total >= 0 {
      PartialCycle(total % cycleLength, cycleLength);
      assert (complete * cycleLength) as real + (total % cycleLength) as real == total as real;
    }
  }

  /** The floor of the quotient counts the whole cycles that fit. */
  lemma WholeCycles(total: int, cycleLength: int)
    requires cycleLength > 0
    ensures (total / cycleLength) * cycleLength <= total < (total / cycleLength + 1) * cycleLength
    ensures total == (total / cycleLength) * cycleLength + total % cycleLength
    ensures total >= 0 ==> total / cycleLength >= 0
  {
    var q := total / cycleLength;
    assert total == q * cycleLength + total % cycleLength;
    assert (q + 1) * cycleLength == q * cycleLength + cycleLength;
    if total >= 0 && q < 0 {
      MultipleAtLeast(-q, cycleLength);
    }
  }

  /** A remainder below the cycle length is a fraction of a cycle in [0, 1)
      that scales back to the remainder. */
  lemma PartialCycle(m: int, cycleLength: int)
    requires 0 <= m < cycleLength
    ensures 0.0 <= m as real / cycleLength as real < 1.0
    ensures (m as real / cycleLength as real) * cycleLength as real == m as real
  {
  }

  /** Moving the bedtime later by what the whole cycles leave over of the
      night makes the night end, on the clock, right after the whole
      cycles. */
  lemma AdjustedBedtimeAligns(bed: MinuteOfDay, wake: MinuteOfDay, latency: int, total: int, whole: int)
    requires (total - (wake - bed - latency)) % MinutesPerDay == 0
    ensures Wrap(Wrap(bed + (total - whole)) + latency + whole) == wake
  {
    var adjusted := Wrap(bed + (total - whole));
    var x := adjusted + latency + whole;
    var k1 := (bed + (total - whole) - adjusted) / MinutesPerDay;
    var k2 := (total - (wake - bed - latency)) / MinutesPerDay;
    assert x - wake == (k2 - k1) * MinutesPerDay;
    WrapCongruent(x, wake);
  }

  /** `calculateSleepCycles`, on the parsed clock times (`Clock.ParseTime` of
      the bedtime and wake-up strings): sleep starts `latency` minutes after
      `bed`; the time from then to `wake` is split into whole cycles and the
      fraction of a cycle left over, and the bedtime is moved later by the
      left-over minutes so that the night ends on a whole cycle.

      The night, counted from falling asleep, is the clock difference to the
      wake-up time: less than a day when falling asleep takes no negative
      time, and negative exactly when bedtime plus latency lies more than a
      day after the wake-up time. How it splits is stated by `WholeCyclesFit`
      and `AdjustedBedtimeEndsOnCycle`. */
  function CalculateSleepCycles(bed: MinuteOfDay, wake: MinuteOfDay, latency: int, cycleLength: int)
    : (r: SleepCycleResult)
    requires cycleLength > 0
    ensures (r.totalSleepMinutes - (wake - bed - latency)) % MinutesPerDay == 0
    ensures latency >= 0 ==> r.totalSleepMinutes < MinutesPerDay
    ensures r.totalSleepMinutes >= 0 <==> bed + latency <= wake + MinutesPerDay
  {
    var total := MinutesDifference(bed + latency, wake);
    var complete := total / cycleLength;
    var adjusted := Wrap(bed + (total - complete * cycleLength));
    SleepCycleResult(complete, JsRemainder(total, cycleLength) as real / cycleLength as real, total, adjusted)
  }

  /** The whole cycles are the most that fit in the night and, for a night of
      non-negative length, the partial cycle is the fraction of a cycle left
      over. */
  lemma WholeCyclesFit(bed: MinuteOfDay, wake: MinuteOfDay, latency: int, cycleLength: int)
    requires cycleLength > 0
    ensures var r := CalculateSleepCycles(bed, wake, latency, cycleLength);
      && r.completeCycles * cycleLength <= r.totalSleepMinutes < (r.completeCycles + 1) * cycleLength
      && (r.totalSleepMinutes >= 0 ==>
           && 0.0 <= r.partialCycle < 1.0
           && (r.completeCycles * cycleLength) as real + r.partialCycle * cycleLength as real
              == r.totalSleepMinutes as real)
  {
    var r := CalculateSleepCycles(bed, wake, latency, cycleLength);
    CycleSplit(r.totalSleepMinutes, cycleLength, r.completeCycles, r.partialCycle);
  }

  /** Going to bed at the adjusted bedtime, the whole cycles end, on the
      clock, at the wake-up time. */
  lemma AdjustedBedtimeEndsOnCycle(bed: MinuteOfDay, wake: MinuteOfDay, latency: int, cycleLength: int)
    requires cycleLength > 0
    ensures var r := CalculateSleepCycles(bed, wake, latency, cycleLength);
      Wrap(r.adjustedBedtime + latency + r.completeCycles * cycleLength) == wake
  {
    var total := MinutesDifference(bed + latency, wake);
    var whole := (total / cycleLength) * cycleLength;
    AdjustedBedtimeAligns(bed, wake, latency, total, whole);
  }

  /** As written, a bedtime that falls asleep past midnight (23:50 with 15
      minutes of latency) before a 00:00 wake-up gives a night of -5 minutes
      and -1 whole cycles: the one day added to a negative difference does
      not cover the day that the latency pushed sleep into. */
  lemma NegativeNightExample()
    ensures var r := CalculateSleepCycles(23 * 60 + 50, 0, 15, 90);
      r.totalSleepMinutes == -5 && r.completeCycles == -1 && r.partialCycle < 0.0
  {
  }

  /** The night as evidently intended: the clock difference from falling
      asleep to waking, taken in [0, 1440) for any latency, split the same
      way. */
  function CalculateSleepCyclesWrapped(bed: MinuteOfDay, wake: MinuteOfDay, latency: int, cycleLength: int)
    : (r: SleepCycleResult)
    requires cycleLength > 0
    ensures 0 <= r.totalSleepMinutes < MinutesPerDay
    ensures (r.totalSleepMinutes - (wake - bed - latency)) % MinutesPerDay == 0
    ensures r.completeCycles >= 0 && 0.0 <= r.partialCycle < 1.0
  {
    var total := Wrap(wake - (bed + latency));
    var complete := total / cycleLength;
    var adjusted := Wrap(bed + (total - complete * cycleLength));
    var partial := JsRemainder(total, cycleLength) as real / cycleLength as real;
    WholeCycles(total, cycleLength);
    PartialCycle(total % cycleLength, cycleLength);
    SleepCycleResult(complete, partial, total, adjusted)
  }

  /** The corrected night splits into whole cycles and a fraction that add
      up to it, and the adjusted bedtime ends, on the clock, on a whole
      cycle at the wake-up time. */
  lemma WrappedCyclesFit(bed: MinuteOfDay, wake: MinuteOfDay, latency: int, cycleLength: int)
    requires cycleLength > 0
    ensures var r := CalculateSleepCyclesWrapped(bed, wake, latency, cycleLength);
      && r.completeCycles * cycleLength <= r.totalSleepMinutes < (r.completeCycles + 1) * cycleLength
      && (r.completeCycles * cycleLength) as real + r.partialCycle * cycleLength as real
         == r.totalSleepMinutes as real
      && Wrap(r.adjustedBedtime + latency + r.completeCycles * cycleLength) == wake
  {
    var r := CalculateSleepCyclesWrapped(bed, wake, latency, cycleLength);
    var total, complete := r.totalSleepMinutes, r.completeCycles;
    assert complete == total / cycleLength;
    assert r.partialCycle == JsRemainder(total, cycleLength) as real / cycleLength as real;
    assert r.adjustedBedtime == Wrap(bed + (total - complete * cycleLength));
    CycleSplit(total, cycleLength, complete, r.partialCycle);
    AdjustedBedtimeAligns(bed, wake, latency, total, complete * cycleLength);
  }

  /** Where the code as written gives a night of non-negative length and the
      latency is not negative, the correction changes nothing. */
  lemma WrappedAgreesOnNonNegativeNights(bed: MinuteOfDay, wake: MinuteOfDay, latency: int, cycleLength: int)
    requires cycleLength > 0 && latency >= 0
    requires CalculateSleepCycles(bed, wake, latency, cycleLength).totalSleepMinutes >= 0
    ensures CalculateSleepCyclesWrapped(bed, wake, latency, cycleLength)
         == CalculateSleepCycles(bed, wake, latency, cycleLength)
  {
    var t := CalculateSleepCycles(bed, wake, latency, cycleLength).totalSleepMinutes;
    WrapCongruent(t, wake - (bed + latency));
    assert Wrap(t) == t;
  }

  /** The corrected night of the same example: 23 hours and 55 minutes,
      fifteen whole cycles and 85/90 of one. */
  lemma WrappedNightExample()
    ensures var r := CalculateSleepCyclesWrapped(23 * 60 + 50, 0, 15, 90);
      r.totalSleepMinutes == 1435 && r.completeCycles == 15 && r.partialCycle == 85.0 / 90.0
  {
    DivisionUnique(-1445, MinutesPerDay, -2, 1435);
    DivisionUnique(1435, 90, 15, 85);
  }

  /** The bedtime from which `cycles` whole cycles, after `latency` minutes
      of falling asleep, end at `wake`. */
  function IdealBedtime(wake: MinuteOfDay, latency: int, cycleLength: int, cycles: int): MinuteOfDay {
    Wrap(wake - cycles * cycleLength - latency)
  }

  /** The wake-up time at which `cycles` whole cycles end, going to bed at
      `bed` and falling asleep `latency` minutes later. */
  function IdealWakeupTime(bed: MinuteOfDay, latency: int, cycleLength: int, cycles: int): MinuteOfDay {
    Wrap(bed + latency + cycles * cycleLength)
  }

  /** `calculateIdealBedtimes`: one bedtime per cycle count, from
      `numberOfOptions` cycles down to one. */
  method CalculateIdealBedtimes(wakeupTime: TimeString, latency: int, cycleLength: int, numberOfOptions: int)
    returns (times: seq<MinuteOfDay>)
    ensures |times| == if numberOfOptions > 0 then numberOfOptions else 0
    ensures forall i :: 0 <= i < |times| ==>
      times[i] == IdealBedtime(ParseTime(wakeupTime), latency, cycleLength, numberOfOptions - i)
  {
    var wake := ParseTime(wakeupTime);
    times := [];
    var cycles := numberOfOptions;
    while cycles > 0
      invariant cycles <= numberOfOptions
      invariant cycles >= 0 || cycles == numberOfOptions
      invariant |times| == numberOfOptions - cycles
      invariant forall i :: 0 <= i < |times| ==>
        times[i] == IdealBedtime(wake, latency, cycleLength, numberOfOptions - i)
    {
      times := times + [IdealBedtime(wake, latency, cycleLength, cycles)];
      cycles := cycles - 1;
    }
  }

  /** `calculateIdealWakeupTimes`: one wake-up time per cycle count, from
      three cycles up to `numberOfOptions + 2`. */
  method CalculateIdealWakeupTimes(bedtime: TimeString, latency: int, cycleLength: int, numberOfOptions: int)
    returns (times: seq<MinuteOfDay>)
    ensures |times| == if numberOfOptions > 0 then numberOfOptions else 0
    ensures forall i :: 0 <= i < |times| ==>
      times[i] == IdealWakeupTime(ParseTime(bedtime), latency, cycleLength, i + 3)
  {
    var bed := ParseTime(bedtime);
    times := [];
    var cycles := 3;
    while cycles <= numberOfOptions + 2
      invariant 3 <= cycles
      invariant cycles <= numberOfOptions + 3 || cycles == 3
      invariant |times| == cycles - 3
      invariant forall i :: 0 <= i < |times| ==>
        times[i] == IdealWakeupTime(bed, latency, cycleLength, i + 3)
    {
      times := times + [IdealWakeupTime(bed, latency, cycleLength, cycles)];
      cycles := cycles + 1;
    }
  }

  /** A whole number of cycles splits into exactly that many cycles and
      nothing left over. */
  lemma WholeCyclesSplitExactly(cycles: nat, cycleLength: int)
    requires cycleLength > 0
    ensures (cycles * cycleLength) / cycleLength == cycles
    ensures JsRemainder(cycles * cycleLength, cycleLength) == 0
    ensures cycles * cycleLength >= 0
  {
    ProductNonNegative(cycles, cycleLength);
    DivisionUnique(cycles * cycleLength, cycleLength, cycles, 0);
  }

  /** Going to bed at an ideal bedtime gives exactly the planned number of
      whole cycles, nothing left over, and no bedtime adjustment, as long as
      the night fits in a day. */
  lemma IdealBedtimeGivesWholeCycles(wake: MinuteOfDay, latency: int, cycleLength: int, cycles: int)
    requires cycleLength > 0 && cycles >= 1 && latency >= 0
    requires cycles * cycleLength + latency < MinutesPerDay
    ensures var bed := IdealBedtime(wake, latency, cycleLength, cycles);
      var r := CalculateSleepCycles(bed, wake, latency, cycleLength);
      r.completeCycles == cycles && r.partialCycle == 0.0
      && r.totalSleepMinutes == cycles * cycleLength && r.adjustedBedtime == bed
  {
    var bed := IdealBedtime(wake, latency, cycleLength, cycles);
    var span := cycles * cycleLength;
    WholeCyclesSplitExactly(cycles, cycleLength);
    if wake - span - latency >= 0 {
      assert bed == wake - span - latency;
    } else {
      assert bed == wake - span - latency + MinutesPerDay;
    }
    assert MinutesDifference(bed + latency, wake) == span;
    var r := CalculateSleepCycles(bed, wake, latency, cycleLength);
    assert r.totalSleepMinutes == span;
    assert r.completeCycles == cycles;
    assert Wrap(bed + (span - span)) == bed;
  }

  /** Waking at an ideal wake-up time gives exactly the planned number of
      whole cycles and nothing left over, as long as the night fits in a
      day. */
  lemma IdealWakeupGivesWholeCycles(bed: MinuteOfDay, latency: int, cycleLength: int, cycles: int)
    requires cycleLength > 0 && cycles >= 1 && latency >= 0
    requires cycles * cycleLength + latency < MinutesPerDay
    ensures var r := CalculateSleepCycles(bed, IdealWakeupTime(bed, latency, cycleLength, cycles), latency, cycleLength);
      r.completeCycles == cycles && r.partialCycle == 0.0 && r.totalSleepMinutes == cycles * cycleLength
  {
    var wake := IdealWakeupTime(bed, latency, cycleLength, cycles);
    var span := cycles * cycleLength;
    WholeCyclesSplitExactly(cycles, cycleLength);
    if bed + latency + span < MinutesPerDay {
      assert wake == bed + latency + span;
    } else {
      assert wake == bed + latency + span - MinutesPerDay;
    }
    assert MinutesDifference(bed + latency, wake) == span;
    var r := CalculateSleepCycles(bed, wake, latency, cycleLength);
    assert r.totalSleepMinutes == span;
  }

  /** Consecutive ideal bedtimes lie one cycle apart, the later one for one
      cycle fewer. */
  lemma IdealBedtimesOneCycleApart(wake: MinuteOfDay, latency: int, cycleLength: int, cycles: int)
    ensures IdealBedtime(wake, latency, cycleLength, cycles - 1)
         == Wrap(IdealBedtime(wake, latency, cycleLength, cycles) + cycleLength)
  {
    var a := wake - cycles * cycleLength - latency;
    assert wake - (cycles - 1) * cycleLength - latency == a + cycleLength;
    WrapCongruent(a + cycleLength, Wrap(a) + cycleLength);
  }

  /** Consecutive ideal wake-up times lie one cycle apart. */
  lemma IdealWakeupTimesOneCycleApart(bed: MinuteOfDay, latency: int, cycleLength: int, cycles: int)
    ensures IdealWakeupTime(bed, latency, cycleLength, cycles + 1)
         == Wrap(IdealWakeupTime(bed, latency, cycleLength, cycles) + cycleLength)
  {
    var a := bed + latency + cycles * cycleLength;
    assert bed + latency + (cycles + 1) * cycleLength == a + cycleLength;
    WrapCongruent(a + cycleLength, Wrap(a) + cycleLength);
  }

  /** `shouldSendBedtimeNotification`: remind when the ideal bedtime is still
      ahead, at most `leadTime` minutes from `now` (a bedtime earlier in the
      day counts as tomorrow's). */
  function ShouldSendBedtimeNotification(idealBedtime: MinuteOfDay, leadTime: int, now: MinuteOfDay): (send: bool)
    ensures send <==> 0 < Wrap(idealBedtime - now) <= leadTime
    ensures send ==> now != idealBedtime && leadTime > 0
  {
    var minutesUntilBedtime := MinutesDifference(now, idealBedtime);
    minutesUntilBedtime <= leadTime && minutesUntilBedtime > 0
  }

  /** A reminder goes out exactly for the `leadTime` minutes before the ideal
      bedtime (when the lead time is shorter than a day). */
  lemma NotificationWindow(idealBedtime: MinuteOfDay, leadTime: int, k: int)
    requires 0 < leadTime < MinutesPerDay
    ensures 1 <= k <= leadTime ==>
      ShouldSendBedtimeNotification(idealBedtime, leadTime, Wrap(idealBedtime - k))
    ensures leadTime < k <= MinutesPerDay ==>
      !ShouldSendBedtimeNotification(idealBedtime, leadTime, Wrap(idealBedtime - k))
  {
    var b := idealBedtime;
    if 1 <= k <= MinutesPerDay {
      var now := Wrap(b - k);
      WrapCongruent(b - now, k);
      assert Wrap(k) == (if k == MinutesPerDay then 0 else k);
    }
  }

  /** Worked nights: 22:00 to 07:00 with 15 minutes to fall asleep is five
      whole cycles and 525 minutes; 22:00 to 05:45 is exactly five cycles;
      23:30 to 07:00 is 435 minutes; 22:00 to 06:00 with 100-minute cycles
      is four cycles and 0.8 of one. */
  lemma SleepCycleExamples()
    ensures var r := CalculateSleepCycles(22 * 60, 7 * 60, 15, 90);
      r.completeCycles == 5 && r.totalSleepMinutes == 525 && r.partialCycle == 75.0 / 90.0
    ensures var r := CalculateSleepCycles(22 * 60, 5 * 60 + 45, 15, 90);
      r.completeCycles == 5 && r.partialCycle == 0.0 && r.totalSleepMinutes == 450
    ensures CalculateSleepCycles(23 * 60 + 30, 7 * 60, 15, 90).totalSleepMinutes == 435
    ensures var r := CalculateSleepCycles(22 * 60, 6 * 60, 0, 100);
      r.completeCycles == 4 && r.partialCycle == 0.8
    ensures var r := CalculateSleepCycles(22 * 60, 5 * 60 + 30, 0, 90);
      r.completeCycles == 5 && r.partialCycle == 0.0 && r.totalSleepMinutes == 450
  {
  }

  /** Worked reminders: at 22:00 a 22:15 bedtime is within a 30-minute lead;
      at 23:00 a 22:30 bedtime has passed; at 20:00 a 22:30 bedtime is too far
      off; at 21:30 it is within a 60-minute lead. */
  lemma NotificationExamples()
    ensures ShouldSendBedtimeNotification(22 * 60 + 15, 30, 22 * 60)
    ensures !ShouldSendBedtimeNotification(22 * 60 + 30, 30, 23 * 60)
    ensures !ShouldSendBedtimeNotification(22 * 60 + 30, 30, 20 * 60)
    ensures ShouldSendBedtimeNotification(22 * 60 + 30, 60, 21 * 60 + 30)
  {
  }
}

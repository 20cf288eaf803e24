/** The bedtime reminders of the cloud functions: when the bedtime of a
    reminder falls, which reminders are due in the current minute, and what
    saving a reminder stores. Instants are milliseconds; the local day is
    given by the instant of its midnight, and days are 24 hours long. */
module ReminderSchedule {
  import opened Wrappers
  import opened Json
  import opened Clock
  import opened RealMath
  import opened ReminderValidation

  const MinuteMs: int := 60_000
  const DayMs: int := 86_400_000
  const MaxRemindersPerToken: int := 10

  /** `now` lies in the local day that starts at `dayStartMs`. */
  predicate InDay(nowMs: int, dayStartMs: int) {
    dayStartMs <= nowMs < dayStartMs + DayMs
  }

  /** A `Date` built from a computed number of milliseconds keeps its
      integer part (truncation toward zero). */
  function TimeClip(x: real): (t: int)
    ensures x - 1.0 < t as real < x + 1.0
    ensures x == x.Floor as real ==> t as real == x
  {
    if x >= 0.0 then x.Floor
    else
      NegatedWholeFloor(x);
      -((-x).Floor)
  }

  lemma NegatedWholeFloor(x: real)
    ensures x == x.Floor as real ==> (-x).Floor == -x.Floor
  {
    if x == x.Floor as real {
      assert -x == (-x.Floor) as real;
    }
  }

  /** The local clock time of an instant, in minutes after midnight
      (`getHours() * 60 + getMinutes()`). */
  function LocalMinute(ms: int, dayStartMs: int): MinuteOfDay {
    Wrap((ms - dayStartMs) / MinuteMs)
  }

  /** The wake-up instant of `calculateBedtime`: today at the wake-up time,
      or tomorrow when that is not after now. */
  function WakeInstant(wake: TimeString, nowMs: int, dayStartMs: int): (wakeMs: int)
    requires InDay(nowMs, dayStartMs)
    ensures nowMs < wakeMs <= nowMs + DayMs
    ensures (wakeMs - dayStartMs) % DayMs == ParseTime(wake) * MinuteMs
  {
    var today := dayStartMs + (HourOf(wake) * 60 + MinuteOf(wake)) * MinuteMs;
    var wakeMs := if today <= nowMs then today + DayMs else today;
    DivisionUnique(wakeMs - dayStartMs, DayMs, if today <= nowMs then 1 else 0, ParseTime(wake) * MinuteMs);
    wakeMs
  }

  /** The wake-up instant is the first instant after now at the wake-up
      time: no other instant of the next 24 hours shows that time. */
  lemma WakeInstantIsNext(wake: TimeString, nowMs: int, dayStartMs: int, t: int)
    requires InDay(nowMs, dayStartMs)
    requires nowMs < t <= nowMs + DayMs
    requires (t - dayStartMs) % DayMs == ParseTime(wake) * MinuteMs
    ensures t == WakeInstant(wake, nowMs, dayStartMs)
  {
    var w := WakeInstant(wake, nowMs, dayStartMs);
    var qt, qw := (t - dayStartMs) / DayMs, (w - dayStartMs) / DayMs;
    assert t - dayStartMs == qt * DayMs + (t - dayStartMs) % DayMs;
    assert w - dayStartMs == qw * DayMs + (w - dayStartMs) % DayMs;
    assert t - w == (qt - qw) * DayMs;
    if qt - qw >= 1 {
      MultipleAtLeast(qt - qw, DayMs);
    } else if qw - qt >= 1 {
      MultipleAtLeast(qw - qt, DayMs);
    }
  }

  /** `calculateBedtime`: the wake-up instant less the cycles and the time
      to fall asleep. */
  function CalculateBedtime(wake: TimeString, cycleLength: real, sleepLatency: real, cycles: int,
                            nowMs: int, dayStartMs: int): (bedtimeMs: int)
    requires InDay(nowMs, dayStartMs)
    ensures var sleepMs := (cycles as real * cycleLength + sleepLatency) * 60000.0;
      && AbsReal(bedtimeMs as real + sleepMs - WakeInstant(wake, nowMs, dayStartMs) as real) < 1.0
      && (sleepMs == sleepMs.Floor as real ==>
            bedtimeMs as real + sleepMs == WakeInstant(wake, nowMs, dayStartMs) as real)
  {
    var totalSleepMinutes := cycles as real * cycleLength;
    var sleepMs := (totalSleepMinutes + sleepLatency) * 60000.0;
    var x := WakeInstant(wake, nowMs, dayStartMs) as real - sleepMs;
    assert sleepMs == sleepMs.Floor as real ==> x == (WakeInstant(wake, nowMs, dayStartMs) - sleepMs.Floor) as real;
    TimeClip(x)
  }

  /** Whole minutes shift an instant's clock time by as many minutes. */
  lemma ShiftByMinutes(ms: int, dayStartMs: int, q: int, clock: int, minutes: int)
    requires ms - dayStartMs == q * DayMs + clock * MinuteMs
    ensures LocalMinute(ms - minutes * MinuteMs, dayStartMs) == Wrap(clock - minutes)
  {
    var n := ms - minutes * MinuteMs - dayStartMs;
    assert n == (q * 1440 + clock - minutes) * MinuteMs + 0;
    DivisionUnique(n, MinuteMs, q * 1440 + clock - minutes, 0);
    WrapCongruent(q * 1440 + clock - minutes, clock - minutes);
  }

  /** A stored reminder. */
  datatype ReminderRecord = ReminderRecord(
    fcmToken: string,
    wakeUpTime: string,
    daysOfWeek: seq<real>,
    windDownMinutes: real,
    cycleLength: real,
    sleepLatency: real,
    enabled: bool)

  /** The query of `checkReminders`: enabled reminders whose days include
      today's weekday. */
  predicate Selected(r: ReminderRecord, currentDay: int) {
    r.enabled && currentDay as real in r.daysOfWeek
  }

  /** The instant a reminder notifies: its wind-down time before the bedtime
      of five cycles, each stored value taken as it is (`??`, as
      `saveReminder` applies it). */
  function NotifyInstant(r: ReminderRecord, nowMs: int, dayStartMs: int): int
    requires IsTimeString(r.wakeUpTime) && InDay(nowMs, dayStartMs)
  {
    var bedtime := CalculateBedtime(r.wakeUpTime, r.cycleLength, r.sleepLatency, 5, nowMs, dayStartMs);
    TimeClip(bedtime as real - r.windDownMinutes * 60000.0)
  }

  /** For whole minutes, a reminder notifies, on the clock, five cycles, the
      latency and the wind-down time before its wake-up time. */
  lemma NotifyClockTime(r: ReminderRecord, nowMs: int, dayStartMs: int, cycle: int, latency: int, windDown: int)
    requires IsTimeString(r.wakeUpTime) && InDay(nowMs, dayStartMs)
    requires r.cycleLength == cycle as real && r.sleepLatency == latency as real
    requires r.windDownMinutes == windDown as real
    ensures LocalMinute(NotifyInstant(r, nowMs, dayStartMs), dayStartMs)
         == Wrap(ParseTime(r.wakeUpTime) - (5 * cycle + latency + windDown))
  {
    var wakeMs := WakeInstant(r.wakeUpTime, nowMs, dayStartMs);
    var total := 5 * cycle + latency + windDown;
    var sleepMs := (5.0 * r.cycleLength + r.sleepLatency) * 60000.0;
    assert sleepMs == ((5 * cycle + latency) * MinuteMs) as real;
    var bedtime := CalculateBedtime(r.wakeUpTime, r.cycleLength, r.sleepLatency, 5, nowMs, dayStartMs);
    assert bedtime == wakeMs - (5 * cycle + latency) * MinuteMs;
    assert r.windDownMinutes * 60000.0 == (windDown * MinuteMs) as real;
    assert NotifyInstant(r, nowMs, dayStartMs) == wakeMs - total * MinuteMs;
    var q := (wakeMs - dayStartMs) / DayMs;
    assert wakeMs - dayStartMs == q * DayMs + ParseTime(r.wakeUpTime) * MinuteMs;
    ShiftByMinutes(wakeMs, dayStartMs, q, ParseTime(r.wakeUpTime), total);
  }

  /** `checkReminders` for one reminder: selected by the query, with a valid
      stored wake-up time and token, and notifying in the current hour and
      minute. */
  function ReminderDue(r: ReminderRecord, currentDay: int, nowMs: int, dayStartMs: int): (due: bool)
    requires InDay(nowMs, dayStartMs)
    ensures due <==>
      && Selected(r, currentDay)
      && IsTimeString(r.wakeUpTime) && 21 <= |r.fcmToken| <= 499
      && LocalMinute(NotifyInstant(r, nowMs, dayStartMs), dayStartMs) == LocalMinute(nowMs, dayStartMs)
  {
    if !Selected(r, currentDay) then false
    else if !ValidateWakeUpTime(Str(r.wakeUpTime)) then false
    else if !ValidateFcmToken(Str(r.fcmToken)) then false
    else
      var notify := LocalMinute(NotifyInstant(r, nowMs, dayStartMs), dayStartMs);
      var current := LocalMinute(nowMs, dayStartMs);
      SameHourAndMinute(notify, current);
      notify / 60 == current / 60 && notify % 60 == current % 60
  }

  /** Equal hours and equal minutes is the same clock time. */
  lemma SameHourAndMinute(a: MinuteOfDay, b: MinuteOfDay)
    ensures (a / 60 == b / 60 && a % 60 == b % 60) <==> a == b
  {
    assert a == (a / 60) * 60 + a % 60;
    assert b == (b / 60) * 60 + b % 60;
  }

  /** A reminder with whole-minute values is due exactly in the minute that
      lies five cycles, the latency and the wind-down time before its
      wake-up time. */
  lemma ReminderDueAtNotifyTime(r: ReminderRecord, currentDay: int, nowMs: int, dayStartMs: int,
                                cycle: int, latency: int, windDown: int)
    requires InDay(nowMs, dayStartMs)
    requires Selected(r, currentDay) && IsTimeString(r.wakeUpTime) && 21 <= |r.fcmToken| <= 499
    requires r.cycleLength == cycle as real && r.sleepLatency == latency as real
    requires r.windDownMinutes == windDown as real
    ensures ReminderDue(r, currentDay, nowMs, dayStartMs) <==>
      LocalMinute(nowMs, dayStartMs) == Wrap(ParseTime(r.wakeUpTime) - (5 * cycle + latency + windDown))
  {
    NotifyClockTime(r, nowMs, dayStartMs, cycle, latency, windDown);
  }

  /** `x || d` on a stored number: a zero is replaced by the default. */
  function OrDefault(x: real, d: real): (r: real)
    ensures x != 0.0 ==> r == x
    ensures x == 0.0 ==> r == d
  {
    if x != 0.0 then x else d
  }

  /** The notification instant as `checkReminders` computes it: the cycle
      length, latency and wind-down time are read with `||`, so a stored
      zero becomes 90, 15 or 30. */
  function NotifyInstantAsWritten(r: ReminderRecord, nowMs: int, dayStartMs: int): (t: int)
    requires IsTimeString(r.wakeUpTime) && InDay(nowMs, dayStartMs)
    ensures t == NotifyInstant(r.(cycleLength := OrDefault(r.cycleLength, 90.0),
                                  sleepLatency := OrDefault(r.sleepLatency, 15.0),
                                  windDownMinutes := OrDefault(r.windDownMinutes, 30.0)), nowMs, dayStartMs)
  {
    var bedtime := CalculateBedtime(r.wakeUpTime, OrDefault(r.cycleLength, 90.0), OrDefault(r.sleepLatency, 15.0),
                                    5, nowMs, dayStartMs);
    TimeClip(bedtime as real - OrDefault(r.windDownMinutes, 30.0) * 60000.0)
  }

  /** `checkReminders` for one reminder, as written. */
  function ReminderDueAsWritten(r: ReminderRecord, currentDay: int, nowMs: int, dayStartMs: int): (due: bool)
    requires InDay(nowMs, dayStartMs)
    ensures due <==>
      && Selected(r, currentDay)
      && IsTimeString(r.wakeUpTime) && 21 <= |r.fcmToken| <= 499
      && LocalMinute(NotifyInstantAsWritten(r, nowMs, dayStartMs), dayStartMs) == LocalMinute(nowMs, dayStartMs)
  {
    Selected(r, currentDay) && ValidateWakeUpTime(Str(r.wakeUpTime)) && ValidateFcmToken(Str(r.fcmToken))
    && LocalMinute(NotifyInstantAsWritten(r, nowMs, dayStartMs), dayStartMs) == LocalMinute(nowMs, dayStartMs)
  }

  /** A reminder saved with no wind-down time (0 passes validation and is
      stored as 0) for a 07:00 wake-up on Mondays, 90-minute cycles and 15
      minutes of latency. */
  const ZeroWindDownReminder := ReminderRecord(seq(21, i => 't'), "07:00", [1.0], 0.0, 90.0, 15.0, true)

  /** The example reminder is well formed, selected on Monday and wakes at
      07:00 (minute 420). */
  lemma ZeroWindDownWellFormed()
    ensures Selected(ZeroWindDownReminder, 1)
    ensures IsTimeString(ZeroWindDownReminder.wakeUpTime) && ParseTime(ZeroWindDownReminder.wakeUpTime) == 420
    ensures 21 <= |ZeroWindDownReminder.fcmToken| <= 499
  {
    assert IsDigit('0') && IsDigit('7');
  }

  /** As intended, the example reminder is due exactly at 23:15. */
  lemma ZeroWindDownDueAt(nowMs: int)
    requires InDay(nowMs, 0)
    ensures ReminderDue(ZeroWindDownReminder, 1, nowMs, 0) <==> LocalMinute(nowMs, 0) == 23 * 60 + 15
  {
    ZeroWindDownWellFormed();
    ReminderDueAtNotifyTime(ZeroWindDownReminder, 1, nowMs, 0, 90, 15, 0);
    assert Wrap(420 - 465) == 1395;
  }

  /** As written, the example reminder is due exactly at 22:45: the stored
      0 is read as 30 minutes. */
  lemma ZeroWindDownDueAsWrittenAt(nowMs: int)
    requires InDay(nowMs, 0)
    ensures ReminderDueAsWritten(ZeroWindDownReminder, 1, nowMs, 0) <==> LocalMinute(nowMs, 0) == 22 * 60 + 45
  {
    ZeroWindDownWellFormed();
    var read := ZeroWindDownReminder.(windDownMinutes := 30.0);
    assert NotifyInstantAsWritten(ZeroWindDownReminder, nowMs, 0) == NotifyInstant(read, nowMs, 0);
    NotifyClockTime(read, nowMs, 0, 90, 15, 30);
    assert Wrap(420 - 495) == 1365;
  }

  /** The example reminder should notify at 23:15; as written it does not,
      and notifies at 22:45 instead. */
  lemma ZeroWindDownReadAsThirty()
    ensures var nowMs := (23 * 60 + 15) * MinuteMs;
      && ReminderDue(ZeroWindDownReminder, 1, nowMs, 0)
      && !ReminderDueAsWritten(ZeroWindDownReminder, 1, nowMs, 0)
      && ReminderDueAsWritten(ZeroWindDownReminder, 1, (22 * 60 + 45) * MinuteMs, 0)
  {
    var nowMs := (23 * 60 + 15) * MinuteMs;
    var earlier := (22 * 60 + 45) * MinuteMs;
    assert LocalMinute(nowMs, 0) == 1395;
    assert LocalMinute(earlier, 0) == 1365;
    ZeroWindDownDueAt(nowMs);
    ZeroWindDownDueAsWrittenAt(nowMs);
    ZeroWindDownDueAsWrittenAt(earlier);
  }

  /** A `saveReminder` request: the id (empty when absent), the fields to
      validate and the enabled flag. */
  datatype SaveRequest = SaveRequest(id: string, data: ReminderData, enabled: Value)

  /** The outcome of `saveReminder`: an error with its code and message, or
      the stored record, under the given id or a new one. */
  datatype SaveOutcome =
    | Rejected(code: string, message: string)
    | Saved(id: Option<string>, record: ReminderRecord)

  const RateLimitMessage: string := "Rate limit exceeded. Try again later."
  const MaxRemindersMessage: string := "Maximum 10 reminders allowed per device"
  const NotOwnerMessage: string := "Not authorized to update this reminder"
  const DefaultDays: seq<real> := [1.0, 2.0, 3.0, 4.0, 5.0]

  /** `x ?? d` on a number that passed validation. */
  function NumberOr(v: Value, d: real): real
    requires v.Undefined? || v.Num?
  {
    if Nullish(v) then d else v.n
  }

  /** The record `saveReminder` stores for a valid request: the days, or
      Monday to Friday; the wind-down time, cycle length and latency, or
      30, 90 and 15 when absent; enabled unless `false` was sent. */
  function StoredRecord(req: SaveRequest): (r: ReminderRecord)
    requires ValidateReminderData(req.data).None?
    ensures r.fcmToken == req.data.fcmToken.s && r.wakeUpTime == req.data.wakeUpTime.s
    ensures req.data.daysOfWeek.Undefined? ==> r.daysOfWeek == DefaultDays
    ensures req.data.daysOfWeek.Arr? ==>
      |r.daysOfWeek| == |req.data.daysOfWeek.items|
      && forall i :: 0 <= i < |r.daysOfWeek| ==> Num(r.daysOfWeek[i]) == req.data.daysOfWeek.items[i]
    ensures req.data.windDownMinutes.Undefined? ==> r.windDownMinutes == 30.0
    ensures req.data.cycleLength.Undefined? ==> r.cycleLength == 90.0
    ensures req.data.sleepLatency.Undefined? ==> r.sleepLatency == 15.0
    ensures req.data.windDownMinutes.Num? ==> r.windDownMinutes == req.data.windDownMinutes.n
    ensures req.data.sleepLatency.Num? ==> r.sleepLatency == req.data.sleepLatency.n
    ensures req.data.cycleLength.Num? ==> r.cycleLength == req.data.cycleLength.n
    ensures IsTimeString(r.wakeUpTime) && 21 <= |r.fcmToken| <= 499
    ensures 1 <= |r.daysOfWeek| <= 7 && forall i :: 0 <= i < |r.daysOfWeek| ==> 0.0 <= r.daysOfWeek[i] <= 6.0
    ensures 0.0 <= r.windDownMinutes <= 120.0 && 60.0 <= r.cycleLength <= 150.0 && 0.0 <= r.sleepLatency <= 60.0
    ensures r.enabled <==> req.enabled != Bool(false)
  {
    var data := req.data;
    var ok := CheckOutcomes(data);
    assert ok[0] && ok[1] && ok[2] && ok[3] && ok[4] && ok[5];
    var days := data.daysOfWeek;
    ReminderRecord(
      data.fcmToken.s,
      data.wakeUpTime.s,
      if Truthy(days) then seq(|days.items|, i requires 0 <= i < |days.items| => days.items[i].n) else DefaultDays,
      NumberOr(data.windDownMinutes, 30.0),
      NumberOr(data.cycleLength, 90.0),
      NumberOr(data.sleepLatency, 15.0),
      req.enabled != Bool(false))
  }

  /** `saveReminder`, given what the rate limiter allowed, how many
      reminders the token already has, and the token stored in the reminder
      of the given id, if that exists: the validation message, then the rate
      limit, then the limit of ten reminders for a new reminder, then the
      owner of an existing reminder may refuse it. */
  function SaveReminder(req: SaveRequest, allowed: bool, existingCount: nat, existingOwner: Option<Value>)
    : (out: SaveOutcome)
    ensures ValidateReminderData(req.data).Some? ==>
      out == Rejected("invalid-argument", ValidateReminderData(req.data).value)
    ensures ValidateReminderData(req.data).None? && !allowed ==> out == Rejected("resource-exhausted", RateLimitMessage)
    ensures out.Saved? ==> allowed && ValidateReminderData(req.data).None? && out.record == StoredRecord(req)
    ensures out.Saved? && req.id == "" ==> out.id.None? && existingCount < MaxRemindersPerToken
    ensures out.Saved? && req.id != "" ==> out.id == Some(req.id)
    ensures ValidateReminderData(req.data).None? && allowed && req.id == "" ==>
      (out.Saved? <==> existingCount < MaxRemindersPerToken)
    ensures ValidateReminderData(req.data).None? && allowed && req.id != "" ==>
      (out.Saved? <==> existingOwner.None? || existingOwner.value == req.data.fcmToken)
  {
    var validationError := ValidateReminderData(req.data);
    if validationError.Some? then Rejected("invalid-argument", validationError.value)
    else if !allowed then Rejected("resource-exhausted", RateLimitMessage)
    else if req.id == "" && existingCount >= MaxRemindersPerToken then
      Rejected("resource-exhausted", MaxRemindersMessage)
    else
      var record := StoredRecord(req);
      if req.id != "" then
        if existingOwner.Some? && existingOwner.value != req.data.fcmToken then
          Rejected("permission-denied", NotOwnerMessage)
        else Saved(Some(req.id), record)
      else Saved(None, record)
  }
}

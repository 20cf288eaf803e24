/** The input checks of the reminder cloud functions: each validator is a
    predicate on an arbitrary value, and the reminder check reports the
    message of the first failing field. */
module ReminderValidation {
  import opened Wrappers
  import opened Json
  import opened Clock

  /** `validateWakeUpTime`: a string matching the time-string pattern. */
  function ValidateWakeUpTime(time: Value): (ok: bool)
    ensures ok <==> time.Str? && IsTimeString(time.s)
  {
    time.Str? && IsTimeString(time.s)
  }

  /** One element of a days-of-week array: a number from 0 to 6 (`NaN`
      fails both comparisons; fractions pass). */
  predicate IsDay(d: Value) {
    d.Num? && 0.0 <= d.n <= 6.0
  }

  /** `days.every(...)`, walked from the first element. */
  function EveryDay(days: seq<Value>): (ok: bool)
    ensures ok <==> forall i :: 0 <= i < |days| ==> IsDay(days[i])
  {
    if days == [] then true
    else if !IsDay(days[0]) then false
    else
      var rest := EveryDay(days[1..]);
      assert forall i :: 1 <= i < |days| ==> days[i] == days[1..][i - 1];
      rest
  }

  /** `validateDaysOfWeek`: an array of one to seven days. Repeated days are
      not refused. */
  function ValidateDaysOfWeek(days: Value): (ok: bool)
    ensures ok <==>
      days.Arr? && 1 <= |days.items| <= 7 && forall i :: 0 <= i < |days.items| ==> IsDay(days.items[i])
  {
    if !days.Arr? then false
    else if |days.items| == 0 || |days.items| > 7 then false
    else EveryDay(days.items)
  }

  /** `validateNumericRange`: a number, not `NaN`, within `[min, max]`. */
  function ValidateNumericRange(value: Value, min: real, max: real): (ok: bool)
    ensures ok <==> value.Num? && min <= value.n <= max
  {
    value.Num? && value.n >= min && value.n <= max
  }

  /** `validateFcmToken`: a string of 21 to 499 characters. */
  function ValidateFcmToken(token: Value): (ok: bool)
    ensures ok <==> token.Str? && 21 <= |token.s| <= 499
  {
    token.Str? && |token.s| > 20 && |token.s| < 500
  }

  /** The fields of a reminder request, as received. */
  datatype ReminderData = ReminderData(
    fcmToken: Value,
    wakeUpTime: Value,
    daysOfWeek: Value,
    cycleLength: Value,
    sleepLatency: Value,
    windDownMinutes: Value)

  const ValidationMessages: seq<string> := [
    "Invalid FCM token",
    "Invalid wake up time format (expected HH:MM)",
    "Invalid days of week (expected array of 0-6)",
    "Invalid cycle length (expected 60-150 minutes)",
    "Invalid sleep latency (expected 0-60 minutes)",
    "Invalid wind down time (expected 0-120 minutes)"]

  /** Whether each of the six checks passes, in the order they are made;
      an absent optional field passes its check. */
  function CheckOutcomes(data: ReminderData): (ok: seq<bool>)
    ensures |ok| == |ValidationMessages|
  {
    [ ValidateFcmToken(data.fcmToken),
      ValidateWakeUpTime(data.wakeUpTime),
      data.daysOfWeek.Undefined? || ValidateDaysOfWeek(data.daysOfWeek),
      data.cycleLength.Undefined? || ValidateNumericRange(data.cycleLength, 60.0, 150.0),
      data.sleepLatency.Undefined? || ValidateNumericRange(data.sleepLatency, 0.0, 60.0),
      data.windDownMinutes.Undefined? || ValidateNumericRange(data.windDownMinutes, 0.0, 120.0) ]
  }

  /** `validateReminderData`: `null` when every check passes, else the
      message of the first check that fails. */
  function ValidateReminderData(data: ReminderData): (r: Option<string>)
    ensures var ok := CheckOutcomes(data);
      && (r.None? <==> forall k :: 0 <= k < |ok| ==> ok[k])
      && (r.Some? ==> exists k :: 0 <= k < |ok| && !ok[k] && (forall j :: 0 <= j < k ==> ok[j])
                                  && r.value == ValidationMessages[k])
  {
    var ok := CheckOutcomes(data);
    if !ValidateFcmToken(data.fcmToken) then
      assert !ok[0];
      Some(ValidationMessages[0])
    else if !ValidateWakeUpTime(data.wakeUpTime) then
      assert ok[0] && !ok[1];
      Some(ValidationMessages[1])
    else if data.daysOfWeek != Undefined && !ValidateDaysOfWeek(data.daysOfWeek) then
      assert ok[0] && ok[1] && !ok[2];
      Some(ValidationMessages[2])
    else if data.cycleLength != Undefined && !ValidateNumericRange(data.cycleLength, 60.0, 150.0) then
      assert ok[0] && ok[1] && ok[2] && !ok[3];
      Some(ValidationMessages[3])
    else if data.sleepLatency != Undefined && !ValidateNumericRange(data.sleepLatency, 0.0, 60.0) then
      assert ok[0] && ok[1] && ok[2] && ok[3] && !ok[4];
      Some(ValidationMessages[4])
    else if data.windDownMinutes != Undefined && !ValidateNumericRange(data.windDownMinutes, 0.0, 120.0) then
      assert ok[0] && ok[1] && ok[2] && ok[3] && ok[4] && !ok[5];
      Some(ValidationMessages[5])
    else
      None
  }

  /** Examples of the checks: repeated and fractional days pass, an empty
      week, eight days, a 7 and `NaN` fail; the range check is inclusive
      at both ends; a token passes from 21 characters. */
  lemma ValidatorExamples()
    ensures ValidateDaysOfWeek(Arr([Num(1.0), Num(1.0), Num(2.5)]))
    ensures !ValidateDaysOfWeek(Arr([])) && !ValidateDaysOfWeek(Arr([Num(7.0)])) && !ValidateDaysOfWeek(Arr([NaN]))
    ensures !ValidateDaysOfWeek(Arr(seq(8, i => Num(0.0))))
    ensures ValidateNumericRange(Num(60.0), 60.0, 150.0) && ValidateNumericRange(Num(150.0), 60.0, 150.0)
    ensures !ValidateNumericRange(NaN, 0.0, 60.0) && !ValidateNumericRange(Str("30"), 0.0, 60.0)
    ensures !ValidateFcmToken(Str(seq(20, i => 'a'))) && ValidateFcmToken(Str(seq(21, i => 'a')))
  {
    assert IsDay(Num(1.0)) && IsDay(Num(2.5));
    assert !IsDay(Arr([Num(7.0)]).items[0]) && !IsDay(Arr([NaN]).items[0]);
  }

  /** A request whose only faults are a short token and a bad time gets the
      token message: the first failure wins. */
  lemma FirstFailureWins(data: ReminderData)
    requires !ValidateFcmToken(data.fcmToken) && !ValidateWakeUpTime(data.wakeUpTime)
    ensures ValidateReminderData(data) == Some("Invalid FCM token")
  {
  }
}

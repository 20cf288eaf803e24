/** The app's input schemas: settings, a saved sleep entry (with and
    without its id) and the input of a calculation. A schema either accepts
    a value, giving the typed record with the defaults filled in and unknown
    properties dropped, or rejects it with the list of issues of every field
    that failed, in field order. */
module Schemas {
  import opened Wrappers
  import opened Json
  import opened Clock

  datatype IssueCode =
    | InvalidType
    | NotInteger
    | TooSmall(minimum: real)
    | TooBig(maximum: real)
    | InvalidFormat
    | InvalidEnumValue

  /** One failed check: the property it concerns (`""` for the value as a
      whole), what failed, and the schema's own message when it gives one. */
  datatype Issue = Issue(path: string, code: IssueCode, message: Option<string>)

  /** The issues of a field's outcome: none when it was accepted. */
  function Issues<T>(r: Result<T, seq<Issue>>): seq<Issue> {
    if r.Success? then [] else r.error
  }

  /** A `z.number()` with an optional `.int()` and inclusive `.min` and
      `.max`, each with its message. */
  datatype NumberRule = NumberRule(
    isInt: bool, minimum: real, maximum: real, minMessage: Option<string>, maxMessage: Option<string>)

  predicate NumberFits(rule: NumberRule, v: Value) {
    v.Num? && rule.minimum <= v.n <= rule.maximum && (rule.isInt ==> IsInteger(v.n))
  }

  /** A number check: anything but a number (`NaN` and a missing property
      included) is the wrong type; a number collects one issue per failed
      check, in the order `int`, `min`, `max`. */
  function NumberField(path: string, rule: NumberRule, v: Value): (r: Result<real, seq<Issue>>)
    ensures r.Success? <==> NumberFits(rule, v)
    ensures r.Success? ==> r.value == v.n
    ensures r.Failure? ==> |r.error| >= 1 && forall i :: 0 <= i < |r.error| ==> r.error[i].path == path
  {
    if !v.Num? then Failure([Issue(path, InvalidType, None)])
    else
      var issues :=
        (if rule.isInt && !IsInteger(v.n) then [Issue(path, NotInteger, None)] else [])
        + (if v.n < rule.minimum then [Issue(path, TooSmall(rule.minimum), rule.minMessage)] else [])
        + (if v.n > rule.maximum then [Issue(path, TooBig(rule.maximum), rule.maxMessage)] else []);
      if issues == [] then Success(v.n) else Failure(issues)
  }

  /** `.default(d)`: a missing property is read as `d`. */
  function WithDefault(v: Value, d: Value): Value {
    if v.Undefined? then d else v
  }

  const TimeMessage: string := "Invalid time format. Expected HH:MM"
  const DateMessage: string := "Invalid date format. Expected YYYY-MM-DD"

  /** The `timeString` schema: a string matching `^([01]?[0-9]|2[0-3]):[0-5][0-9]$`. */
  function TimeField(path: string, v: Value): (r: Result<TimeString, seq<Issue>>)
    ensures r.Success? <==> v.Str? && IsTimeString(v.s)
    ensures r.Success? ==> r.value == v.s
    ensures r.Failure? && v.Str? ==> r.error == [Issue(path, InvalidFormat, Some(TimeMessage))]
  {
    if !v.Str? then Failure([Issue(path, InvalidType, None)])
    else if IsTimeString(v.s) then Success(v.s)
    else Failure([Issue(path, InvalidFormat, Some(TimeMessage))])
  }

  /** `^\d{4}-\d{2}-\d{2}$`: the shape of a date only, not its calendar
      validity. */
  predicate IsDateString(s: string) {
    && |s| == 10
    && s[4] == '-' && s[7] == '-'
    && forall i :: 0 <= i < 10 && i != 4 && i != 7 ==> IsDigit(s[i])
  }

  function DateField(path: string, v: Value): (r: Result<string, seq<Issue>>)
    ensures r.Success? <==> v.Str? && IsDateString(v.s)
    ensures r.Success? ==> r.value == v.s
  {
    if !v.Str? then Failure([Issue(path, InvalidType, None)])
    else if IsDateString(v.s) then Success(v.s)
    else Failure([Issue(path, InvalidFormat, Some(DateMessage))])
  }

  function StringField(path: string, v: Value): (r: Result<string, seq<Issue>>)
    ensures r.Success? <==> v.Str?
    ensures r.Success? ==> r.value == v.s
  {
    if v.Str? then Success(v.s) else Failure([Issue(path, InvalidType, None)])
  }

  function BoolField(path: string, v: Value): (r: Result<bool, seq<Issue>>)
    ensures r.Success? <==> v.Bool?
    ensures r.Success? ==> r.value == v.b
  {
    if v.Bool? then Success(v.b) else Failure([Issue(path, InvalidType, None)])
  }

  /** The languages of the settings. */
  datatype Language = PtBR | En | Es | Fr | De

  function LanguageCode(l: Language): string {
    match l
    case PtBR => "pt-BR"
    case En => "en"
    case Es => "es"
    case Fr => "fr"
    case De => "de"
  }

  const LanguageCodes: seq<string> := ["pt-BR", "en", "es", "fr", "de"]

  /** `z.enum([...])`: one of the five language codes. */
  function LanguageField(path: string, v: Value): (r: Result<Language, seq<Issue>>)
    ensures r.Success? <==> v.Str? && v.s in LanguageCodes
    ensures r.Success? ==> LanguageCode(r.value) == v.s
  {
    if !v.Str? then Failure([Issue(path, InvalidType, None)])
    else if v.s == "pt-BR" then Success(PtBR)
    else if v.s == "en" then Success(En)
    else if v.s == "es" then Success(Es)
    else if v.s == "fr" then Success(Fr)
    else if v.s == "de" then Success(De)
    else Failure([Issue(path, InvalidEnumValue, None)])
  }

  /** `settingsSchema`. */
  datatype Settings = Settings(cycleLength: real, sleepLatency: real, language: Language, notificationsEnabled: bool)

  const CycleLengthRule: NumberRule := NumberRule(false, 60.0, 120.0,
    Some("Cycle length must be at least 60 minutes"), Some("Cycle length must be at most 120 minutes"))
  const SleepLatencyRule: NumberRule := NumberRule(false, 0.0, 60.0,
    Some("Sleep latency cannot be negative"), Some("Sleep latency must be at most 60 minutes"))

  const DefaultSettings: Settings := Settings(90.0, 15.0, PtBR, false)

  /** Parses the settings: a non-object is rejected as a whole; otherwise
      each property is read with its default and checked, and the issues of
      all failing properties are collected. */
  function ParseSettings(v: Value): (r: Result<Settings, seq<Issue>>)
    ensures r.Failure? ==> |r.error| > 0
  {
    if !v.Obj? then Failure([Issue("", InvalidType, None)])
    else
      var cycle := NumberField("cycleLength", CycleLengthRule, WithDefault(Get(v, "cycleLength"), Num(90.0)));
      var latency := NumberField("sleepLatency", SleepLatencyRule, WithDefault(Get(v, "sleepLatency"), Num(15.0)));
      var language := LanguageField("language", WithDefault(Get(v, "language"), Str("pt-BR")));
      var notifications := BoolField("notificationsEnabled", WithDefault(Get(v, "notificationsEnabled"), Bool(false)));
      if cycle.Success? && latency.Success? && language.Success? && notifications.Success? then
        Success(Settings(cycle.value, latency.value, language.value, notifications.value))
      else
        Failure(Issues(cycle) + Issues(latency) + Issues(language) + Issues(notifications))
  }

  /** The settings accepted are exactly the objects whose cycle length lies
      in [60, 120] and sleep latency in [0, 60] minutes, whose language is
      one of the five codes and whose notification flag is a boolean, each
      property being allowed to be missing; a missing property takes its
      default (90, 15, `pt-BR`, off). */
  lemma SettingsAcceptance(v: Value)
    ensures ParseSettings(v).Success? <==>
      && v.Obj?
      && (Get(v, "cycleLength").Undefined? || NumberFits(CycleLengthRule, Get(v, "cycleLength")))
      && (Get(v, "sleepLatency").Undefined? || NumberFits(SleepLatencyRule, Get(v, "sleepLatency")))
      && (Get(v, "language").Undefined? || (Get(v, "language").Str? && Get(v, "language").s in LanguageCodes))
      && (Get(v, "notificationsEnabled").Undefined? || Get(v, "notificationsEnabled").Bool?)
    ensures ParseSettings(v).Success? ==>
      var s := ParseSettings(v).value;
      && s.cycleLength == (if Get(v, "cycleLength").Undefined? then 90.0 else Get(v, "cycleLength").n)
      && s.sleepLatency == (if Get(v, "sleepLatency").Undefined? then 15.0 else Get(v, "sleepLatency").n)
      && (if Get(v, "language").Undefined? then s.language == PtBR
          else LanguageCode(s.language) == Get(v, "language").s)
      && s.notificationsEnabled == (!Get(v, "notificationsEnabled").Undefined? && Get(v, "notificationsEnabled").b)
  {
  }

  /** The empty object gives the default settings. */
  lemma EmptySettingsAreDefaults()
    ensures ParseSettings(Obj(map[])) == Success(DefaultSettings)
  {
  }

  /** Settings as a plain object. */
  function SettingsToValue(s: Settings): Value {
    Obj(map[
      "cycleLength" := Num(s.cycleLength),
      "sleepLatency" := Num(s.sleepLatency),
      "language" := Str(LanguageCode(s.language)),
      "notificationsEnabled" := Bool(s.notificationsEnabled)])
  }

  /** Parsing is idempotent: settings the schema produced are accepted again
      unchanged. */
  lemma SettingsReparse(v: Value)
    requires ParseSettings(v).Success?
    ensures ParseSettings(SettingsToValue(ParseSettings(v).value)) == ParseSettings(v)
  {
    SettingsAcceptance(v);
    var s := ParseSettings(v).value;
    var w := SettingsToValue(s);
    assert Get(w, "language") == Str(LanguageCode(s.language));
    assert Get(w, "cycleLength") == Num(s.cycleLength);
    assert Get(w, "sleepLatency") == Num(s.sleepLatency);
    assert Get(w, "notificationsEnabled") == Bool(s.notificationsEnabled);
  }

  /** `sleepEntryCreateSchema`: an entry without its id. */
  datatype SleepEntryCreate = SleepEntryCreate(
    date: string,
    bedtime: TimeString,
    wakeupTime: TimeString,
    completeCycles: int,
    partialCycle: real,
    idealBedtime: TimeString,
    idealWakeupTime: TimeString)

  /** `sleepEntrySchema`: an entry with its id. */
  datatype ValidSleepEntry = ValidSleepEntry(id: string, body: SleepEntryCreate)

  const CompleteCyclesRule: NumberRule := NumberRule(true, 0.0, 10.0,
    Some("Complete cycles cannot be negative"), Some("Complete cycles cannot exceed 10"))
  const PartialCycleRule: NumberRule := NumberRule(false, 0.0, 1.0,
    Some("Partial cycle cannot be negative"), Some("Partial cycle must be between 0 and 1"))

  /** The properties of an entry other than its id are well formed: a
      `YYYY-MM-DD`-shaped date, four time strings, a whole number of complete
      cycles in [0, 10] and a partial cycle in [0, 1]. */
  predicate EntryBodyFits(v: Value) {
    && Get(v, "date").Str? && IsDateString(Get(v, "date").s)
    && Get(v, "bedtime").Str? && IsTimeString(Get(v, "bedtime").s)
    && Get(v, "wakeupTime").Str? && IsTimeString(Get(v, "wakeupTime").s)
    && NumberFits(CompleteCyclesRule, Get(v, "completeCycles"))
    && NumberFits(PartialCycleRule, Get(v, "partialCycle"))
    && Get(v, "idealBedtime").Str? && IsTimeString(Get(v, "idealBedtime").s)
    && Get(v, "idealWakeupTime").Str? && IsTimeString(Get(v, "idealWakeupTime").s)
  }

  /** The checks of the entry's properties other than its id, in field
      order. */
  function ParseEntryBody(v: Value): (r: Result<SleepEntryCreate, seq<Issue>>)
    requires v.Obj?
    ensures r.Success? <==> EntryBodyFits(v)
    ensures r.Failure? ==> |r.error| > 0
    ensures r.Success? ==>
      && r.value.date == Get(v, "date").s
      && r.value.bedtime == Get(v, "bedtime").s && r.value.wakeupTime == Get(v, "wakeupTime").s
      && r.value.completeCycles as real == Get(v, "completeCycles").n
      && r.value.partialCycle == Get(v, "partialCycle").n
      && r.value.idealBedtime == Get(v, "idealBedtime").s && r.value.idealWakeupTime == Get(v, "idealWakeupTime").s
  {
    var date := DateField("date", Get(v, "date"));
    var bedtime := TimeField("bedtime", Get(v, "bedtime"));
    var wakeup := TimeField("wakeupTime", Get(v, "wakeupTime"));
    var complete := NumberField("completeCycles", CompleteCyclesRule, Get(v, "completeCycles"));
    var partial := NumberField("partialCycle", PartialCycleRule, Get(v, "partialCycle"));
    var idealBedtime := TimeField("idealBedtime", Get(v, "idealBedtime"));
    var idealWakeup := TimeField("idealWakeupTime", Get(v, "idealWakeupTime"));
    if && date.Success? && bedtime.Success? && wakeup.Success? && complete.Success?
       && partial.Success? && idealBedtime.Success? && idealWakeup.Success?
    then
      Success(SleepEntryCreate(date.value, bedtime.value, wakeup.value, complete.value.Floor,
        partial.value, idealBedtime.value, idealWakeup.value))
    else
      Failure(Issues(date) + Issues(bedtime) + Issues(wakeup) + Issues(complete) + Issues(partial)
        + Issues(idealBedtime) + Issues(idealWakeup))
  }

  /** Parses an entry without its id. */
  function ParseSleepEntryCreate(v: Value): (r: Result<SleepEntryCreate, seq<Issue>>)
    ensures r.Success? <==> v.Obj? && EntryBodyFits(v)
    ensures r.Failure? ==> |r.error| > 0
  {
    if !v.Obj? then Failure([Issue("", InvalidType, None)]) else ParseEntryBody(v)
  }

  /** Parses a saved entry: the id must be a string, and the issues of the id
      come before those of the other properties. */
  function ParseSleepEntry(v: Value): (r: Result<ValidSleepEntry, seq<Issue>>)
    ensures r.Success? <==> v.Obj? && Get(v, "id").Str? && EntryBodyFits(v)
    ensures r.Success? ==> r.value.id == Get(v, "id").s && Success(r.value.body) == ParseSleepEntryCreate(v)
    ensures r.Failure? ==> |r.error| > 0
  {
    if !v.Obj? then Failure([Issue("", InvalidType, None)])
    else
      var id := StringField("id", Get(v, "id"));
      var body := ParseEntryBody(v);
      if id.Success? && body.Success? then Success(ValidSleepEntry(id.value, body.value))
      else Failure(Issues(id) + Issues(body))
  }

  /** A well-formed entry at midnight with zero cycles is accepted. */
  lemma MidnightEntryAccepted()
    ensures ParseSleepEntry(EntryValue("2024-01-15", "00:00", Num(0.0), Num(0.0))).Success?
  {
    var v := EntryValue("2024-01-15", "00:00", Num(0.0), Num(0.0));
    EntryValueFields("2024-01-15", "00:00", Num(0.0), Num(0.0));
    assert IsTimeString("00:00") && IsDateString("2024-01-15");
    assert EntryBodyFits(v);
  }

  /** A date is checked for its shape only: month 13, day 45 passes. */
  lemma ShapedDateAccepted()
    ensures ParseSleepEntry(EntryValue("2024-13-45", "22:30", Num(5.0), Num(1.0))).Success?
  {
    var v := EntryValue("2024-13-45", "22:30", Num(5.0), Num(1.0));
    EntryValueFields("2024-13-45", "22:30", Num(5.0), Num(1.0));
    assert IsTimeString("00:00") && IsTimeString("22:30") && IsDateString("2024-13-45");
    assert EntryBodyFits(v);
  }

  /** The properties of an example entry object. */
  lemma EntryValueFields(date: string, bedtime: string, completeCycles: Value, partialCycle: Value)
    ensures var v := EntryValue(date, bedtime, completeCycles, partialCycle);
      && v.Obj?
      && Get(v, "id") == Str("123") && Get(v, "date") == Str(date) && Get(v, "bedtime") == Str(bedtime)
      && Get(v, "wakeupTime") == Str("00:00") && Get(v, "completeCycles") == completeCycles
      && Get(v, "partialCycle") == partialCycle && Get(v, "idealBedtime") == Str("00:00")
      && Get(v, "idealWakeupTime") == Str("00:00")
  {
  }

  /** A day-first date, an hour of 25, minus one complete cycle, 2.5
      complete cycles and a partial cycle of 1.5 are each rejected. */
  lemma RejectedEntryExamples()
    ensures ParseSleepEntry(EntryValue("15-01-2024", "22:30", Num(5.0), Num(0.3))).Failure?
    ensures ParseSleepEntry(EntryValue("2024-01-15", "25:00", Num(5.0), Num(0.3))).Failure?
    ensures ParseSleepEntry(EntryValue("2024-01-15", "22:30", Num(-1.0), Num(0.3))).Failure?
    ensures ParseSleepEntry(EntryValue("2024-01-15", "22:30", Num(2.5), Num(0.3))).Failure?
    ensures ParseSleepEntry(EntryValue("2024-01-15", "22:30", Num(5.0), Num(1.5))).Failure?
  {
    assert Get(EntryValue("15-01-2024", "22:30", Num(5.0), Num(0.3)), "date").s == "15-01-2024";
    assert !IsDateString("15-01-2024");
    assert Get(EntryValue("2024-01-15", "25:00", Num(5.0), Num(0.3)), "bedtime").s == "25:00";
    assert !IsTimeString("25:00");
    assert Get(EntryValue("2024-01-15", "22:30", Num(-1.0), Num(0.3)), "completeCycles") == Num(-1.0);
    assert Get(EntryValue("2024-01-15", "22:30", Num(2.5), Num(0.3)), "completeCycles") == Num(2.5);
    assert !IsInteger(2.5);
    assert Get(EntryValue("2024-01-15", "22:30", Num(5.0), Num(1.5)), "partialCycle") == Num(1.5);
  }

  /** An entry object with the id `123`, the given date and bedtime and
      cycle counts, and fixed other times. */
  function EntryValue(date: string, bedtime: string, completeCycles: Value, partialCycle: Value): Value {
    Obj(map[
      "id" := Str("123"),
      "date" := Str(date),
      "bedtime" := Str(bedtime),
      "wakeupTime" := Str("00:00"),
      "completeCycles" := completeCycles,
      "partialCycle" := partialCycle,
      "idealBedtime" := Str("00:00"),
      "idealWakeupTime" := Str("00:00")])
  }

  /** `sleepCalculationInputSchema`. */
  datatype CalculationInput = CalculationInput(
    bedtime: TimeString, wakeupTime: TimeString, latencyMinutes: real, cycleLengthMinutes: real)

  const LatencyRule: NumberRule := NumberRule(false, 0.0, 60.0, None, None)
  const CycleRule: NumberRule := NumberRule(false, 60.0, 120.0, None, None)

  /** Parses the input of a calculation: two time strings, a latency in
      [0, 60] defaulting to 15 and a cycle length in [60, 120] defaulting
      to 90. */
  function ParseCalculationInput(v: Value): (r: Result<CalculationInput, seq<Issue>>)
    ensures r.Success? <==>
      && v.Obj?
      && Get(v, "bedtime").Str? && IsTimeString(Get(v, "bedtime").s)
      && Get(v, "wakeupTime").Str? && IsTimeString(Get(v, "wakeupTime").s)
      && (Get(v, "latencyMinutes").Undefined? || NumberFits(LatencyRule, Get(v, "latencyMinutes")))
      && (Get(v, "cycleLengthMinutes").Undefined? || NumberFits(CycleRule, Get(v, "cycleLengthMinutes")))
    ensures r.Success? ==>
      && r.value.bedtime == Get(v, "bedtime").s && r.value.wakeupTime == Get(v, "wakeupTime").s
      && r.value.latencyMinutes
         == (if Get(v, "latencyMinutes").Undefined? then 15.0 else Get(v, "latencyMinutes").n)
      && r.value.cycleLengthMinutes
         == (if Get(v, "cycleLengthMinutes").Undefined? then 90.0 else Get(v, "cycleLengthMinutes").n)
    ensures r.Failure? ==> |r.error| > 0
  {
    if !v.Obj? then Failure([Issue("", InvalidType, None)])
    else
      var bedtime := TimeField("bedtime", Get(v, "bedtime"));
      var wakeup := TimeField("wakeupTime", Get(v, "wakeupTime"));
      var latency := NumberField("latencyMinutes", LatencyRule, WithDefault(Get(v, "latencyMinutes"), Num(15.0)));
      var cycle := NumberField("cycleLengthMinutes", CycleRule, WithDefault(Get(v, "cycleLengthMinutes"), Num(90.0)));
      if bedtime.Success? && wakeup.Success? && latency.Success? && cycle.Success? then
        Success(CalculationInput(bedtime.value, wakeup.value, latency.value, cycle.value))
      else
        Failure(Issues(bedtime) + Issues(wakeup) + Issues(latency) + Issues(cycle))
  }

  /** `validateSettings`: the parsed settings, or the thrown error. */
  function ValidateSettings(data: Value): (r: Result<Settings, seq<Issue>>)
    ensures r == ParseSettings(data)
    ensures r.Success? ==> ParseSettings(SettingsToValue(r.value)) == r
  {
    var r := ParseSettings(data);
    if r.Success? then SettingsReparse(data); r else r
  }

  /** `validateSleepEntry`. */
  function ValidateSleepEntry(data: Value): (r: Result<ValidSleepEntry, seq<Issue>>)
    ensures r == ParseSleepEntry(data)
    ensures r.Success? <==> data.Obj? && Get(data, "id").Str? && EntryBodyFits(data)
  {
    ParseSleepEntry(data)
  }

  /** `validateSleepCalculationInput`. */
  function ValidateSleepCalculationInput(data: Value): (r: Result<CalculationInput, seq<Issue>>)
    ensures r == ParseCalculationInput(data)
    ensures r.Success? ==> 0.0 <= r.value.latencyMinutes <= 60.0 && 60.0 <= r.value.cycleLengthMinutes <= 120.0
  {
    ParseCalculationInput(data)
  }

  /** The `{ success, data }` / `{ success: false, error }` record of the
      safe validators. */
  datatype SafeResult<T> = SafeResult(success: bool, data: Option<T>, error: Option<seq<Issue>>)

  function ToSafe<T>(r: Result<T, seq<Issue>>): SafeResult<T> {
    if r.Success? then SafeResult(true, Some(r.value), None) else SafeResult(false, None, Some(r.error))
  }

  /** `safeValidateSettings`: succeeds on exactly the values `validateSettings`
      accepts, with the same settings, and otherwise carries its error. */
  function SafeValidateSettings(data: Value): (r: SafeResult<Settings>)
    ensures r.success <==> ValidateSettings(data).Success?
    ensures r.success ==> r.data == Some(ValidateSettings(data).value) && r.error.None?
    ensures !r.success ==> r.data.None? && r.error == Some(ValidateSettings(data).error)
  {
    ToSafe(ParseSettings(data))
  }

  /** `safeValidateSleepEntry`: succeeds on exactly the values
      `validateSleepEntry` accepts, with the same entry, and otherwise
      carries its error. */
  function SafeValidateSleepEntry(data: Value): (r: SafeResult<ValidSleepEntry>)
    ensures r.success <==> ValidateSleepEntry(data).Success?
    ensures r.success ==> r.data == Some(ValidateSleepEntry(data).value) && r.error.None?
    ensures !r.success ==> r.data.None? && r.error == Some(ValidateSleepEntry(data).error)
  {
    ToSafe(ParseSleepEntry(data))
  }
}

# Sleep-cycle calculator and sleep coach, in Dafny

This project models the computing core of the sleep-cycle web app and its
reminder cloud functions:

- the **sleep-cycle calculator**: whole and partial 90-minute cycles between
  bedtime and wake-up, a bedtime aligned to whole cycles, ideal bedtimes and
  ideal wake-up times, and the bedtime-notification window;
- the **sleep coach**: schedule statistics (averages, population standard
  deviations, weekday and weekend averages, a 0–100 consistency score), the
  pattern detectors (weekend shift, improving or declining trend, consistent
  streak, irregular schedule), and the insight generator with its stable
  priority sort;
- the **sleep history**: a newest-first log of at most 100 entries, with add
  and clear;
- the **input schemas** of the app: time strings, settings, sleep entries and
  calculation inputs, with their defaults and result shapes;
- the **reminder functions**: the request validators, the 32-bit token hash,
  the per-token rate limit, the bedtime and notification instants, the
  choice of due reminders, and what saving a reminder stores.

Clock times are minutes after midnight (`Clock.MinuteOfDay`, 0 to 1439). A
time string is `seq<char>` checked against the `H:MM`/`HH:MM` pattern.
Numbers the app computes with (means, deviations, scores, cycle fractions)
are exact `real`s. JavaScript's `Math.round`, `Math.ceil`, its truncating `%`,
`ToInt32`, `toString(36)` and the truncation of a `Date`'s milliseconds are
written out explicitly. Values that come from outside (request bodies, parsed
JSON) are `Json.Value`, which includes `undefined` and `NaN`.

Some parts of the app change state in place, and those parts are modelled as
classes or methods:

- `SleepHistory.SleepHistoryStore` holds the history and the stored copy.
- `RateLimit.RateLimiter` holds the per-key records.
- `InsightGenerator.SortByPriority` sorts an `array` in place.
- `InsightGenerator.GenerateInsights` builds its list by pushing.
- `SleepCycles.CalculateIdealBedtimes` and `SleepCycles.CalculateIdealWakeupTimes` build their lists in counting loops.
- `TokenHash.HashToken` folds the token character by character.

Each of these is proved equal to a specification function, and the
properties are proved about that function.

Modules: `Wrappers`, `Clock`, `Radix`, `RealMath`, `SleepCycles`, `Sorting`,
`CoachConstants`, `CoachTypes`, `ScheduleAnalysis`, `PatternDetection`,
`InsightGenerator`, `SleepHistory`, `Json`, `Schemas`, `ReminderValidation`,
`TokenHash`, `RateLimit`, `ReminderSchedule`.

## Model

| member | source | states |
|---|---|---|
| Clock.Wrap | src/utils/sleepCycleUtils.ts:21-30 | a minute count taken modulo a day lands in [0, 1440) and differs from the input by whole days |
| Clock.WrapCongruent | src/utils/sleepCycleUtils.ts:21-30 | minute counts a whole number of days apart show the same clock time |
| Clock.HourOf | src/utils/sleepCycleUtils.ts:10-18 | the hour field of an accepted time string is below 24 |
| Clock.MinuteOf | src/utils/sleepCycleUtils.ts:10-18 | the minute field of an accepted time string is below 60 |
| Clock.Pad2 | src/features/ai-coach/utils/scheduleAnalysis.ts:34 | `padStart(2, '0')` gives two digits that read back as the number |
| Clock.FormatTime | src/features/ai-coach/utils/scheduleAnalysis.ts:29-35 | a clock time renders as five characters |
| Clock.FormatThenParse | src/features/ai-coach/utils/scheduleAnalysis.ts:29-35 | every rendered clock time is an accepted time string that parses back to the same minute |
| Clock.ParseThenFormat | src/lib/schemas.ts:4-6 | a zero-padded `HH:MM` string renders back to itself after parsing |
| Clock.AcceptedTimeStringForms | src/lib/schemas.ts:4-6 | the accepted strings are exactly the padded `HH:MM` renderings and the one-digit-hour `H:MM` forms |
| Clock.ShortTimeStringAccepted | src/lib/schemas.ts:4-6 | every one-digit hour with a two-digit minute is accepted and parses to its minute of day |
| Clock.TimeStringExamples | src/lib/schemas.test.ts:123-137 | "25:00", "24:00" and "12:60" are refused; "00:00", "9:05" and "23:59" are accepted with their minute values |
| Radix.ToRadix | functions/src/index.ts:134 | `toString(base)` gives at least one symbol, each a digit of that base, with no leading zero |
| Radix.RadixRoundTrip | functions/src/index.ts:134 | reading the rendered digits back gives the number |
| RealMath.Round | src/features/ai-coach/utils/scheduleAnalysis.ts:83 | `Math.round` is the integer within half a unit, halves rounding up |
| RealMath.RoundMonotone | src/features/ai-coach/utils/scheduleAnalysis.ts:83 | rounding preserves order |
| RealMath.Ceil | src/features/ai-coach/utils/patternDetection.ts:50 | `Math.ceil` is the least integer not below its argument |
| RealMath.Sqrt | src/features/ai-coach/utils/scheduleAnalysis.ts:47 | the square root, truncated to a thousandth, is non-negative, 0 at 0, and brackets the argument between its square and the next thousandth's square |
| RealMath.SqrtMonotone | src/features/ai-coach/utils/scheduleAnalysis.ts:47 | the square root preserves order |
| SleepCycles.MinutesDifference | src/utils/sleepCycleUtils.ts:21-30 | the difference, plus a day when it is negative; non-negative exactly when the end is less than a day before the start; for two clock times it is the wrapped difference |
| SleepCycles.JsRemainder | src/utils/sleepCycleUtils.ts:58 | JavaScript's `%` agrees with the Euclidean remainder on non-negative dividends and lies in (-b, 0] on negative ones |
| SleepCycles.JsRemainderOdd | src/utils/sleepCycleUtils.ts:58 | the truncating remainder is symmetric about zero |
| SleepCycles.CalculateSleepCycles | src/utils/sleepCycleUtils.ts:33-74 | the night is congruent to wake-up minus bedtime and latency; it is shorter than a day for a non-negative latency; it is negative exactly when bedtime plus latency lies more than a day after the wake-up time |
| SleepCycles.WholeCyclesFit | src/utils/sleepCycleUtils.ts:55-59 | the whole cycles are the floor of the night over the cycle length; for a non-negative night the partial cycle is in [0, 1) and whole plus partial cycles add up to the night |
| SleepCycles.AdjustedBedtimeEndsOnCycle | src/utils/sleepCycleUtils.ts:61-66 | adjusted bedtime plus latency plus the whole cycles is, on the clock, the wake-up time |
| SleepCycles.NegativeNightExample | src/utils/sleepCycleUtils.ts:49-52 | bedtime 23:50, latency 15 and wake-up 00:00 give -5 minutes and -1 whole cycles as written |
| SleepCycles.CalculateSleepCyclesWrapped | src/utils/sleepCycleUtils.ts:33-74 | corrected night: in [0, 1440) for every latency, congruent to wake-up minus bedtime and latency, with non-negative whole cycles and a partial cycle in [0, 1) |
| SleepCycles.WrappedCyclesFit | src/utils/sleepCycleUtils.ts:55-66 | in the corrected night, whole plus partial cycles add up to the night and the adjusted bedtime ends on a whole cycle at the wake-up time |
| SleepCycles.WrappedAgreesOnNonNegativeNights | src/utils/sleepCycleUtils.ts:49-52 | the correction changes nothing where the code as written already gives a non-negative night with a non-negative latency |
| SleepCycles.WrappedNightExample | src/utils/sleepCycleUtils.ts:49-52 | the corrected example night is 1435 minutes, 15 cycles and 85/90 of one |
| SleepCycles.CalculateIdealBedtimes | src/utils/sleepCycleUtils.ts:77-103 | `numberOfOptions` bedtimes (none for a non-positive count); item i ends `numberOfOptions - i` whole cycles plus the latency before the wake-up time |
| SleepCycles.CalculateIdealWakeupTimes | src/utils/sleepCycleUtils.ts:106-129 | `numberOfOptions` wake-up times; item i lies latency plus `i + 3` cycles after the bedtime, so one and two cycles are never offered |
| SleepCycles.WholeCyclesSplitExactly | src/utils/sleepCycleUtils.ts:55-59 | a whole number of cycles splits with nothing left over |
| SleepCycles.IdealBedtimeGivesWholeCycles | src/utils/sleepCycleUtils.ts:86-100 | going to bed at an ideal bedtime gives exactly the planned whole cycles, no partial cycle and no adjustment |
| SleepCycles.IdealWakeupGivesWholeCycles | src/utils/sleepCycleUtils.ts:116-126 | waking at an ideal wake-up time gives exactly the planned whole cycles and no partial cycle |
| SleepCycles.IdealBedtimesOneCycleApart | src/utils/sleepCycleUtils.ts:86-100 | consecutive ideal bedtimes are one cycle apart |
| SleepCycles.IdealWakeupTimesOneCycleApart | src/utils/sleepCycleUtils.ts:116-126 | consecutive ideal wake-up times are one cycle apart |
| SleepCycles.ShouldSendBedtimeNotification | src/utils/sleepCycleUtils.ts:132-144 | remind exactly when the wrapped time to bedtime is in (0, leadTime] |
| SleepCycles.NotificationWindow | src/utils/sleepCycleUtils.ts:140-143 | the reminder fires in each of the `leadTime` minutes before bedtime and in no other minute of the day |
| SleepCycles.SleepCycleExamples | src/utils/sleepCycleUtils.test.ts:66-112 | the five worked nights give 5 cycles and 525 minutes, 5 cycles exactly, 435 minutes, 4 cycles with 0.8 of one, and 5 exact cycles of 450 minutes with no latency |
| SleepCycles.NotificationExamples | src/utils/sleepCycleUtils.test.ts:169-209 | reminders inside the lead time fire; a passed bedtime and a far one do not |
| Sorting.SortIsPermutation | src/features/ai-coach/utils/insightGenerator.ts:175-184 | the stable sort by key is a permutation |
| Sorting.SortIsSorted | src/features/ai-coach/utils/insightGenerator.ts:175-184 | the result is ordered by key |
| Sorting.SortIsStable | src/features/ai-coach/utils/insightGenerator.ts:175-184 | items of equal key keep their relative order |
| Sorting.SortedIsFixed | src/features/ai-coach/utils/insightGenerator.ts:175-184 | an already ordered sequence is left as it is |
| Sorting.InsertionSort | src/features/ai-coach/utils/insightGenerator.ts:183 | the in-place array sort leaves the array equal to the stable sort of its old contents |
| ScheduleAnalysis.TimeToMinutes | src/features/ai-coach/utils/scheduleAnalysis.ts:14-24 | a time converts to [360, 1800); hours before 6 are moved to the next day; modulo a day it is the clock time |
| ScheduleAnalysis.MinutesToTimeRoundTrip | src/features/ai-coach/utils/scheduleAnalysis.ts:29-35 | every minute count in [360, 1800) renders as a time string that converts back to it |
| ScheduleAnalysis.TimeToMinutesRoundTrip | src/features/ai-coach/utils/scheduleAnalysis.ts:14-35 | every padded time string, the hours 00–05 included, survives conversion and rendering |
| ScheduleAnalysis.StdDev | src/features/ai-coach/utils/scheduleAnalysis.ts:40-48 | 0 for fewer than two values; otherwise the square root, to a thousandth, of the mean squared deviation from the mean (divided by n, the population variance); never negative |
| ScheduleAnalysis.VarianceNonNegative | src/features/ai-coach/utils/scheduleAnalysis.ts:40-48 | the mean squared deviation from any point is not negative, so its square root is defined |
| ScheduleAnalysis.SumNonNegative | src/features/ai-coach/utils/scheduleAnalysis.ts:53-56 | a sum of non-negative values is not negative |
| ScheduleAnalysis.StdDevOfConstant | src/features/ai-coach/utils/scheduleAnalysis.ts:40-48 | a constant list has deviation 0 |
| ScheduleAnalysis.AverageBounds | src/features/ai-coach/utils/scheduleAnalysis.ts:53-56 | the average of a non-empty list lies between any bounds of its values |
| ScheduleAnalysis.AverageOfConstant | src/features/ai-coach/utils/scheduleAnalysis.ts:53-56 | the average of a constant list is that constant |
| ScheduleAnalysis.PartScore | src/features/ai-coach/utils/scheduleAnalysis.ts:74-76 | each part of the score is in [0, 1], 1 for no spread and 0 from the limit on |
| ScheduleAnalysis.PartScoreMonotone | src/features/ai-coach/utils/scheduleAnalysis.ts:74-76 | more spread never raises a part score |
| ScheduleAnalysis.ConsistencyScore | src/features/ai-coach/utils/scheduleAnalysis.ts:68-84 | the score is in [0, 100] for non-negative inputs, 100 with no spread, 0 at or past every limit |
| ScheduleAnalysis.ConsistencyScoreMonotone | src/features/ai-coach/utils/scheduleAnalysis.ts:68-84 | the score never rises when any of its inputs grows |
| ScheduleAnalysis.OnWeekend | src/features/ai-coach/utils/scheduleAnalysis.ts:98-99 | the weekend (or weekday) filter keeps only entries of that kind, drawn from the history |
| ScheduleAnalysis.OnWeekendKeepsAll | src/features/ai-coach/utils/scheduleAnalysis.ts:98-99 | the filter keeps every entry of its kind; a history all of one kind is kept whole by that filter and emptied by the other |
| ScheduleAnalysis.OnWeekendPartition | src/features/ai-coach/utils/scheduleAnalysis.ts:98-99 | the weekday and weekend groups together hold every entry of the history exactly as often as it occurs (a multiset partition) |
| ScheduleAnalysis.OnWeekendAppend | src/features/ai-coach/utils/scheduleAnalysis.ts:98-99 | filtering a concatenation filters each part in turn, so each group keeps the history's order |
| ScheduleAnalysis.SingleKindGroups | src/features/ai-coach/utils/scheduleAnalysis.ts:98-99 | a history all of one kind splits into itself and an empty group |
| ScheduleAnalysis.AnalyzeSchedule | src/features/ai-coach/utils/scheduleAnalysis.ts:89-144 | no statistics exactly below three entries; otherwise the data points are the number of entries |
| ScheduleAnalysis.AnalyzeScheduleInRange | src/features/ai-coach/utils/scheduleAnalysis.ts:89-144 | the score is in [0, 100], the deviations are non-negative and every average lies in [360, 1800] |
| ScheduleAnalysis.WeekdaysOnlyFallBack | src/features/ai-coach/utils/scheduleAnalysis.ts:115-130 | with no weekend entries, the weekend averages fall back to the overall averages, which are also the weekday averages, and the score is the one with no weekend gap |
| ScheduleAnalysis.WeekendsOnlyFallBack | src/features/ai-coach/utils/scheduleAnalysis.ts:115-130 | with no weekday entries, the weekday averages fall back to the overall averages, which are also the weekend averages, and the score is the one with no weekend gap |
| ScheduleAnalysis.RegularScheduleScoresFull | src/features/ai-coach/utils/scheduleAnalysis.ts:68-144 | a history of identical nights scores 100 with zero deviations and equal weekday and weekend averages |
| ScheduleAnalysis.GroupFallsToConstant | src/features/ai-coach/utils/scheduleAnalysis.ts:115-122 | a weekday or weekend group whose nights share one bedtime averages to it, and so does the fallback for an empty group |
| PatternDetection.DetectWeekendPattern | src/features/ai-coach/utils/patternDetection.ts:14-33 | a shift exactly when a bedtime or wake-up gap reaches 45; the direction is "later" exactly when the weekend bedtime is later; the confidence is min(1, largest gap / 90), so in [0.5, 1] |
| PatternDetection.SplitIndex | src/features/ai-coach/utils/patternDetection.ts:50 | from seven entries on, the cut leaves at least three recent and four earlier entries |
| PatternDetection.ClassifyTrend | src/features/ai-coach/utils/patternDetection.ts:64-92 | improving exactly at a gain of 10 or more, declining at a loss of 10 or more, nothing in between; confidence min(1, change / 30) |
| PatternDetection.DetectTrend | src/features/ai-coach/utils/patternDetection.ts:39-42 | nothing below seven entries; a detected trend is improving or declining |
| PatternDetection.TrendSplitsEntries | src/features/ai-coach/utils/patternDetection.ts:44-54 | recent and earlier parts partition the newest-first copy, which is a permutation of the entries; every recent entry is at least as new as every earlier one |
| PatternDetection.NewerBeforeOlder | src/features/ai-coach/utils/patternDetection.ts:46-54 | any cut of a newest-first list leaves every entry before it dated no earlier than any entry after it |
| PatternDetection.TrendOfParts | src/features/ai-coach/utils/patternDetection.ts:44-64 | from seven entries the guard against fewer than three earlier entries never fires, and the trend is the classification of the two parts' consistency scores |
| PatternDetection.DetectConsistentStreak | src/features/ai-coach/utils/patternDetection.ts:98-119 | a streak exactly from five entries with a score of 80 or more; confidence score / 100, days the number of entries |
| PatternDetection.DetectIrregularPattern | src/features/ai-coach/utils/patternDetection.ts:124-140 | irregular exactly when the mean deviation reaches 60; confidence min(1, mean / 120) |
| InsightGenerator.Rank | src/features/ai-coach/utils/insightGenerator.ts:176-181 | high ranks first (0) and info last (3) |
| InsightGenerator.VarianceInsight | src/features/ai-coach/utils/insightGenerator.ts:60-88 | a warning exactly above a mean deviation of 30; high priority exactly above 90, medium otherwise; actionable, dismissible, suggesting the average bedtime |
| InsightGenerator.WeekendPatternInsight | src/features/ai-coach/utils/insightGenerator.ts:90-115 | a weekend-pattern insight, actionable and dismissible, of high priority exactly when the bedtime gap exceeds 90 minutes and medium otherwise |
| InsightGenerator.TrendInsight | src/features/ai-coach/utils/insightGenerator.ts:117-139 | an improving-trend insight exactly for an improving trend, then info and not actionable; otherwise a declining-trend insight of medium priority that is actionable; always dismissible |
| InsightGenerator.StreakInsight | src/features/ai-coach/utils/insightGenerator.ts:141-156 | an optimal-streak insight of info priority, not actionable, dismissible |
| InsightGenerator.FourRules | src/features/ai-coach/utils/insightGenerator.ts:26-47 | four optional insights of four kinds, the variance one and the streak one never both present, join into at most three insights with distinct categories and exactly the present ones as members |
| InsightGenerator.CollectMembers | src/features/ai-coach/utils/insightGenerator.ts:26-47 | the collected insights are exactly those of the rules that fire (the streak only without a variance warning), at most one per category |
| InsightGenerator.SortByPriority | src/features/ai-coach/utils/insightGenerator.ts:175-184 | sorting in place leaves the stable priority sort of the old contents |
| InsightGenerator.PushInsights | src/features/ai-coach/utils/insightGenerator.ts:26-47 | the pushes build the rule-ordered collection |
| InsightGenerator.RankInsights | src/features/ai-coach/utils/insightGenerator.ts:23-49 | the pushed and sorted list is the ranked insights of the statistics and patterns |
| InsightGenerator.GenerateInsights | src/features/ai-coach/utils/insightGenerator.ts:14-50 | the result is the specified insight list and is in priority order |
| InsightGenerator.PrimaryInsight | src/features/ai-coach/utils/insightGenerator.ts:55-58 | the first insight, of the highest priority; an insufficient-data insight for the entry count when there are none |
| InsightGenerator.InsightsSorted | src/features/ai-coach/utils/insightGenerator.ts:48-49 | the generated insights are ordered by priority |
| InsightGenerator.FewEntriesGiveInsufficientData | src/features/ai-coach/utils/insightGenerator.ts:18-21 | below three entries there is exactly one insight: insufficient data, info, neither actionable nor dismissible, with the current and required counts |
| InsightGenerator.SortKeepsInsights | src/features/ai-coach/utils/insightGenerator.ts:175-184 | the sort keeps the same insights and distinct categories |
| InsightGenerator.RankedMembers | src/features/ai-coach/utils/insightGenerator.ts:26-49 | the ranked insights are exactly those of the firing rules, at most three, one per category |
| InsightGenerator.VarianceInsightRule | src/features/ai-coach/utils/insightGenerator.ts:60-67 | a variance insight appears exactly above a mean deviation of 30; high exactly above 90 |
| InsightGenerator.WeekendInsightRule | src/features/ai-coach/utils/insightGenerator.ts:90-115 | a weekend insight appears exactly with a weekend shift; high exactly when the bedtime gap exceeds 90, even when the wake-up gap triggered it |
| InsightGenerator.WeekendFromFired | src/features/ai-coach/utils/insightGenerator.ts:30-34 | among the insights of the firing rules, a weekend insight is present exactly when the weekend rule fired, and it is that rule's insight |
| InsightGenerator.TrendInsightRule | src/features/ai-coach/utils/insightGenerator.ts:117-139 | an improving trend gives an info insight that is not actionable, a declining one a medium actionable insight |
| InsightGenerator.StreakInsightRule | src/features/ai-coach/utils/insightGenerator.ts:42-47 | a streak insight appears exactly with a streak and no variance warning; the two never appear together |
| InsightGenerator.RankedAreDismissible | src/features/ai-coach/utils/insightGenerator.ts:85 | every generated insight from three entries on is dismissible and not insufficient-data |
| InsightGenerator.RankedInPriorityOrder | src/features/ai-coach/utils/insightGenerator.ts:175-184 | the ranked list is in priority order and insights of equal priority keep their rule order |
| SleepHistory.WithId | src/contexts/SleepHistoryContext.tsx:35-38 | the stored entry carries the given id and every supplied field unchanged |
| SleepHistory.IdAt | src/contexts/SleepHistoryContext.tsx:37 | the id is a non-empty string of decimal digits |
| SleepHistory.Prepend | src/contexts/SleepHistoryContext.tsx:40 | the new entry comes first, the length is min(old + 1, 100), and the rest are the first min(old, 99) old entries in order |
| SleepHistory.PrependEvictsOnlyOldest | src/contexts/SleepHistoryContext.tsx:40 | below the cap nothing is dropped; at the cap only the oldest entry is |
| SleepHistory.SleepHistoryStore.constructor | src/contexts/SleepHistoryContext.tsx:24-32 | the history starts as the saved history, or empty when nothing was saved |
| SleepHistory.SleepHistoryStore.AddEntry | src/contexts/SleepHistoryContext.tsx:34-43 | the history becomes the new entry prepended, the stored copy equals it, it holds at most 100 entries and its head carries the supplied fields |
| SleepHistory.SleepHistoryStore.ClearHistory | src/contexts/SleepHistoryContext.tsx:45-48 | the history is empty and the stored copy removed |
| SleepHistory.ReplayBounded | src/contexts/SleepHistoryContext.tsx:40-47 | after any run of adds and clears the history holds at most 100 entries |
| SleepHistory.ReplayAddsNewestFirst | src/contexts/SleepHistoryContext.tsx:40 | adds that stay under the cap put the entries in front, newest first |
| Json.Get | src/lib/schemas.ts:9-24 | a property read gives the property, or `undefined` when absent |
| Schemas.NumberField | src/lib/schemas.ts:10-19 | a number check succeeds exactly on a number within its inclusive bounds (and integral when `.int()`), returning it; a failure has at least one issue at the field's path |
| Schemas.TimeField | src/lib/schemas.ts:4-6 | succeeds exactly on a string matching the time pattern; a string that does not match fails with the pattern's message |
| Schemas.DateField | src/lib/schemas.ts:31-33 | succeeds exactly on a string shaped `dddd-dd-dd` |
| Schemas.LanguageField | src/lib/schemas.ts:20-22 | succeeds exactly on one of the five language codes, returning that language |
| Schemas.SettingsAcceptance | src/lib/schemas.ts:9-24 | settings are accepted exactly when every present field is in range or one of the codes; absent fields default to 90, 15, pt-BR and false |
| Schemas.EmptySettingsAreDefaults | src/lib/schemas.ts:9-24 | an empty object parses to the defaults |
| Schemas.SettingsReparse | src/lib/schemas.ts:9-24 | parsed settings are accepted again unchanged |
| Schemas.ParseEntryBody | src/lib/schemas.ts:29-47 | an entry body is accepted exactly when every field fits, and its fields are the values given |
| Schemas.ParseSleepEntryCreate | src/lib/schemas.ts:52 | the creation schema is the entry schema without the id |
| Schemas.ParseSleepEntry | src/lib/schemas.ts:29-47 | an entry is accepted exactly with a string id and a fitting body |
| Schemas.MidnightEntryAccepted | src/lib/schemas.test.ts:107-169 | a midnight entry with zero cycles is accepted |
| Schemas.ShapedDateAccepted | src/lib/schemas.ts:31-33 | a well-shaped but impossible date such as month 13 is accepted |
| Schemas.RejectedEntryExamples | src/lib/schemas.test.ts:107-169 | a day-first date, hour 25, negative or fractional whole cycles and a partial cycle of 1.5 are refused |
| Schemas.ParseCalculationInput | src/lib/schemas.ts:56-71 | accepted exactly with two time strings and latency and cycle length absent or within [0, 60] and [60, 120]; the defaults are 15 and 90 |
| Schemas.ValidateSettings | src/lib/schemas.ts:102-104 | returns exactly what the settings schema gives (its acceptance and defaults are stated by SettingsAcceptance); parsed settings validate again unchanged |
| Schemas.ValidateSleepEntry | src/lib/schemas.ts:106-108 | returns exactly what the entry schema gives: success exactly on a well-formed entry, with the parsed entry |
| Schemas.ValidateSleepCalculationInput | src/lib/schemas.ts:110-112 | returns exactly what the calculation schema gives (acceptance, values and defaults stated by ParseCalculationInput); a success has latency in [0, 60] and cycle length in [60, 120] |
| Schemas.SafeValidateSettings | src/lib/schemas.ts:114-120 | succeeds on exactly the values validation accepts, with the same data, and otherwise carries its error |
| Schemas.SafeValidateSleepEntry | src/lib/schemas.ts:122-128 | succeeds on exactly the entries validation accepts, with the same data, and otherwise carries its error |
| ReminderValidation.ValidateWakeUpTime | functions/src/index.ts:35-39 | accepts exactly a string matching the time pattern |
| ReminderValidation.ValidateDaysOfWeek | functions/src/index.ts:41-45 | accepts exactly an array of one to seven numbers in [0, 6]; repeats are allowed |
| ReminderValidation.ValidateNumericRange | functions/src/index.ts:47-49 | accepts exactly a number, not `NaN`, within inclusive bounds |
| ReminderValidation.ValidateFcmToken | functions/src/index.ts:51-53 | accepts exactly a string of 21 to 499 characters |
| ReminderValidation.ValidateReminderData | functions/src/index.ts:55-75 | no message exactly when all six checks pass (absent optional fields skipped); otherwise the message of the first failing check |
| ReminderValidation.ValidatorExamples | functions/src/index.ts:41-53 | repeated and fractional days pass; an empty week, eight days, a 7 and `NaN` fail; range bounds are inclusive; tokens pass from 21 characters |
| ReminderValidation.FirstFailureWins | functions/src/index.ts:55-61 | a bad token is reported before a bad time |
| TokenHash.ToInt32 | functions/src/index.ts:131-132 | the signed 32-bit value congruent to the input |
| TokenHash.HashStepIsTimes31 | functions/src/index.ts:131-132 | `(hash << 5) - hash + char`, wrapped, is 31 times the hash plus the character, modulo 2^32 |
| TokenHash.HashToken | functions/src/index.ts:127-135 | the loop computes the fold of the characters rendered behind `token_` |
| TokenHash.TokenKeyShape | functions/src/index.ts:134 | every key starts with `token_`, then base-36 symbols with no leading zero that read back as the absolute hash |
| TokenHash.TokenKeyExamples | functions/src/index.ts:127-135 | "", "a" and "ab" hash to `token_0`, `token_2p` and `token_2e9` |
| RateLimit.Step | functions/src/index.ts:84-116 | allowed exactly with no record, an expired window or fewer than 20 calls; a refusal changes nothing; an allowed call counts one more in the window or opens a new window |
| RateLimit.StepKeepsCountInRange | functions/src/index.ts:84-116 | the stored count stays within [1, 20] |
| RateLimit.RunWithinWindow | functions/src/index.ts:98-116 | within a window a key with c calls gets at most 20 - c more, and its window does not move |
| RateLimit.AtMostTwentyPerWindow | functions/src/index.ts:78-124 | a fresh key gets at most 20 calls in the minute after its first |
| RateLimit.RateLimiter.CheckRateLimit | functions/src/index.ts:78-124 | the key's record is updated by the rule and the call allowed by it; a failed transaction allows the call and stores nothing |
| ReminderSchedule.TimeClip | functions/src/index.ts:316 | a `Date` from computed milliseconds is within one of them, and exact when they are whole |
| ReminderSchedule.WakeInstant | functions/src/index.ts:307-313 | the wake-up instant is after now, at most a day later, at the wake-up time of the local day |
| ReminderSchedule.WakeInstantIsNext | functions/src/index.ts:307-313 | no other instant of the next 24 hours is at the wake-up time |
| ReminderSchedule.CalculateBedtime | functions/src/index.ts:301-319 | bedtime plus the cycles and latency is the wake-up instant, to the millisecond when the sleep time is whole |
| ReminderSchedule.NotifyClockTime | functions/src/index.ts:354-362 | for whole minutes, the notification shows five cycles, the latency and the wind-down time before the wake-up time |
| ReminderSchedule.ReminderDue | functions/src/index.ts:334-364 | due exactly when enabled for today, with a valid stored time and token, and notifying in the current minute |
| ReminderSchedule.SameHourAndMinute | functions/src/index.ts:361-364 | equal hours and minutes are the same clock time |
| ReminderSchedule.ReminderDueAtNotifyTime | functions/src/index.ts:354-364 | a reminder with whole-minute values is due exactly in the minute five cycles, the latency and the wind-down time before its wake-up |
| ReminderSchedule.OrDefault | functions/src/index.ts:356-360 | JavaScript's logical or, `x or d`, on a number keeps a non-zero x and replaces zero |
| ReminderSchedule.NotifyInstantAsWritten | functions/src/index.ts:354-360 | as written, the notification reads the cycle, latency and wind-down through JavaScript's logical or |
| ReminderSchedule.ReminderDueAsWritten | functions/src/index.ts:347-364 | as written, due exactly when selected, valid, and the notification read through logical or falls in the current minute |
| ReminderSchedule.ZeroWindDownReadAsThirty | functions/src/index.ts:356-360 | a stored wind-down of 0 is due at 23:15 as intended but at 22:45 as written |
| ReminderSchedule.ZeroWindDownDueAt | functions/src/index.ts:356-360 | with the stored values used as saved, a 07:00 reminder with wind-down 0 is due exactly at 23:15 |
| ReminderSchedule.ZeroWindDownDueAsWrittenAt | functions/src/index.ts:356-360 | as written, the same reminder is due exactly at 22:45 |
| ReminderSchedule.StoredRecord | functions/src/index.ts:221-230 | the stored record holds the request's token and wake-up time, the given days element by element or Monday–Friday when absent, the given numbers (0 included) or 30, 90 and 15 when absent, keeps every field in its validated range, and is enabled unless `false` was sent |
| ReminderSchedule.SaveReminder | functions/src/index.ts:191-253 | invalid input, then the rate limit, then the ten-reminder limit for new reminders, then ownership refuse in that order; otherwise the stored record is saved under the given or a new id |

## Left out

- Firebase, Firestore, FCM and `localStorage` I/O are not modelled. Their results are parameters: `allowed`, `existingCount`, `existingOwner`, the saved history and `transactionFails`. The stored copy of the history is a field.
- `sendNotification` is left out. Its token, title and body checks and its message are FCM plumbing.
- `deleteReminder` is left out. It is a Firestore lookup, an ownership check and a delete.
- The notification text of `checkReminders` and its `limit(500)` are left out. So is the sending of the messages.
- The result and full-results schemas (`sleepCalculationResultSchema`, `sleepResultsSchema`) are left out. No core operation parses them.
- Zod's own default messages for type errors are not modelled. An issue records its path and code, and the schema's own message where it has one.
- Time zones and daylight saving are not modelled. A local day is given by the instant of its midnight and lasts 24 hours. `getDay()` of an entry's date is an input weekday, and its date order is an integer key.
- `formatTime` depends on the locale and is not modelled. Its results are clock times, in minutes.
- Floating-point rounding is not modelled: numbers are exact reals. `Infinity` is not a value, and neither is a `Date` beyond its range of ±8.64e15 ms.
- RealMath.Sqrt: truncated to a thousandth rather than IEEE `Math.sqrt`. Its contract bounds the result to within a thousandth of the true root.
- Insight ids, `createdAt`, the history id's clock and `new Date()` are not modelled. The clock is a parameter, or an opaque constant.
- Token lengths and `charCodeAt` count `char`s. Characters outside the Basic Multilingual Plane, which are two UTF-16 units, are not modelled.
- A saved history that `JSON.parse` rejects is not modelled. Such a history would throw.
- A reminder id that is not a string is not modelled. Only an absent or empty id counts as a new reminder.
- ReminderSchedule.NotifyClockTime: stated for whole-minute cycle, latency and wind-down values only. With fractional values the instant is still exact to the millisecond, by CalculateBedtime.
- PatternDetection.DetectTrend: its own contract says only when it is empty. Its full meaning is stated by PatternDetection.TrendSplitsEntries and PatternDetection.TrendOfParts.
- Schemas.NumberField: it promises at least one issue on failure, not zod's exact issue list.

## Findings

| source | as written | input that shows it | evidently intended | confidence | as-written member | corrected member |
|---|---|---|---|---|---|---|
| src/utils/sleepCycleUtils.ts:49-52 | the night is the difference from falling asleep to waking, plus one day when negative; latency that carries sleep past midnight leaves it negative | bedtime 23:50, wake-up 00:00, latency 15: -5 minutes, -1 whole cycles, a negative partial cycle | the night taken modulo a day, in [0, 1440): 1435 minutes, 15 cycles | high; not executed | SleepCycles.CalculateSleepCycles, SleepCycles.NegativeNightExample | SleepCycles.CalculateSleepCyclesWrapped, SleepCycles.WrappedCyclesFit, SleepCycles.WrappedAgreesOnNonNegativeNights |
| functions/src/index.ts:356-360 | `checkReminders` reads the cycle length, latency and wind-down time with logical or, so a stored 0 becomes 15 or 30 minutes, although `saveReminder` (lines 225-227) validates and stores 0 with `??` | a reminder for 07:00 with 90-minute cycles, latency 15 and wind-down 0 notifies at 22:45 instead of 23:15 | the stored values used as saved: `??`, as `saveReminder` applies it | medium; not executed | ReminderSchedule.NotifyInstantAsWritten, ReminderSchedule.ReminderDueAsWritten, ReminderSchedule.ZeroWindDownReadAsThirty, ReminderSchedule.ZeroWindDownDueAsWrittenAt | ReminderSchedule.ReminderDue, ReminderSchedule.NotifyClockTime, ReminderSchedule.ReminderDueAtNotifyTime |

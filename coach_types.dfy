/** The sleep coach's tuning constants. */
module CoachConstants {

  /** Entries needed before the schedule is analysed at all, before trends
      are looked for, and before a consistent streak is reported. */
  const MinEntriesForAnalysis: int := 3
  const MinEntriesForTrends: int := 7
  const MinEntriesForPatterns: int := 5

  /** Standard-deviation thresholds, in minutes. */
  const VarianceExcellent: int := 15
  const VarianceGood: int := 30
  const VarianceModerate: int := 60
  const VariancePoor: int := 90
  const VarianceVeryPoor: int := 120

  /** A weekend shift is reported from this many minutes on. */
  const WeekendShiftThreshold: int := 45

  /** Weights of the three parts of the consistency score. */
  const BedtimeVarianceWeight: real := 0.4
  const WakeupVarianceWeight: real := 0.4
  const WeekendConsistencyWeight: real := 0.2

  /** `getDay()` numbers of the weekend: Sunday and Saturday. */
  const WeekendDays: set<int> := {0, 6}

  /** A change of the consistency score by this many points is a trend. */
  const TrendThreshold: int := 10
}

/** The values the sleep coach computes and shows. */
module CoachTypes {
  import opened Clock

  /** What the analysis needs of one sleep-history entry: its bedtime and
      wake-up time, the day of the week of its date (0 = Sunday) and its
      date as a timestamp (`new Date(entry.date)`), which orders entries. */
  datatype DayRecord = DayRecord(bedtime: TimeString, wakeupTime: TimeString, weekday: int, dateKey: int)

  datatype InsightCategory =
    | ScheduleVariance
    | WeekendPattern
    | ImprovingTrend
    | DecliningTrend
    | OptimalStreak
    | InsufficientData

  datatype InsightPriority = High | Medium | Low | Info

  /** The statistics of a sleep schedule, in (rounded) minutes; bed and
      wake-up times count minutes from the midnight before the night, so
      that 01:30 is 1530. */
  datatype ScheduleStats = ScheduleStats(
    bedtimeVarianceMinutes: int,
    wakeupVarianceMinutes: int,
    avgBedtimeMinutes: int,
    avgWakeupMinutes: int,
    weekdayAvgBedtime: int,
    weekendAvgBedtime: int,
    weekdayAvgWakeup: int,
    weekendAvgWakeup: int,
    consistencyScore: int,
    dataPoints: int)

  datatype Pattern = WeekendShift | Irregular | Consistent | Improving | Declining

  /** The `details` record of each kind of pattern. A trend's `change` is
      the `improvement` of an improving trend and the `decline` of a
      declining one. */
  datatype PatternDetails =
    | WeekendDetails(bedtimeDiffMinutes: int, wakeupDiffMinutes: int, laterOnWeekend: bool)
    | TrendDetails(recentScore: int, previousScore: int, change: int)
    | StreakDetails(score: int, days: int)
    | IrregularDetails(bedtimeVariance: int, wakeupVariance: int, avgVariance: int)

  datatype PatternResult = PatternResult(pattern: Pattern, confidence: real, details: PatternDetails)

  /** The `data` record of each kind of insight. */
  datatype InsightData =
    | VarianceData(bedtimeVariance: int, wakeupVariance: int, suggestedBedtime: string)
    | WeekendData(timeDifference: int, weekdayBedtime: string, weekendBedtime: string)
    | TrendData(currentScore: int, previousScore: int, change: int)
    | StreakData(days: int, score: int)
    | InsufficientEntriesData(currentEntries: int, requiredEntries: int)

  /** An insight; `title` and `message` are translation keys. */
  datatype CoachInsight = CoachInsight(
    category: InsightCategory,
    priority: InsightPriority,
    title: string,
    message: string,
    data: InsightData,
    actionable: bool,
    dismissible: bool)
}

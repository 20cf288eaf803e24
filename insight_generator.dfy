/** The sleep coach's insights: the rules that turn the schedule statistics
    and the detected patterns into a list of insights, the order in which
    they are shown, and the one insight shown first. */
module InsightGenerator {
  import opened Wrappers
  import opened Sorting
  import opened RealMath
  import opened CoachConstants
  import opened CoachTypes
  import opened ScheduleAnalysis
  import opened PatternDetection

  /** The display rank of a priority: high first, info last. */
  function Rank(p: InsightPriority): (r: int)
    ensures 0 <= r <= 3
    ensures r == 0 <==> p == High
    ensures r == 3 <==> p == Info
  {
    match p
    case High => 0
    case Medium => 1
    case Low => 2
    case Info => 3
  }

  function PriorityRank(insight: CoachInsight): int {
    Rank(insight.priority)
  }

  /** The average of the bedtime and wake-up standard deviations. */
  function AvgVariance(stats: ScheduleStats): real {
    (stats.bedtimeVarianceMinutes + stats.wakeupVarianceMinutes) as real / 2.0
  }

  /** `generateVarianceInsight`: nothing while the two standard deviations
      average 30 minutes or less; a high-priority warning above 90 minutes,
      a medium one in between, suggesting the average bedtime. */
  function VarianceInsight(stats: ScheduleStats): (r: Option<CoachInsight>)
    requires stats.avgBedtimeMinutes >= 0
    ensures r.Some? <==> AvgVariance(stats) > VarianceGood as real
    ensures r.Some? ==>
      && r.value.category == ScheduleVariance
      && (r.value.priority == High <==> AvgVariance(stats) > VariancePoor as real)
      && (r.value.priority == Medium <==> AvgVariance(stats) <= VariancePoor as real)
      && r.value.actionable && r.value.dismissible
      && r.value.data == VarianceData(stats.bedtimeVarianceMinutes, stats.wakeupVarianceMinutes,
           MinutesToTime(stats.avgBedtimeMinutes))
  {
    var avgVariance := AvgVariance(stats);
    if avgVariance <= VarianceGood as real then None
    else
      var severity := if avgVariance > VariancePoor as real then High else Medium;
      Some(CoachInsight(
        ScheduleVariance,
        severity,
        "coach.insights.variance.title",
        if avgVariance > VariancePoor as real
        then "coach.insights.variance.message_high"
        else "coach.insights.variance.message_moderate",
        VarianceData(stats.bedtimeVarianceMinutes, stats.wakeupVarianceMinutes,
          MinutesToTime(stats.avgBedtimeMinutes)),
        true,
        true))
  }

  /** `createWeekendPatternInsight`: high priority when the bedtimes differ
      by more than 90 minutes. */
  function WeekendPatternInsight(pattern: PatternResult, stats: ScheduleStats): (r: CoachInsight)
    requires pattern.details.WeekendDetails?
    requires stats.weekdayAvgBedtime >= 0 && stats.weekendAvgBedtime >= 0
    ensures r.category == WeekendPattern && r.actionable && r.dismissible
    ensures r.priority == High <==> pattern.details.bedtimeDiffMinutes > 90
    ensures r.priority == Medium <==> pattern.details.bedtimeDiffMinutes <= 90
  {
    var diff := pattern.details.bedtimeDiffMinutes;
    CoachInsight(
      WeekendPattern,
      if diff > 90 then High else Medium,
      "coach.insights.weekend.title",
      if pattern.details.laterOnWeekend
      then "coach.insights.weekend.message_later"
      else "coach.insights.weekend.message_earlier",
      WeekendData(diff, MinutesToTime(stats.weekdayAvgBedtime), MinutesToTime(stats.weekendAvgBedtime)),
      true,
      true)
  }

  /** `createTrendInsight`: an improving trend is information, a declining
      one a medium-priority call to act. */
  function TrendInsight(trend: PatternResult): (r: CoachInsight)
    requires trend.details.TrendDetails?
    ensures r.category == ImprovingTrend <==> trend.pattern == Improving
    ensures r.category == ImprovingTrend ==> r.priority == Info && !r.actionable
    ensures r.category != ImprovingTrend ==> r.category == DecliningTrend && r.priority == Medium && r.actionable
    ensures r.dismissible
  {
    var isImproving := trend.pattern == Improving;
    CoachInsight(
      if isImproving then ImprovingTrend else DecliningTrend,
      if isImproving then Info else Medium,
      if isImproving then "coach.insights.trend.improving_title" else "coach.insights.trend.declining_title",
      if isImproving then "coach.insights.trend.improving_message" else "coach.insights.trend.declining_message",
      TrendData(trend.details.recentScore, trend.details.previousScore, trend.details.change),
      !isImproving,
      true)
  }

  /** `createStreakInsight`. */
  function StreakInsight(streak: PatternResult): (r: CoachInsight)
    requires streak.details.StreakDetails?
    ensures r.category == OptimalStreak && r.priority == Info && !r.actionable && r.dismissible
  {
    CoachInsight(
      OptimalStreak,
      Info,
      "coach.insights.streak.title",
      "coach.insights.streak.message",
      StreakData(streak.details.days, streak.details.score),
      false,
      true)
  }

  /** `createInsufficientDataInsight`: how many entries there are and how
      many are needed. */
  function InsufficientDataInsight(currentCount: int): CoachInsight {
    CoachInsight(
      InsufficientData,
      Info,
      "coach.insights.insufficient.title",
      "coach.insights.insufficient.message",
      InsufficientEntriesData(currentCount, MinEntriesForAnalysis),
      false,
      false)
  }

  predicate HasCategory(insights: seq<CoachInsight>, c: InsightCategory) {
    exists x :: x in insights && x.category == c
  }

  /** What the rules need of their inputs: the averages that are shown as
      clock times are not negative, and each detected pattern carries the
      details of its kind. */
  predicate RuleInputs(stats: ScheduleStats, weekend: Option<PatternResult>,
                       trend: Option<PatternResult>, streak: Option<PatternResult>) {
    && stats.weekdayAvgBedtime >= 0 && stats.weekendAvgBedtime >= 0
    && (weekend.Some? ==> weekend.value.details.WeekendDetails?)
    && (trend.Some? ==> trend.value.details.TrendDetails?)
    && (streak.Some? ==> streak.value.details.StreakDetails?)
  }

  /** The insights of the rules that fire, in the order they fire: the
      variance warning, the weekend shift, the trend, and the streak unless
      the variance warning fired. */
  function Collect(stats: ScheduleStats, variance: Option<CoachInsight>, weekend: Option<PatternResult>,
                   trend: Option<PatternResult>, streak: Option<PatternResult>): seq<CoachInsight>
    requires RuleInputs(stats, weekend, trend, streak)
  {
    (if variance.Some? then [variance.value] else [])
    + (if weekend.Some? then [WeekendPatternInsight(weekend.value, stats)] else [])
    + (if trend.Some? then [TrendInsight(trend.value)] else [])
    + (if streak.Some? && variance.None? then [StreakInsight(streak.value)] else [])
  }

  /** The members of `c` are exactly the insights of the rules that fire:
      the variance warning, the weekend shift, the trend, and the streak
      unless the variance warning fired. */
  ghost predicate FiredRules(c: seq<CoachInsight>, stats: ScheduleStats, variance: Option<CoachInsight>,
                       weekend: Option<PatternResult>, trend: Option<PatternResult>, streak: Option<PatternResult>)
    requires RuleInputs(stats, weekend, trend, streak)
  {
    forall x :: x in c <==>
      || (variance.Some? && x == variance.value)
      || (weekend.Some? && x == WeekendPatternInsight(weekend.value, stats))
      || (trend.Some? && x == TrendInsight(trend.value))
      || (streak.Some? && variance.None? && x == StreakInsight(streak.value))
  }

  /** An insight of a list of fired rules comes, by its category, from
      the rule of that category. */
  lemma OfCategory(c: seq<CoachInsight>, stats: ScheduleStats, variance: Option<CoachInsight>,
                   weekend: Option<PatternResult>, trend: Option<PatternResult>, streak: Option<PatternResult>,
                   x: CoachInsight)
    requires RuleInputs(stats, weekend, trend, streak)
    requires variance.Some? ==> variance.value.category == ScheduleVariance
    requires FiredRules(c, stats, variance, weekend, trend, streak) && x in c
    ensures x.category == ScheduleVariance ==> variance.Some? && x == variance.value
    ensures x.category == WeekendPattern ==> weekend.Some? && x == WeekendPatternInsight(weekend.value, stats)
    ensures x.category == ImprovingTrend || x.category == DecliningTrend ==>
      trend.Some? && x == TrendInsight(trend.value)
    ensures x.category == OptimalStreak ==> streak.Some? && variance.None? && x == StreakInsight(streak.value)
    ensures x.category != InsufficientData
  {
  }

  /** The members of the collected list, at most one per rule. */
  lemma CollectMembers(stats: ScheduleStats, variance: Option<CoachInsight>, weekend: Option<PatternResult>,
                       trend: Option<PatternResult>, streak: Option<PatternResult>)
    requires RuleInputs(stats, weekend, trend, streak)
    requires variance.Some? ==> variance.value.category == ScheduleVariance && variance.value.dismissible
    requires trend.Some? ==> trend.value.pattern == Improving || trend.value.pattern == Declining
    ensures var c := Collect(stats, variance, weekend, trend, streak);
      && |c| <= 3
      && FiredRules(c, stats, variance, weekend, trend, streak)
      && DistinctCategories(c)
  {
    var w := if weekend.Some? then Some(WeekendPatternInsight(weekend.value, stats)) else None;
    var t := if trend.Some? then Some(TrendInsight(trend.value)) else None;
    var s := if streak.Some? && variance.None? then Some(StreakInsight(streak.value)) else None;
    assert Collect(stats, variance, weekend, trend, streak) == AsList(variance) + AsList(w) + AsList(t) + AsList(s);
    FourRules(variance, w, t, s);
  }

  /** The list of an optional insight: empty or a single element. */
  function AsList(o: Option<CoachInsight>): (r: seq<CoachInsight>)
    ensures |r| <= 1 && (forall x :: x in r <==> o.Some? && x == o.value)
  {
    if o.Some? then [o.value] else []
  }

  /** Four optional insights of four different kinds, the first and the
      last never both present, join into at most three insights with
      distinct categories. */
  lemma FourRules(v: Option<CoachInsight>, w: Option<CoachInsight>, t: Option<CoachInsight>, s: Option<CoachInsight>)
    requires !(v.Some? && s.Some?)
    requires v.Some? ==> v.value.category == ScheduleVariance
    requires w.Some? ==> w.value.category == WeekendPattern
    requires t.Some? ==> t.value.category == ImprovingTrend || t.value.category == DecliningTrend
    requires s.Some? ==> s.value.category == OptimalStreak
    ensures var c := AsList(v) + AsList(w) + AsList(t) + AsList(s);
      && |c| <= 3
      && (forall x :: x in c <==>
           (v.Some? && x == v.value) || (w.Some? && x == w.value) || (t.Some? && x == t.value) || (s.Some? && x == s.value))
      && DistinctCategories(c)
  {
    var lv, lw, lt, ls := AsList(v), AsList(w), AsList(t), AsList(s);
    JoinedMembers(lv, lw, lt, ls);
    FourKinds(lv, lw, lt, ls);
  }

  /** The members of four joined lists are the members of each. */
  lemma JoinedMembers(v: seq<CoachInsight>, w: seq<CoachInsight>, t: seq<CoachInsight>, s: seq<CoachInsight>)
    ensures forall x :: x in v + w + t + s <==> x in v || x in w || x in t || x in s
  {
  }

  /** Four lists of at most one insight each, of four different kinds,
      join into a list with distinct categories. */
  lemma FourKinds(v: seq<CoachInsight>, w: seq<CoachInsight>, t: seq<CoachInsight>, s: seq<CoachInsight>)
    requires |v| <= 1 && |w| <= 1 && |t| <= 1 && |s| <= 1
    requires forall x :: x in v ==> x.category == ScheduleVariance
    requires forall x :: x in w ==> x.category == WeekendPattern
    requires forall x :: x in t ==> x.category == ImprovingTrend || x.category == DecliningTrend
    requires forall x :: x in s ==> x.category == OptimalStreak
    ensures DistinctCategories(v + w + t + s)
  {
    DistinctAcross(v, w);
    DistinctAcross(v + w, t);
    DistinctAcross(v + w + t, s);
  }

  /** No two insights of the list share a category. */
  predicate DistinctCategories(c: seq<CoachInsight>) {
    forall i, j :: 0 <= i < j < |c| ==> c[i].category != c[j].category
  }

  /** Two lists with distinct categories, none shared between them, join
      into one with distinct categories. */
  lemma DistinctAcross(a: seq<CoachInsight>, b: seq<CoachInsight>)
    requires DistinctCategories(a) && DistinctCategories(b)
    requires forall x, y :: x in a && y in b ==> x.category != y.category
    ensures DistinctCategories(a + b)
  {
    var c := a + b;
    forall i, j | 0 <= i < j < |c|
      ensures c[i].category != c[j].category
    {
      if j < |a| {
        assert c[i] == a[i] && c[j] == a[j];
      } else if i >= |a| {
        assert c[i] == b[i - |a|] && c[j] == b[j - |a|];
      } else {
        assert c[i] in a && c[j] in b;
      }
    }
  }

  /** The insights of the statistics, the trend and the streak, sorted
      stably by priority. */
  function Ranked(stats: ScheduleStats, trend: Option<PatternResult>, streak: Option<PatternResult>)
    : seq<CoachInsight>
    requires RankedInputs(stats, trend, streak)
  {
    SortByKey(Collect(stats, VarianceInsight(stats), DetectWeekendPattern(stats), trend, streak), PriorityRank)
  }

  /** What `Ranked` needs of its inputs. */
  predicate RankedInputs(stats: ScheduleStats, trend: Option<PatternResult>, streak: Option<PatternResult>) {
    && stats.avgBedtimeMinutes >= 0 && stats.weekdayAvgBedtime >= 0 && stats.weekendAvgBedtime >= 0
    && (trend.Some? ==>
          (trend.value.pattern == Improving || trend.value.pattern == Declining) && trend.value.details.TrendDetails?)
    && (streak.Some? ==> streak.value.details.StreakDetails?)
  }

  /** `generateInsights`, as a value: the single insufficient-data insight
      for fewer than three entries, else the insights of the statistics,
      the trend and the streak of the entries, ranked. */
  function Insights(entries: seq<DayRecord>): seq<CoachInsight> {
    if |entries| < MinEntriesForAnalysis then [InsufficientDataInsight(|entries|)]
    else
      AnalyzeScheduleInRange(entries);
      Ranked(AnalyzeSchedule(entries).value, DetectTrend(entries), DetectConsistentStreak(entries))
  }

  /** `sortByPriority`: sorts the insights in place, stably, high priority
      first. */
  method SortByPriority(insights: array<CoachInsight>)
    modifies insights
    ensures insights[..] == SortByKey(old(insights[..]), PriorityRank)
  {
    InsertionSort(insights, PriorityRank);
  }

  /** The rule part of `generateInsights`: each rule that fires pushes its
      insight. */
  method PushInsights(stats: ScheduleStats, variance: Option<CoachInsight>, weekend: Option<PatternResult>,
                      trend: Option<PatternResult>, streak: Option<PatternResult>)
    returns (insights: seq<CoachInsight>)
    requires RuleInputs(stats, weekend, trend, streak)
    ensures insights == Collect(stats, variance, weekend, trend, streak)
  {
    insights := [];
    if variance.Some? {
      insights := insights + [variance.value];
    }
    assert insights == AsList(variance);
    if weekend.Some? {
      insights := insights + [WeekendPatternInsight(weekend.value, stats)];
    }
    ghost var w := if weekend.Some? then Some(WeekendPatternInsight(weekend.value, stats)) else None;
    assert insights == AsList(variance) + AsList(w);
    if trend.Some? {
      insights := insights + [TrendInsight(trend.value)];
    }
    ghost var t := if trend.Some? then Some(TrendInsight(trend.value)) else None;
    assert insights == AsList(variance) + AsList(w) + AsList(t);
    if streak.Some? && variance.None? {
      insights := insights + [StreakInsight(streak.value)];
    }
    ghost var k := if streak.Some? && variance.None? then Some(StreakInsight(streak.value)) else None;
    assert insights == AsList(variance) + AsList(w) + AsList(t) + AsList(k);
  }

  /** The body of `generateInsights` once the statistics and the patterns
      are known: the variance and weekend rules are evaluated, the insights
      of the rules that fire are pushed, and the list is sorted in place by
      priority. */
  method RankInsights(stats: ScheduleStats, trend: Option<PatternResult>, streak: Option<PatternResult>)
    returns (insights: seq<CoachInsight>)
    requires RankedInputs(stats, trend, streak)
    ensures insights == Ranked(stats, trend, streak)
  {
    var variance := VarianceInsight(stats);
    var weekend := DetectWeekendPattern(stats);
    var collected := PushInsights(stats, variance, weekend, trend, streak);
    var buffer := new CoachInsight[|collected|](i requires 0 <= i < |collected| => collected[i]);
    assert buffer[..] == collected;
    SortByPriority(buffer);
    insights := buffer[..];
  }

  /** `generateInsights`: the insufficient-data insight alone for fewer than
      three entries; else the insights of the statistics, the trend and the
      streak of the entries, high priority first. */
  method GenerateInsights(entries: seq<DayRecord>) returns (insights: seq<CoachInsight>)
    ensures insights == Insights(entries)
    ensures SortedBy(insights, PriorityRank)
  {
    if |entries| < MinEntriesForAnalysis {
      return [InsufficientDataInsight(|entries|)];
    }
    AnalyzeScheduleInRange(entries);
    var stats := AnalyzeSchedule(entries);
    var trend := DetectTrend(entries);
    var streak := DetectConsistentStreak(entries);
    insights := RankInsights(stats.value, trend, streak);
    InsightsSorted(entries);
  }

  /** The head of a priority-ordered list of insights, or an
      insufficient-data insight for `count` entries when the list is empty. */
  function FirstOrInsufficient(insights: seq<CoachInsight>, count: int): (r: CoachInsight)
    requires SortedBy(insights, PriorityRank)
    ensures insights != [] ==>
      r == insights[0] && forall x :: x in insights ==> Rank(r.priority) <= Rank(x.priority)
    ensures insights == [] ==> r == InsufficientDataInsight(count)
  {
    if |insights| > 0 then insights[0] else InsufficientDataInsight(count)
  }

  /** `getPrimaryInsight`: the first insight, or an insufficient-data insight
      for the history when there is none. */
  function PrimaryInsight(entries: seq<DayRecord>): (r: CoachInsight)
    ensures |entries| < MinEntriesForAnalysis ==> r == InsufficientDataInsight(|entries|)
    ensures Insights(entries) != [] ==>
      r == Insights(entries)[0] && forall x :: x in Insights(entries) ==> Rank(r.priority) <= Rank(x.priority)
    ensures Insights(entries) == [] ==>
      r.category == InsufficientData && r.data == InsufficientEntriesData(|entries|, MinEntriesForAnalysis)
  {
    InsightsSorted(entries);
    var r := FirstOrInsufficient(Insights(entries), |entries|);
    if |entries| < MinEntriesForAnalysis then
      FewEntriesGiveInsufficientData(entries);
      r
    else r
  }

  /** The ranked insights come high priority first. */
  lemma RankedSorted(stats: ScheduleStats, trend: Option<PatternResult>, streak: Option<PatternResult>)
    requires RankedInputs(stats, trend, streak)
    ensures SortedBy(Ranked(stats, trend, streak), PriorityRank)
  {
    SortIsSorted(Collect(stats, VarianceInsight(stats), DetectWeekendPattern(stats), trend, streak), PriorityRank);
  }

  /** The insights come high priority first. */
  lemma InsightsSorted(entries: seq<DayRecord>)
    ensures SortedBy(Insights(entries), PriorityRank)
  {
    if |entries| >= MinEntriesForAnalysis {
      AnalyzeScheduleInRange(entries);
      RankedSorted(AnalyzeSchedule(entries).value, DetectTrend(entries), DetectConsistentStreak(entries));
    }
  }

  /** Fewer than three entries give exactly one insight: the non-actionable,
      non-dismissible insufficient-data insight with the entry count and
      the three entries needed. */
  lemma FewEntriesGiveInsufficientData(entries: seq<DayRecord>)
    requires |entries| < MinEntriesForAnalysis
    ensures Insights(entries) == [InsufficientDataInsight(|entries|)]
    ensures |Insights(entries)| == 1
    ensures var x := Insights(entries)[0];
      && x.category == InsufficientData && x.priority == Info
      && !x.actionable && !x.dismissible
      && x.data == InsufficientEntriesData(|entries|, 3)
  {
  }

  /** Sorting neither adds nor drops an insight, and keeps categories
      apart. */
  lemma SortKeepsInsights(c: seq<CoachInsight>)
    ensures var r := SortByKey(c, PriorityRank);
      && |r| == |c|
      && (forall x :: x in r <==> x in c)
      && (DistinctCategories(c) ==> DistinctCategories(r))
  {
    var r := SortByKey(c, PriorityRank);
    SortIsPermutation(c, PriorityRank);
    forall x
      ensures x in r <==> x in c
    {
      assert x in r <==> x in multiset(r);
      assert x in c <==> x in multiset(c);
    }
    if DistinctCategories(c) {
      forall i, j | 0 <= i < j < |r|
        ensures r[i].category != r[j].category
      {
        PermutationPositions(c, r, i, j);
      }
    }
  }

  /** The sorted collected list has the members of the collected list, at
      most one per rule. */
  lemma SortedCollectMembers(stats: ScheduleStats, variance: Option<CoachInsight>, weekend: Option<PatternResult>,
                             trend: Option<PatternResult>, streak: Option<PatternResult>)
    requires RuleInputs(stats, weekend, trend, streak)
    requires variance.Some? ==> variance.value.category == ScheduleVariance && variance.value.dismissible
    requires trend.Some? ==> trend.value.pattern == Improving || trend.value.pattern == Declining
    ensures var r := SortByKey(Collect(stats, variance, weekend, trend, streak), PriorityRank);
      && |r| <= 3
      && FiredRules(r, stats, variance, weekend, trend, streak)
      && DistinctCategories(r)
  {
    CollectMembers(stats, variance, weekend, trend, streak);
    SortKeepsInsights(Collect(stats, variance, weekend, trend, streak));
  }

  /** The ranked insights are those of the rules that fired, at most three
      and no two of one category. */
  lemma RankedMembers(stats: ScheduleStats, trend: Option<PatternResult>, streak: Option<PatternResult>)
    requires RankedInputs(stats, trend, streak)
    ensures var r := Ranked(stats, trend, streak);
      && |r| <= 3
      && FiredRules(r, stats, VarianceInsight(stats), DetectWeekendPattern(stats), trend, streak)
      && DistinctCategories(r)
  {
    SortedCollectMembers(stats, VarianceInsight(stats), DetectWeekendPattern(stats), trend, streak);
  }

  /** A variance warning appears exactly when the two standard deviations
      average more than 30 minutes; it has high priority exactly above 90
      minutes. */
  lemma VarianceInsightRule(stats: ScheduleStats, trend: Option<PatternResult>, streak: Option<PatternResult>)
    requires RankedInputs(stats, trend, streak)
    ensures var r, avg := Ranked(stats, trend, streak), AvgVariance(stats);
      && (HasCategory(r, ScheduleVariance) <==> avg > 30.0)
      && forall x :: x in r && x.category == ScheduleVariance ==>
           (x.priority == High <==> avg > 90.0) && (x.priority == Medium <==> avg <= 90.0) && x.actionable
  {
    var r, v, w := Ranked(stats, trend, streak), VarianceInsight(stats), DetectWeekendPattern(stats);
    RankedMembers(stats, trend, streak);
    if v.Some? {
      assert v.value in r;
    }
    forall x | x in r && x.category == ScheduleVariance
      ensures v.Some? && x == v.value
    {
      OfCategory(r, stats, v, w, trend, streak, x);
    }
  }

  /** A weekend insight appears exactly when a weekend shift is detected; it
      has high priority exactly when the weekend and weekday bedtimes differ
      by more than 90 minutes, even when only the wake-up times shifted. */
  lemma WeekendInsightRule(stats: ScheduleStats, trend: Option<PatternResult>, streak: Option<PatternResult>)
    requires RankedInputs(stats, trend, streak)
    ensures var r := Ranked(stats, trend, streak);
      && (HasCategory(r, WeekendPattern) <==> DetectWeekendPattern(stats).Some?)
      && forall x :: x in r && x.category == WeekendPattern ==>
           (x.priority == High <==> Abs(stats.weekendAvgBedtime - stats.weekdayAvgBedtime) > 90)
           && x.actionable
  {
    RankedMembers(stats, trend, streak);
    WeekendFromFired(Ranked(stats, trend, streak), stats, VarianceInsight(stats), DetectWeekendPattern(stats),
                     trend, streak);
  }

  /** In a list of fired rules, the weekend category is present exactly when
      the weekend rule fired, and only with that rule's insight. */
  lemma WeekendFromFired(r: seq<CoachInsight>, stats: ScheduleStats, v: Option<CoachInsight>,
                         w: Option<PatternResult>, trend: Option<PatternResult>, streak: Option<PatternResult>)
    requires RuleInputs(stats, w, trend, streak)
    requires v.Some? ==> v.value.category == ScheduleVariance
    requires FiredRules(r, stats, v, w, trend, streak)
    ensures HasCategory(r, WeekendPattern) <==> w.Some?
    ensures forall x :: x in r && x.category == WeekendPattern ==> w.Some? && x == WeekendPatternInsight(w.value, stats)
  {
    var y := if w.Some? then Some(WeekendPatternInsight(w.value, stats)) else None;
    if w.Some? {
      assert y.value in r;
    }
    forall x | x in r && x.category == WeekendPattern
      ensures y.Some? && x == y.value
    {
      OfCategory(r, stats, v, w, trend, streak, x);
    }
    SoleOfCategory(r, WeekendPattern, y);
  }

  /** A category that only one optional insight can have is present in a
      list exactly when that insight is, and is its. */
  lemma SoleOfCategory(r: seq<CoachInsight>, c: InsightCategory, y: Option<CoachInsight>)
    requires forall x :: x in r && x.category == c ==> y.Some? && x == y.value
    requires y.Some? ==> y.value in r && y.value.category == c
    ensures HasCategory(r, c) <==> y.Some?
  {
  }

  /** A trend insight appears exactly when a trend is detected: an improving
      trend as non-actionable information, a declining one as an actionable
      medium-priority insight. */
  lemma TrendInsightRule(stats: ScheduleStats, trend: Option<PatternResult>, streak: Option<PatternResult>)
    requires RankedInputs(stats, trend, streak)
    ensures var r := Ranked(stats, trend, streak);
      && (HasCategory(r, ImprovingTrend) <==> trend.Some? && trend.value.pattern == Improving)
      && (HasCategory(r, DecliningTrend) <==> trend.Some? && trend.value.pattern == Declining)
      && (forall x :: x in r && x.category == ImprovingTrend ==> x.priority == Info && !x.actionable)
      && (forall x :: x in r && x.category == DecliningTrend ==> x.priority == Medium && x.actionable)
  {
    var r, v, w := Ranked(stats, trend, streak), VarianceInsight(stats), DetectWeekendPattern(stats);
    RankedMembers(stats, trend, streak);
    if trend.Some? {
      assert TrendInsight(trend.value) in r;
    }
    forall x | x in r && (x.category == ImprovingTrend || x.category == DecliningTrend)
      ensures trend.Some? && x == TrendInsight(trend.value)
    {
      OfCategory(r, stats, v, w, trend, streak, x);
    }
  }

  /** A streak insight appears exactly when a streak is detected and no
      variance warning fired: the two never appear together. */
  lemma StreakInsightRule(stats: ScheduleStats, trend: Option<PatternResult>, streak: Option<PatternResult>)
    requires RankedInputs(stats, trend, streak)
    ensures var r := Ranked(stats, trend, streak);
      && (HasCategory(r, OptimalStreak) <==> streak.Some? && AvgVariance(stats) <= 30.0)
      && !(HasCategory(r, ScheduleVariance) && HasCategory(r, OptimalStreak))
      && forall x :: x in r && x.category == OptimalStreak ==> x.priority == Info && !x.actionable
  {
    var r, v, w := Ranked(stats, trend, streak), VarianceInsight(stats), DetectWeekendPattern(stats);
    RankedMembers(stats, trend, streak);
    VarianceInsightRule(stats, trend, streak);
    if streak.Some? && v.None? {
      assert StreakInsight(streak.value) in r;
    }
    forall x | x in r && x.category == OptimalStreak
      ensures streak.Some? && v.None? && x == StreakInsight(streak.value)
    {
      OfCategory(r, stats, v, w, trend, streak, x);
    }
  }

  /** Every ranked insight is dismissible and none is the insufficient-data
      insight. */
  lemma RankedAreDismissible(stats: ScheduleStats, trend: Option<PatternResult>, streak: Option<PatternResult>)
    requires RankedInputs(stats, trend, streak)
    ensures forall x :: x in Ranked(stats, trend, streak) ==> x.category != InsufficientData && x.dismissible
  {
    RankedMembers(stats, trend, streak);
  }

  /** The insights come in priority order, and insights of equal priority
      keep the order in which their rules fired. */
  lemma RankedInPriorityOrder(stats: ScheduleStats, trend: Option<PatternResult>, streak: Option<PatternResult>,
                              rank: int)
    requires RankedInputs(stats, trend, streak)
    ensures SortedBy(Ranked(stats, trend, streak), PriorityRank)
    ensures WithKey(Ranked(stats, trend, streak), PriorityRank, rank)
         == WithKey(Collect(stats, VarianceInsight(stats), DetectWeekendPattern(stats), trend, streak),
              PriorityRank, rank)
  {
    var c := Collect(stats, VarianceInsight(stats), DetectWeekendPattern(stats), trend, streak);
    SortIsSorted(c, PriorityRank);
    SortIsStable(c, PriorityRank, rank);
  }
}

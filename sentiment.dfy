/** What the three sentiment pages share: the weekly record, the status band
    of a sentiment score, the per-metric good / warn / bad thresholds, and the
    nudge record. Sentiment is a one-decimal score, held here in tenths
    (4.2 is 42). */
module Sentiment {

  datatype Trend = Stable | SlightDecrease | Decreasing | CriticalTrend

  /** One week of team data. */
  datatype WeekData = WeekData(sentimentTenths: int, attendance: int, productivity: int, absences: int, trend: Trend)

  /** The four weeks every page ships; week w is at index w - 1. */
  const SeedWeeks: seq<WeekData> := [
    WeekData(42, 95, 98, 0, Stable),
    WeekData(38, 92, 95, 1, SlightDecrease),
    WeekData(33, 85, 88, 2, Decreasing),
    WeekData(27, 78, 72, 3, CriticalTrend)
  ]

  datatype Status = Healthy | Moderate | AtRisk

  /** getStatus: 4.0 and above healthy, 3.0 and above moderate, else at risk. */
  function GetStatus(scoreTenths: int): (s: Status)
    ensures s == Healthy <==> scoreTenths >= 40
    ensures s == Moderate <==> 30 <= scoreTenths < 40
    ensures s == AtRisk <==> scoreTenths < 30
  {
    if scoreTenths >= 40 then Healthy
    else if scoreTenths >= 30 then Moderate
    else AtRisk
  }

  datatype Metric = SentimentMetric | Attendance | Productivity
  datatype Tone = Good | Warn | Bad

  /** The green and yellow thresholds of each metric (sentiment in tenths). */
  function Green(m: Metric): int
  {
    match m
    case SentimentMetric => 40
    case Attendance => 90
    case Productivity => 95
  }

  function Yellow(m: Metric): int
  {
    match m
    case SentimentMetric => 30
    case Attendance => 80
    case Productivity => 85
  }

  /** getMetricStatus: good at or above green, warn at or above yellow, else bad. */
  function MetricStatus(m: Metric, value: int): (t: Tone)
    ensures t == Good <==> value >= Green(m)
    ensures t == Warn <==> Yellow(m) <= value < Green(m)
    ensures t == Bad <==> value < Yellow(m)
  {
    if value >= Green(m) then Good
    else if value >= Yellow(m) then Warn
    else Bad
  }

  /** metricPill: the style of each tone. */
  function MetricPill(t: Tone): string
  {
    match t
    case Good => "bg-emerald-50 text-emerald-700 border border-emerald-200"
    case Warn => "bg-amber-50 text-amber-700 border border-amber-200"
    case Bad => "bg-rose-50 text-rose-700 border border-rose-200"
  }

  /** The sentiment pill and the status banner band a score the same way. */
  lemma SentimentPillMatchesStatus(scoreTenths: int)
    ensures MetricStatus(SentimentMetric, scoreTenths) == Good <==> GetStatus(scoreTenths) == Healthy
    ensures MetricStatus(SentimentMetric, scoreTenths) == Warn <==> GetStatus(scoreTenths) == Moderate
    ensures MetricStatus(SentimentMetric, scoreTenths) == Bad <==> GetStatus(scoreTenths) == AtRisk
  {
  }

  datatype NudgeType = Positive | Attention | Urgent
  /** NoPriority is for the one-nudge page, whose nudges carry none. */
  datatype Priority = NoPriority | LowPriority | MediumPriority | HighPriority

  /** What a nudge is about; each page words these in its own text. */
  datatype Topic =
    | GoodState          // morale and productivity are good
    | TeamStable         // the one-nudge page's positive message
    | HappyButDistracted // happy team, lower engagement
    | ModerateMorale     // moderate morale, stress signals
    | PassiveNegativity  // moderate morale with low attendance
    | LowMorale          // low morale
    | BurnoutRisk        // low morale with repeated absences
    | SuddenDrop         // sentiment fell sharply since last week

  /** A nudge: its kind, its subject and its priority. */
  datatype Nudge = Nudge(kind: NudgeType, topic: Topic, priority: Priority)

  /** The sudden-drop nudge, appended last by the richer pages. */
  const DropNudge: Nudge := Nudge(Urgent, SuddenDrop, HighPriority)

  /** The week-over-week drop test: a week after the first whose sentiment is
      at least 1.5 below the previous week's. */
  predicate SuddenDropIn(weeks: seq<WeekData>, week: int)
    requires 1 <= week <= |weeks|
  {
    week > 1 && weeks[week - 2].sentimentTenths - weeks[week - 1].sentimentTenths >= 15
  }

  /** In the shipped table no week drops by 1.5: the largest drop is 0.6. */
  lemma NoSuddenDropInSeed(week: int)
    requires 1 <= week <= |SeedWeeks|
    ensures !SuddenDropIn(SeedWeeks, week)
  {
  }
}

/** The sentiment deep-dive page: the status banner and metric pills of the
    shared bands, and a nudge list that always holds exactly one nudge. */
module SentimentDashboard {
  import opened Sentiment

  /** generateNudges: one nudge, urgent for low morale, positive otherwise. */
  function GenerateNudges(d: WeekData): (ns: seq<Nudge>)
    ensures |ns| == 1
    ensures ns[0].kind == Urgent || ns[0].kind == Positive
    ensures ns[0].priority == NoPriority
  {
    if d.sentimentTenths < 30 then [Nudge(Urgent, LowMorale, NoPriority)]
    else [Nudge(Positive, TeamStable, NoPriority)]
  }

  /** The nudge agrees with the banner: urgent exactly when the week is at
      risk, positive exactly when it is healthy or moderate. */
  lemma NudgeMatchesBanner(d: WeekData)
    ensures GenerateNudges(d)[0].kind == Urgent <==> GetStatus(d.sentimentTenths) == AtRisk
    ensures GenerateNudges(d)[0].kind == Positive <==> GetStatus(d.sentimentTenths) != AtRisk
  {
  }

  /** The shipped weeks: week 4 (2.7) is at risk with an urgent nudge, week 1
      (4.2) is healthy with a positive one. */
  lemma SeedWeeksFirstAndLast()
    ensures GetStatus(SeedWeeks[3].sentimentTenths) == AtRisk
    ensures GenerateNudges(SeedWeeks[3]) == [Nudge(Urgent, LowMorale, NoPriority)]
    ensures GetStatus(SeedWeeks[0].sentimentTenths) == Healthy
    ensures GenerateNudges(SeedWeeks[0]) == [Nudge(Positive, TeamStable, NoPriority)]
  {
  }
}

/** The sentiment action centre: the shared status bands, and a nudge list of
    at most two entries, a band nudge followed by an optional sudden-drop nudge. */
module ActionCenter {
  import opened Sentiment

  /** The nudge of the sentiment band, if any: a healthy week earns a positive
      nudge only with productivity of at least 95 and attendance above 90. */
  function BandNudges(d: WeekData): seq<Nudge>
  {
    if d.sentimentTenths >= 40 then
      if d.productivity >= 95 && d.attendance > 90 then [Nudge(Positive, GoodState, LowPriority)] else []
    else if d.sentimentTenths >= 30 then [Nudge(Attention, ModerateMorale, MediumPriority)]
    else [Nudge(Urgent, LowMorale, HighPriority)]
  }

  /** generateNudges for the selected week of the table. */
  function GenerateNudges(weeks: seq<WeekData>, week: int): (ns: seq<Nudge>)
    requires 1 <= week <= |weeks|
    ensures |ns| <= 2
    ensures |ns| > 0 && ns[|ns| - 1] == DropNudge <==> SuddenDropIn(weeks, week)
    ensures week == 1 ==> DropNudge !in ns
  {
    var band := BandNudges(weeks[week - 1]);
    band + if SuddenDropIn(weeks, week) then [DropNudge] else []
  }

  /** The first nudge, band by band: a healthy week yields a low-priority
      positive nudge exactly under the productivity and attendance condition
      and nothing otherwise; a moderate week one medium attention nudge; a
      low week one high urgent nudge. */
  lemma FirstNudgeByBand(weeks: seq<WeekData>, week: int)
    requires 1 <= week <= |weeks|
    ensures var d := weeks[week - 1]; var ns := GenerateNudges(weeks, week);
      && (GetStatus(d.sentimentTenths) == Healthy ==>
            if d.productivity >= 95 && d.attendance > 90
            then ns[0] == Nudge(Positive, GoodState, LowPriority)
            else ns == (if SuddenDropIn(weeks, week) then [DropNudge] else []))
      && (GetStatus(d.sentimentTenths) == Moderate ==> ns[0] == Nudge(Attention, ModerateMorale, MediumPriority))
      && (GetStatus(d.sentimentTenths) == AtRisk ==> ns[0] == Nudge(Urgent, LowMorale, HighPriority))
  {
  }

  /** Exactly how many nudges appear: one per band (none for a healthy week
      that misses the bar) plus one for a sudden drop. */
  lemma NudgeCount(weeks: seq<WeekData>, week: int)
    requires 1 <= week <= |weeks|
    ensures |GenerateNudges(weeks, week)| ==
            |BandNudges(weeks[week - 1])| + (if SuddenDropIn(weeks, week) then 1 else 0)
    ensures |BandNudges(weeks[week - 1])| == 0 <==>
            weeks[week - 1].sentimentTenths >= 40 && !(weeks[week - 1].productivity >= 95 && weeks[week - 1].attendance > 90)
  {
  }

  /** No week of the shipped table produces a sudden-drop nudge; each week
      gets exactly one band nudge. */
  lemma SeedHasNoDropNudge(week: int)
    requires 1 <= week <= |SeedWeeks|
    ensures DropNudge !in GenerateNudges(SeedWeeks, week)
    ensures |GenerateNudges(SeedWeeks, week)| == 1
  {
    NoSuddenDropInSeed(week);
  }
}

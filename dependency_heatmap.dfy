/** The dependency heatmap: a list of cross-team dependencies whose first
    entry the AI recommendation can de-risk ("Apply Fix" and "Accept
    Suggestion"), the high-risk counter, the recommendations list, and the
    risk label and colour maps. */
module DependencyHeatmap {
  import opened Common

  /** One dependency between two teams. `risk` and `status` are plain strings
      in the page ('high' | 'medium' | 'low', 'active' | 'blocked'). */
  datatype Dependency = Dependency(id: int, from: string, to: string, risk: string, status: string, resolved: bool)

  /** Both recommendation actions target the dependency with this id. */
  const TargetId: int := 1

  const SeedDependencies: seq<Dependency> := [
    Dependency(1, "Team Gamma", "Team Delta", "high", "blocked", false),
    Dependency(2, "Team Alpha", "Team Beta", "medium", "active", false),
    Dependency(3, "Team Beta", "Team Delta", "low", "active", false)
  ]

  predicate IsTarget(d: Dependency) { d.id == TargetId }
  predicate IsHighRisk(d: Dependency) { d.risk == "high" }
  predicate IsNotLow(d: Dependency) { d.risk != "low" }

  /** The record after "Apply Fix": medium risk, unblocked, resolved. */
  function Fixed(d: Dependency): Dependency
  {
    d.(risk := "medium", status := "active", resolved := true)
  }

  /** The record after "Accept Suggestion": medium risk, resolved, status kept. */
  function Accepted(d: Dependency): Dependency
  {
    d.(risk := "medium", resolved := true)
  }

  /** handleApplyFix's new list: dependency 1 becomes medium / active /
      resolved; every other dependency keeps its place and value. */
  function ApplyFix(ds: seq<Dependency>): (out: seq<Dependency>)
    ensures |out| == |ds|
    ensures forall i :: 0 <= i < |ds| && ds[i].id != TargetId ==> out[i] == ds[i]
    ensures forall i :: 0 <= i < |ds| && ds[i].id == TargetId ==>
              && out[i].risk == "medium" && out[i].status == "active" && out[i].resolved
              && out[i].id == ds[i].id && out[i].from == ds[i].from && out[i].to == ds[i].to
  {
    MapWhere(ds, IsTarget, Fixed)
  }

  /** handleAcceptSuggestion's new list: dependency 1 becomes medium and
      resolved but keeps its status; every other dependency is untouched. */
  function AcceptSuggestion(ds: seq<Dependency>): (out: seq<Dependency>)
    ensures |out| == |ds|
    ensures forall i :: 0 <= i < |ds| && ds[i].id != TargetId ==> out[i] == ds[i]
    ensures forall i :: 0 <= i < |ds| && ds[i].id == TargetId ==>
              && out[i].risk == "medium" && out[i].resolved && out[i].status == ds[i].status
              && out[i].id == ds[i].id && out[i].from == ds[i].from && out[i].to == ds[i].to
  {
    MapWhere(ds, IsTarget, Accepted)
  }

  /** Both updates are idempotent: pressing the button again changes nothing. */
  lemma UpdatesIdempotent(ds: seq<Dependency>)
    ensures ApplyFix(ApplyFix(ds)) == ApplyFix(ds)
    ensures AcceptSuggestion(AcceptSuggestion(ds)) == AcceptSuggestion(ds)
  {
  }

  /** Neither action ever raises a risk back to high: after either one, no
      dependency with the target id is high risk. */
  lemma TargetNeverHighAfterUpdate(ds: seq<Dependency>)
    ensures forall i :: 0 <= i < |ds| && ds[i].id == TargetId ==> !IsHighRisk(ApplyFix(ds)[i])
    ensures forall i :: 0 <= i < |ds| && ds[i].id == TargetId ==> !IsHighRisk(AcceptSuggestion(ds)[i])
  {
  }

  /** The "N high risk" counter. */
  function HighRiskCount(ds: seq<Dependency>): nat { |Filter(ds, IsHighRisk)| }

  /** The recommendations modal lists the dependencies that are not low risk. */
  function Recommendations(ds: seq<Dependency>): seq<Dependency> { Filter(ds, IsNotLow) }

  /** The recommendations list, spelled out: exactly the non-low entries, in
      list order (filtering a concatenation filters each part in turn). */
  lemma RecommendationsExact(ds: seq<Dependency>, more: seq<Dependency>)
    ensures forall i :: 0 <= i < |Recommendations(ds)| ==> Recommendations(ds)[i] in ds && Recommendations(ds)[i].risk != "low"
    ensures forall i :: 0 <= i < |ds| && ds[i].risk != "low" ==> ds[i] in Recommendations(ds)
    ensures Recommendations(ds + more) == Recommendations(ds) + Recommendations(more)
  {
    FilterAppend(ds, more, IsNotLow);
  }

  ghost predicate UniqueIds(ds: seq<Dependency>)
  {
    forall i, j :: 0 <= i < j < |ds| ==> ds[i].id != ds[j].id
  }

  /** With unique ids, fixing a high-risk dependency 1 lowers the high-risk
      count by exactly one, whichever of the two actions is used. */
  lemma {:induction false} UpdateLowersHighCount(ds: seq<Dependency>, k: nat)
    requires k < |ds| && UniqueIds(ds) && ds[k].id == TargetId && ds[k].risk == "high"
    ensures HighRiskCount(ApplyFix(ds)) == HighRiskCount(ds) - 1
    ensures HighRiskCount(AcceptSuggestion(ds)) == HighRiskCount(ds) - 1
  {
    MapWhereSingle(ds, IsTarget, Fixed, k);
    MapWhereSingle(ds, IsTarget, Accepted, k);
    FilterCountUpdate(ds, k, Fixed(ds[k]), IsHighRisk);
    FilterCountUpdate(ds, k, Accepted(ds[k]), IsHighRisk);
  }

  /** On the seed data the counter reads 1 and drops to 0 after either action. */
  lemma SeedHighRiskCount()
    ensures HighRiskCount(SeedDependencies) == 1
    ensures HighRiskCount(ApplyFix(SeedDependencies)) == 0
    ensures HighRiskCount(AcceptSuggestion(SeedDependencies)) == 0
  {
    var s := SeedDependencies;
    assert s[1..][1..][1..] == [];
    assert HighRiskCount(s) == 1;
    UpdateLowersHighCount(s, 0);
  }

  /** getRiskLabel: one label per known level, 'Unknown' for anything else. */
  function RiskLabel(risk: string): (lbl: string)
    ensures lbl == "Unknown" <==> risk != "high" && risk != "medium" && risk != "low"
  {
    if risk == "high" then "\U{1F534} High"
    else if risk == "medium" then "\U{1F7E1} Medium"
    else if risk == "low" then "\U{1F7E2} Low"
    else "Unknown"
  }

  /** getRiskColor: rose, amber, emerald for the known levels; slate otherwise. */
  function RiskColor(risk: string): (color: string)
    ensures color == "hsl(215 16% 47%)" <==> risk != "high" && risk != "medium" && risk != "low"
  {
    match risk
    case "high" => "hsl(0 84% 60%)"
    case "medium" => "hsl(38 92% 50%)"
    case "low" => "hsl(142 76% 36%)"
    case _ => "hsl(215 16% 47%)"
  }

  /** Distinct known levels get distinct labels and distinct colours. */
  lemma LevelsDistinguished(a: string, b: string)
    requires a in ["high", "medium", "low"] && b in ["high", "medium", "low"] && a != b
    ensures RiskLabel(a) != RiskLabel(b) && RiskColor(a) != RiskColor(b)
  {
  }

  /** The page's state that the recommendation actions change. */
  class Heatmap {
    var deps: seq<Dependency>
    var showNotification: bool
    var showRecommendations: bool
    var showChatbot: bool

    /** Dependency ids stay unique: the seed ids are distinct and both
        updates keep every id. */
    ghost predicate Valid()
      reads this
    {
      UniqueIds(deps)
    }

    constructor ()
      ensures Valid()
      ensures deps == SeedDependencies
      ensures showNotification && !showRecommendations && !showChatbot
    {
      deps := SeedDependencies;
      showNotification := true;
      showRecommendations := false;
      showChatbot := false;
    }

    /** handleApplyFix: update dependency 1 and close the recommendations
        modal; the chatbot opens in a later step. */
    method HandleApplyFix()
      requires Valid()
      modifies this
      ensures Valid()
      ensures deps == ApplyFix(old(deps))
      ensures !showRecommendations
      ensures showNotification == old(showNotification) && showChatbot == old(showChatbot)
    {
      deps := ApplyFix(deps);
      showRecommendations := false;
    }

    /** handleAcceptSuggestion: update dependency 1 and hide the notification;
        the chatbot opens in a later step. */
    method HandleAcceptSuggestion()
      requires Valid()
      modifies this
      ensures Valid()
      ensures deps == AcceptSuggestion(old(deps))
      ensures !showNotification
      ensures showRecommendations == old(showRecommendations) && showChatbot == old(showChatbot)
    {
      deps := AcceptSuggestion(deps);
      showNotification := false;
    }

    /** The header's "AI Recommendations" button and the insights card's
        "See AI Recommendations" button open the recommendations modal. */
    method OpenRecommendations()
      requires Valid()
      modifies this
      ensures Valid()
      ensures showRecommendations
      ensures deps == old(deps) && showNotification == old(showNotification) && showChatbot == old(showChatbot)
    {
      showRecommendations := true;
    }

    /** The recommendations modal's close button, shown while it is open. */
    method CloseRecommendations()
      requires Valid() && showRecommendations
      modifies this
      ensures Valid()
      ensures !showRecommendations
      ensures deps == old(deps) && showNotification == old(showNotification) && showChatbot == old(showChatbot)
    {
      showRecommendations := false;
    }

    /** The notification's close button, shown while it is shown. */
    method CloseNotification()
      requires Valid() && showNotification
      modifies this
      ensures Valid()
      ensures !showNotification
      ensures deps == old(deps) && showRecommendations == old(showRecommendations) && showChatbot == old(showChatbot)
    {
      showNotification := false;
    }

    /** The chatbot panel's "No, later" and close buttons, shown while it is
        open. */
    method CloseChatbot()
      requires Valid() && showChatbot
      modifies this
      ensures Valid()
      ensures !showChatbot
      ensures deps == old(deps) && showNotification == old(showNotification)
      ensures showRecommendations == old(showRecommendations)
    {
      showChatbot := false;
    }

    /** The delayed callback of both actions: the chatbot panel opens. */
    method ChatbotTimerFires()
      requires Valid()
      modifies this
      ensures Valid()
      ensures showChatbot
      ensures deps == old(deps) && showNotification == old(showNotification)
      ensures showRecommendations == old(showRecommendations)
    {
      showChatbot := true;
    }
  }
}

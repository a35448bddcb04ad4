/** The risk-alerts dashboard: a list of detected risks that the manager can
    snooze for a day or mark as reviewed, the active and reviewed views
    derived from it, and the slide-in notification that acts on the first
    active risk. Dates are an abstract millisecond clock. */
module RiskAlerts {
  import opened Common

  datatype Severity = High | Medium | Low
  datatype Trend = Downward | Flat | Upward
  datatype Status = Active | Reviewed | Snoozed

  /** One detected risk. The descriptive texts (description, metric, insight,
      suggested action) and the icon are display-only and not kept here. */
  datatype Risk = Risk(
    id: int,
    kind: string,
    team: string,
    severity: Severity,
    detectedOn: string,
    trend: Trend,
    status: Status,
    snoozedUntil: Option<int>,
    reviewedAt: Option<int>)

  /** A snooze lasts one day. */
  const SnoozeMillis: int := 86400000

  const SeedRisks: seq<Risk> := [
    Risk(1, "Velocity drop", "Alpha", High, "2 Oct", Downward, Active, None, None),
    Risk(2, "Blockers > 3", "Delta", Medium, "1 Oct", Flat, Active, None, None),
    Risk(3, "Test failures", "Beta", Low, "3 Oct", Upward, Active, None, None)
  ]

  predicate IsActive(r: Risk) { r.status == Active }
  predicate IsReviewed(r: Risk) { r.status == Reviewed }

  function ActiveRisks(rs: seq<Risk>): seq<Risk> { Filter(rs, IsActive) }
  function ReviewedRisks(rs: seq<Risk>): seq<Risk> { Filter(rs, IsReviewed) }

  /** The risk record after "Snooze 1 Day" at time `now`. */
  function SnoozeRisk(r: Risk, now: int): Risk
  {
    r.(status := Snoozed, snoozedUntil := Some(now + SnoozeMillis))
  }

  /** The risk record after "Mark as reviewed" at time `now`. */
  function ReviewRisk(r: Risk, now: int): Risk
  {
    r.(status := Reviewed, reviewedAt := Some(now))
  }

  /** The new risk list of handleSnooze: every risk carrying `id` is snoozed
      until one day after `now`; every other risk keeps its place and value. */
  function SnoozeById(rs: seq<Risk>, id: int, now: int): (out: seq<Risk>)
    ensures |out| == |rs|
    ensures forall i :: 0 <= i < |rs| && rs[i].id != id ==> out[i] == rs[i]
    ensures forall i :: 0 <= i < |rs| && rs[i].id == id ==>
              && out[i].status == Snoozed
              && out[i].snoozedUntil == Some(now + SnoozeMillis)
              && out[i] == rs[i].(status := out[i].status, snoozedUntil := out[i].snoozedUntil)
  {
    MapWhere(rs, (r: Risk) => r.id == id, (r: Risk) => SnoozeRisk(r, now))
  }

  /** The new risk list of handleReview: every risk carrying `id` becomes
      reviewed, stamped with `now`; every other risk keeps its place and value. */
  function ReviewById(rs: seq<Risk>, id: int, now: int): (out: seq<Risk>)
    ensures |out| == |rs|
    ensures forall i :: 0 <= i < |rs| && rs[i].id != id ==> out[i] == rs[i]
    ensures forall i :: 0 <= i < |rs| && rs[i].id == id ==>
              && out[i].status == Reviewed
              && out[i].reviewedAt == Some(now)
              && out[i] == rs[i].(status := out[i].status, reviewedAt := out[i].reviewedAt)
  {
    MapWhere(rs, (r: Risk) => r.id == id, (r: Risk) => ReviewRisk(r, now))
  }

  ghost predicate UniqueIds(rs: seq<Risk>)
  {
    forall i, j :: 0 <= i < j < |rs| ==> rs[i].id != rs[j].id
  }

  /** An id that no risk carries leaves the list unchanged, for both actions. */
  lemma AbsentIdUnchanged(rs: seq<Risk>, id: int, now: int)
    requires forall i :: 0 <= i < |rs| ==> rs[i].id != id
    ensures SnoozeById(rs, id, now) == rs
    ensures ReviewById(rs, id, now) == rs
  {
  }

  /** Reviewing the (unique) active risk with `id`: one risk fewer is active
      and one more is reviewed. */
  lemma {:induction false} ReviewActiveCounts(rs: seq<Risk>, k: nat, now: int)
    requires k < |rs| && UniqueIds(rs) && rs[k].status == Active
    ensures |ActiveRisks(ReviewById(rs, rs[k].id, now))| == |ActiveRisks(rs)| - 1
    ensures |ReviewedRisks(ReviewById(rs, rs[k].id, now))| == |ReviewedRisks(rs)| + 1
  {
    var id := rs[k].id;
    MapWhereSingle(rs, (r: Risk) => r.id == id, (r: Risk) => ReviewRisk(r, now), k);
    FilterCountUpdate(rs, k, ReviewRisk(rs[k], now), IsActive);
    FilterCountUpdate(rs, k, ReviewRisk(rs[k], now), IsReviewed);
  }

  /** Snoozing the (unique) active risk with `id`: one risk fewer is active and
      the reviewed count is unchanged. */
  lemma {:induction false} SnoozeActiveCounts(rs: seq<Risk>, k: nat, now: int)
    requires k < |rs| && UniqueIds(rs) && rs[k].status == Active
    ensures |ActiveRisks(SnoozeById(rs, rs[k].id, now))| == |ActiveRisks(rs)| - 1
    ensures |ReviewedRisks(SnoozeById(rs, rs[k].id, now))| == |ReviewedRisks(rs)|
  {
    var id := rs[k].id;
    MapWhereSingle(rs, (r: Risk) => r.id == id, (r: Risk) => SnoozeRisk(r, now), k);
    FilterCountUpdate(rs, k, SnoozeRisk(rs[k], now), IsActive);
    FilterCountUpdate(rs, k, SnoozeRisk(rs[k], now), IsReviewed);
  }

  /** The risk the notification's "View Details" and "Snooze 1 Day" buttons act
      on: `activeRisks[0]`, present exactly when some risk is active, and it is
      the first active risk in list order. */
  function NotificationTarget(rs: seq<Risk>): (t: Option<Risk>)
    ensures t.Some? <==> exists i :: 0 <= i < |rs| && rs[i].status == Active
    ensures t.Some? ==> exists k :: 0 <= k < |rs| && rs[k] == t.value && rs[k].status == Active
                                    && forall j :: 0 <= j < k ==> rs[j].status != Active
  {
    var active := ActiveRisks(rs);
    if |active| > 0 then
      FilterHead(rs, IsActive);
      Some(active[0])
    else
      None
  }

  /** The three style maps of the page, total over their enumerations. */
  function SeverityPill(s: Severity): string
  {
    match s
    case High => "border-rose-600 text-rose-600"
    case Medium => "border-amber-500 text-amber-600"
    case Low => "border-amber-300 text-amber-700"
  }

  function SeverityIconColor(s: Severity): string
  {
    match s
    case High => "text-rose-600"
    case Medium => "text-amber-500"
    case Low => "text-amber-600"
  }

  function TrendTone(t: Trend): string
  {
    if t == Downward then "text-rose-600" else if t == Upward then "text-amber-600" else "text-foreground"
  }

  /** Each severity and each trend gets its own style. */
  lemma StylesDistinguish(a: Severity, b: Severity, t: Trend, u: Trend)
    ensures a != b ==> SeverityPill(a) != SeverityPill(b) && SeverityIconColor(a) != SeverityIconColor(b)
    ensures t != u ==> TrendTone(t) != TrendTone(u)
  {
  }

  /** The page's state: the risk list and which overlays are open. */
  class RiskDashboard {
    var risks: seq<Risk>
    var showNotification: bool
    var showDetailsModal: bool
    var selectedRisk: Option<Risk>

    /** Risk ids stay unique: the seed ids are 1 to 3 and both updates keep
        every id. */
    ghost predicate Valid()
      reads this
    {
      UniqueIds(risks)
    }

    constructor ()
      ensures Valid()
      ensures risks == SeedRisks
      ensures showNotification && !showDetailsModal && selectedRisk == None
    {
      risks := SeedRisks;
      showNotification := true;
      showDetailsModal := false;
      selectedRisk := None;
    }

    /** handleSnooze: snooze the risk with `id` and close both overlays. */
    method HandleSnooze(id: int, now: int)
      requires Valid()
      modifies this
      ensures Valid()
      ensures risks == SnoozeById(old(risks), id, now)
      ensures !showNotification && !showDetailsModal
      ensures selectedRisk == old(selectedRisk)
    {
      risks := SnoozeById(risks, id, now);
      showNotification := false;
      showDetailsModal := false;
    }

    /** handleReview: mark the risk with `id` as reviewed and close the details
        modal; the notification stays as it was. */
    method HandleReview(id: int, now: int)
      requires Valid()
      modifies this
      ensures Valid()
      ensures risks == ReviewById(old(risks), id, now)
      ensures !showDetailsModal
      ensures showNotification == old(showNotification) && selectedRisk == old(selectedRisk)
    {
      risks := ReviewById(risks, id, now);
      showDetailsModal := false;
    }

    /** handleViewDetails: open the details modal on `r`, close the notification. */
    method HandleViewDetails(r: Risk)
      requires Valid()
      modifies this
      ensures Valid()
      ensures selectedRisk == Some(r) && showDetailsModal && !showNotification
      ensures risks == old(risks)
    {
      selectedRisk := Some(r);
      showDetailsModal := true;
      showNotification := false;
    }

    /** The notification's "Snooze 1 Day" button, which is rendered only while
        the notification is shown and some risk is active: it snoozes the first
        active risk, so with unique ids the active count drops by one. */
    method SnoozeFromNotification(now: int)
      requires Valid() && showNotification && NotificationTarget(risks).Some?
      modifies this
      ensures Valid()
      ensures risks == SnoozeById(old(risks), old(NotificationTarget(risks)).value.id, now)
      ensures |ActiveRisks(risks)| == |ActiveRisks(old(risks))| - 1
      ensures |ReviewedRisks(risks)| == |ReviewedRisks(old(risks))|
      ensures !showNotification && !showDetailsModal && selectedRisk == old(selectedRisk)
    {
      var target := NotificationTarget(risks).value;
      var k :| 0 <= k < |risks| && risks[k] == target && risks[k].status == Active;
      SnoozeActiveCounts(risks, k, now);
      HandleSnooze(target.id, now);
    }

    /** The bell button in the header, rendered only while some risk is
        active, shows or hides the notification. */
    method ToggleNotification()
      requires Valid() && NotificationTarget(risks).Some?
      modifies this
      ensures Valid()
      ensures showNotification == !old(showNotification)
      ensures risks == old(risks) && showDetailsModal == old(showDetailsModal) && selectedRisk == old(selectedRisk)
    {
      showNotification := !showNotification;
    }

    /** The notification's close button, rendered while the notification is
        shown and some risk is active. */
    method DismissNotification()
      requires Valid() && showNotification && NotificationTarget(risks).Some?
      modifies this
      ensures Valid()
      ensures !showNotification
      ensures risks == old(risks) && showDetailsModal == old(showDetailsModal) && selectedRisk == old(selectedRisk)
    {
      showNotification := false;
    }

    /** The details modal's close button, shown while the modal is open on a
        selected risk; the selection is kept. */
    method CloseDetails()
      requires Valid() && showDetailsModal && selectedRisk.Some?
      modifies this
      ensures Valid()
      ensures !showDetailsModal
      ensures risks == old(risks) && showNotification == old(showNotification) && selectedRisk == old(selectedRisk)
    {
      showDetailsModal := false;
    }
  }

  /** On the seed list the notification targets risk 1; reviewing it leaves two
      active risks and one reviewed. */
  lemma SeedReviewFirst(now: int)
    ensures NotificationTarget(SeedRisks) == Some(SeedRisks[0])
    ensures |ActiveRisks(ReviewById(SeedRisks, 1, now))| == 2
    ensures |ReviewedRisks(ReviewById(SeedRisks, 1, now))| == 1
  {
    var s := SeedRisks;
    assert s[1..][1..][1..] == [];
    ReviewActiveCounts(s, 0, now);
    assert |ActiveRisks(s)| == 3;
    assert |ReviewedRisks(s)| == 0;
  }
}

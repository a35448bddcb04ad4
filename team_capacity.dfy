/** The team-capacity tracker: per-member bandwidth, the two aggregate
    metrics (average bandwidth and leave-adjusted capacity, both rounded the
    way `Math.round` does), the colour bands, the chain of popups that walks
    the manager through the assessment, and the list of replacement
    candidates offered when someone is on leave. */
module TeamCapacity {
  import opened Common

  /** A team member; bandwidth is a percentage of occupation. */
  datatype Member = Member(name: string, bandwidth: int, onLeave: bool, leaveDate: string, skills: string)

  const SeedTeam: seq<Member> := [
    Member("Alex Chen", 85, false, "", "Frontend"),
    Member("Maria Garcia", 95, false, "", "Backend"),
    Member("James Wilson", 60, true, "Oct 8–10", "DevOps"),
    Member("Priya Sharma", 78, false, "", "Full Stack"),
    Member("Tom Anderson", 92, false, "", "QA"),
    Member("Lisa Brown", 55, false, "", "Frontend")
  ]

  /** A metric as the page holds it: a whole number, or NaN (what dividing by
      the size of an empty team yields). */
  datatype Metric = Value(v: int) | NaN

  // ---------------------------------------------------------------------
  // Rounding and the aggregate metrics
  // ---------------------------------------------------------------------

  /** `Math.round(num / den)`: the nearest whole number, halves rounded up. */
  function RoundHalfUp(num: int, den: int): (r: int)
    requires den > 0
    ensures 2 * den * r <= 2 * num + den < 2 * den * r + 2 * den
  {
    (2 * num + den) / (2 * den)
  }

  /** `z * x <= z * y` for a positive factor. */
  lemma MulMonotone(z: int, x: int, y: int)
    requires z > 0 && x <= y
    ensures z * x <= z * y
  {
  }

  /** Rounding a value over 2n is at most rounding a value over n when the
      first numerator is at most twice the second. */
  lemma RoundHalvedAtMost(a: int, b: int, n: int)
    requires n > 0 && a <= 2 * b
    ensures RoundHalfUp(a, 2 * n) <= RoundHalfUp(b, n)
  {
    var ra, rb := RoundHalfUp(a, 2 * n), RoundHalfUp(b, n);
    assert 2 * (2 * n) * ra <= 2 * a + 2 * n;
    assert 2 * b + n < 2 * n * rb + 2 * n;
    if ra > rb {
      MulMonotone(4 * n, rb + 1, ra);
      assert false;
    }
  }

  /** Sum of all bandwidths. */
  function TotalBandwidth(team: seq<Member>): int
    decreases |team|
  {
    if team == [] then 0 else team[0].bandwidth + TotalBandwidth(team[1..])
  }

  /** Sum of bandwidths with members on leave counted at half, in halves:
      a member on leave adds `bandwidth`, anyone else `2 * bandwidth`. */
  function AdjustedHalves(team: seq<Member>): int
    decreases |team|
  {
    if team == [] then 0
    else (if team[0].onLeave then team[0].bandwidth else 2 * team[0].bandwidth) + AdjustedHalves(team[1..])
  }

  /** Average bandwidth: the mean of the members' bandwidths, rounded half-up;
      NaN for an empty team. */
  function AverageBandwidth(team: seq<Member>): (m: Metric)
    ensures m.NaN? <==> team == []
    ensures m.Value? ==> 2 * |team| * m.v <= 2 * TotalBandwidth(team) + |team| < 2 * |team| * m.v + 2 * |team|
  {
    if team == [] then NaN else Value(RoundHalfUp(TotalBandwidth(team), |team|))
  }

  /** Adjusted capacity: the mean with members on leave at half their
      bandwidth, rounded half-up; NaN for an empty team. */
  function AdjustedCapacity(team: seq<Member>): (m: Metric)
    ensures m.NaN? <==> team == []
    ensures m.Value? ==> 4 * |team| * m.v <= 2 * AdjustedHalves(team) + 2 * |team| < 4 * |team| * m.v + 4 * |team|
  {
    if team == [] then NaN else Value(RoundHalfUp(AdjustedHalves(team), 2 * |team|))
  }

  /** Counting leave at half never adds capacity when bandwidths are not
      negative: the halved sum is at most twice the plain sum. */
  lemma {:induction false} AdjustedHalvesBound(team: seq<Member>)
    requires forall i :: 0 <= i < |team| ==> team[i].bandwidth >= 0
    ensures AdjustedHalves(team) <= 2 * TotalBandwidth(team)
    decreases |team|
  {
    if team != [] {
      AdjustedHalvesBound(team[1..]);
    }
  }

  /** Adjusted capacity never exceeds average bandwidth. */
  lemma AdjustedNeverExceedsAverage(team: seq<Member>)
    requires forall i :: 0 <= i < |team| ==> team[i].bandwidth >= 0
    ensures AdjustedCapacity(team).Value? <==> AverageBandwidth(team).Value?
    ensures AdjustedCapacity(team).Value? ==> AdjustedCapacity(team).v <= AverageBandwidth(team).v
  {
    if team != [] {
      AdjustedHalvesBound(team);
      var n := |team|;
      RoundHalvedAtMost(AdjustedHalves(team), TotalBandwidth(team), n);
    }
  }

  /** On the seed team the average is 78 (from 77.5) and the adjusted capacity
      is 73 (from 72.5). */
  lemma SeedMetrics()
    ensures TotalBandwidth(SeedTeam) == 465 && AdjustedHalves(SeedTeam) == 870
    ensures AverageBandwidth(SeedTeam) == Value(78)
    ensures AdjustedCapacity(SeedTeam) == Value(73)
  {
    var t := SeedTeam;
    assert t[1..][1..][1..][1..][1..][1..] == [];
  }

  // ---------------------------------------------------------------------
  // Colour bands
  // ---------------------------------------------------------------------

  datatype Tone = Red | Amber | Green

  /** The band shared by barColor, textColor and dotIcon: on leave or above 90
      is red, 75 and above amber, anything lower green. */
  function Band(bandwidth: int, onLeave: bool): (t: Tone)
    ensures t == Red <==> onLeave || bandwidth > 90
    ensures t == Amber <==> !onLeave && 75 <= bandwidth <= 90
    ensures t == Green <==> !onLeave && bandwidth < 75
  {
    if onLeave || bandwidth > 90 then Red
    else if bandwidth >= 75 then Amber
    else Green
  }

  /** The bar, text and dot styles, each picked by the band. */
  function BarColor(t: Tone): string
  {
    match t
    case Red => "bg-rose-600"
    case Amber => "bg-amber-500"
    case Green => "bg-emerald-600"
  }

  function TextColor(t: Tone): string
  {
    match t
    case Red => "text-rose-600"
    case Amber => "text-amber-600"
    case Green => "text-emerald-600"
  }

  function DotIcon(t: Tone): string
  {
    match t
    case Red => "\U{1F534}"
    case Amber => "\U{1F7E1}"
    case Green => "\U{1F7E2}"
  }

  /** The three styles agree: two members get the same bar colour exactly
      when they get the same text colour and the same dot. */
  lemma StylesAgree(a: Tone, b: Tone)
    ensures BarColor(a) == BarColor(b) <==> a == b
    ensures TextColor(a) == TextColor(b) <==> a == b
    ensures DotIcon(a) == DotIcon(b) <==> a == b
  {
  }

  /** The tone of the two capacity meters, which colour a metric with
      `textColor` and `barColor` and the default `onLeave = false`. A NaN
      metric fails every comparison, so an empty team's meters show green. */
  function MeterTone(m: Metric): (t: Tone)
    ensures t == Red <==> m.Value? && m.v > 90
    ensures t == Amber <==> m.Value? && 75 <= m.v <= 90
    ensures t == Green <==> m.NaN? || m.v < 75
  {
    if m.NaN? then Green else Band(m.v, false)
  }

  /** The variant of the "bandwidth check" popup. */
  datatype BandwidthVariant = Underutilized | Balanced | NearingOverload

  /** Below 70 underutilised, 70 to 90 balanced, above 90 overload. A NaN
      average fails both comparisons and lands on overload. */
  function BandwidthCheck(avg: Metric): (b: BandwidthVariant)
    ensures b == Underutilized <==> avg.Value? && avg.v < 70
    ensures b == Balanced <==> avg.Value? && 70 <= avg.v <= 90
    ensures b == NearingOverload <==> avg.NaN? || avg.v > 90
  {
    if avg.Value? && avg.v < 70 then Underutilized
    else if avg.Value? && avg.v <= 90 then Balanced
    else NearingOverload
  }

  /** The variant of the "capacity assessment" popup. */
  datatype AssessmentVariant = DeliveryRisk | SlightlyConstrained | Optimal

  /** Below 80 a delivery risk, 80 to 95 constrained, above 95 optimal. */
  function CapacityAssessment(adjusted: Metric): (a: AssessmentVariant)
    ensures a == DeliveryRisk <==> adjusted.Value? && adjusted.v < 80
    ensures a == SlightlyConstrained <==> adjusted.Value? && 80 <= adjusted.v <= 95
    ensures a == Optimal <==> adjusted.NaN? || adjusted.v > 95
  {
    if adjusted.Value? && adjusted.v < 80 then DeliveryRisk
    else if adjusted.Value? && adjusted.v <= 95 then SlightlyConstrained
    else Optimal
  }

  /** On the seed team the check reads "balanced" and the assessment
      "delivery risk". */
  lemma SeedBands()
    ensures BandwidthCheck(AverageBandwidth(SeedTeam)) == Balanced
    ensures CapacityAssessment(AdjustedCapacity(SeedTeam)) == DeliveryRisk
  {
    SeedMetrics();
  }

  // ---------------------------------------------------------------------
  // Team status counts and replacement candidates
  // ---------------------------------------------------------------------

  predicate IsOnLeave(m: Member) { m.onLeave }
  predicate IsAvailable(m: Member) { !m.onLeave && m.bandwidth < 75 }
  predicate IsEligible(m: Member) { !m.onLeave && m.bandwidth < 85 }

  /** The "N Available" and "N on leave" figures never add up to more than the
      team, and everyone available is also eligible as a replacement. */
  lemma StatusCounts(team: seq<Member>)
    ensures |Filter(team, IsAvailable)| + |Filter(team, IsOnLeave)| <= |team|
    ensures forall i :: 0 <= i < |team| && IsAvailable(team[i]) ==> team[i] in Filter(team, IsEligible)
  {
    FilterDisjointCount(team, IsAvailable, IsOnLeave);
  }

  ghost predicate SortedByBandwidth(s: seq<Member>)
  {
    forall i, j :: 0 <= i < j < |s| ==> s[i].bandwidth <= s[j].bandwidth
  }

  /** A member no heavier than the head of a sorted list can go in front. */
  lemma SortedCons(x: Member, rest: seq<Member>)
    requires SortedByBandwidth(rest)
    requires rest == [] || x.bandwidth <= rest[0].bandwidth
    ensures SortedByBandwidth([x] + rest)
  {
    var r := [x] + rest;
    forall i, j | 0 <= i < j < |r| ensures r[i].bandwidth <= r[j].bandwidth {
      if i == 0 && j > 1 {
        assert rest[0].bandwidth <= rest[j - 1].bandwidth;
      }
    }
  }

  /** Dropping the head of a sorted list leaves it sorted. */
  lemma SortedTail(s: seq<Member>)
    requires SortedByBandwidth(s) && s != []
    ensures SortedByBandwidth(s[1..])
  {
    forall i, j | 0 <= i < j < |s| - 1 ensures s[1..][i].bandwidth <= s[1..][j].bandwidth {
      assert s[1..][i] == s[i + 1] && s[1..][j] == s[j + 1];
    }
  }

  /** Insert `m` into a list sorted by bandwidth, after every member with the
      same or lower bandwidth (so equal bandwidths keep their order). */
  function Insert(m: Member, s: seq<Member>): (r: seq<Member>)
    requires SortedByBandwidth(s)
    ensures SortedByBandwidth(r)
    ensures multiset(r) == multiset(s) + multiset{m}
    ensures r[0] == m || (s != [] && r[0] == s[0])
    decreases |s|
  {
    if s == [] then [m]
    else if m.bandwidth < s[0].bandwidth then
      SortedCons(m, s);
      [m] + s
    else
      var rest := Insert(m, s[1..]);
      assert s == [s[0]] + s[1..];
      assert |s| > 1 ==> s[0].bandwidth <= s[1..][0].bandwidth;
      SortedCons(s[0], rest);
      [s[0]] + rest
  }

  /** `list.sort((a, b) => a.bandwidth - b.bandwidth)`: a stable sort by
      ascending bandwidth. */
  function SortByBandwidth(s: seq<Member>): (r: seq<Member>)
    ensures SortedByBandwidth(r)
    ensures multiset(r) == multiset(s)
    decreases |s|
  {
    if s == [] then []
    else
      assert s == [s[0]] + s[1..];
      // inserting from the back keeps earlier members ahead of later equals
      var sorted := SortByBandwidth(s[..|s| - 1]);
      assert s == s[..|s| - 1] + [s[|s| - 1]];
      Insert(s[|s| - 1], sorted)
  }

  /** The members of `s` with bandwidth `b`, in list order. */
  function HasBandwidth(b: int): Member -> bool
  {
    (m: Member) => m.bandwidth == b
  }

  function WithBandwidth(s: seq<Member>, b: int): seq<Member>
  {
    Filter(s, HasBandwidth(b))
  }

  /** A list whose members are all heavier than `b` has none of bandwidth `b`. */
  lemma {:induction false} NoneWithBandwidth(s: seq<Member>, b: int)
    requires forall i :: 0 <= i < |s| ==> s[i].bandwidth > b
    ensures WithBandwidth(s, b) == []
    decreases |s|
  {
    if s != [] {
      NoneWithBandwidth(s[1..], b);
    }
  }

  /** Filtering a list with one more member at the front. */
  lemma WithBandwidthCons(x: Member, rest: seq<Member>, b: int)
    ensures WithBandwidth([x] + rest, b) == (if x.bandwidth == b then [x] else []) + WithBandwidth(rest, b)
  {
    assert ([x] + rest)[1..] == rest;
  }

  /** Putting the same member in front of two lists keeps an equation between
      their filtered forms. */
  lemma WithBandwidthConsBoth(x: Member, a: seq<Member>, c: seq<Member>, b: int, tail: seq<Member>)
    requires WithBandwidth(a, b) == WithBandwidth(c, b) + tail
    ensures WithBandwidth([x] + a, b) == WithBandwidth([x] + c, b) + tail
  {
    WithBandwidthCons(x, a, b);
    WithBandwidthCons(x, c, b);
  }

  /** A member lighter than every member of a sorted list is the last of its
      bandwidth when put in front. */
  lemma InsertInFront(m: Member, s: seq<Member>, b: int)
    requires SortedByBandwidth(s) && s != [] && m.bandwidth < s[0].bandwidth
    ensures WithBandwidth([m] + s, b) == WithBandwidth(s, b) + (if m.bandwidth == b then [m] else [])
  {
    WithBandwidthCons(m, s, b);
    if m.bandwidth == b {
      NoneWithBandwidth(s, b);
    }
  }

  /** Inserting `m` puts it after every member of its own bandwidth. */
  lemma {:induction false} InsertStable(m: Member, s: seq<Member>, b: int)
    requires SortedByBandwidth(s)
    ensures WithBandwidth(Insert(m, s), b) == WithBandwidth(s, b) + (if m.bandwidth == b then [m] else [])
    decreases |s|
  {
    if s == [] {
      WithBandwidthCons(m, [], b);
    } else if m.bandwidth < s[0].bandwidth {
      assert Insert(m, s) == [m] + s;
      InsertInFront(m, s, b);
    } else {
      SortedTail(s);
      var rest := Insert(m, s[1..]);
      assert Insert(m, s) == [s[0]] + rest;
      InsertStable(m, s[1..], b);
      WithBandwidthConsBoth(s[0], rest, s[1..], b, if m.bandwidth == b then [m] else []);
      assert [s[0]] + s[1..] == s;
    }
  }

  /** Filtering a list with one more member at the back. */
  lemma WithBandwidthSnoc(init: seq<Member>, last: Member, b: int)
    ensures WithBandwidth(init + [last], b) == WithBandwidth(init, b) + (if last.bandwidth == b then [last] else [])
  {
    FilterAppend(init, [last], HasBandwidth(b));
    assert [last][1..] == [];
  }

  /** The sort is stable: for every bandwidth, the members carrying it come
      out in the order they went in. */
  lemma {:induction false} SortByBandwidthStable(s: seq<Member>, b: int)
    ensures WithBandwidth(SortByBandwidth(s), b) == WithBandwidth(s, b)
    decreases |s|
  {
    if s != [] {
      var init, last := s[..|s| - 1], s[|s| - 1];
      assert s == init + [last];
      SortByBandwidthStable(init, b);
      InsertStable(last, SortByBandwidth(init), b);
      WithBandwidthSnoc(init, last, b);
    }
  }

  /** Two lists with the same multiset have the same length and the same
      members. */
  lemma PermutationKeepsMembers(a: seq<Member>, b: seq<Member>)
    requires multiset(a) == multiset(b)
    ensures |a| == |b|
    ensures forall i :: 0 <= i < |a| ==> a[i] in b
  {
    assert |a| == |multiset(a)| == |multiset(b)| == |b|;
    forall i | 0 <= i < |a| ensures a[i] in b {
      assert a[i] in multiset(a);
    }
  }

  /** A prefix of a permutation of `t` takes no element more often than `t`
      has it. */
  lemma PrefixSubMultiset(s: seq<Member>, t: seq<Member>, n: nat)
    requires n <= |s| && multiset(s) == multiset(t)
    ensures multiset(s[..n]) <= multiset(t)
  {
    assert s == s[..n] + s[n..];
  }

  /** The first `n` entries of a sorted permutation of the eligible members
      are sorted eligible members of the team. */
  lemma SortedPrefixOfEligible(team: seq<Member>, sorted: seq<Member>, n: nat)
    requires SortedByBandwidth(sorted) && multiset(sorted) == multiset(Filter(team, IsEligible))
    requires n <= |sorted|
    ensures SortedByBandwidth(sorted[..n])
    ensures forall i :: 0 <= i < n ==> sorted[..n][i] in team && IsEligible(sorted[..n][i])
  {
    PermutationKeepsMembers(sorted, Filter(team, IsEligible));
  }

  /** The replacement buttons: members not on leave and below 85%, lowest
      bandwidth first, at most three. */
  function ReplacementCandidates(team: seq<Member>): (r: seq<Member>)
    ensures |r| <= 3
    ensures forall i :: 0 <= i < |r| ==> r[i] in team && IsEligible(r[i])
    ensures SortedByBandwidth(r)
    ensures |r| == if |Filter(team, IsEligible)| < 3 then |Filter(team, IsEligible)| else 3
  {
    var eligible := Filter(team, IsEligible);
    var sorted := SortByBandwidth(eligible);
    var n := if |sorted| < 3 then |sorted| else 3;
    SortedPrefixOfEligible(team, sorted, n);
    sorted[..n]
  }

  /** The candidates are the first entries of the sorted eligible list, so
      none is offered twice unless the team lists it twice. */
  lemma CandidatesPrefix(team: seq<Member>)
    ensures ReplacementCandidates(team) <= SortByBandwidth(Filter(team, IsEligible))
    ensures multiset(ReplacementCandidates(team)) <= multiset(Filter(team, IsEligible))
  {
    var eligible := Filter(team, IsEligible);
    var r := ReplacementCandidates(team);
    PrefixSubMultiset(SortByBandwidth(eligible), eligible, |r|);
  }

  /** The candidates are the least loaded eligible members: an eligible member
      who is less loaded than some candidate is a candidate too. */
  lemma CandidatesAreLeastLoaded(team: seq<Member>, m: Member, c: Member)
    requires m in Filter(team, IsEligible)
    requires c in ReplacementCandidates(team) && m.bandwidth < c.bandwidth
    ensures m in ReplacementCandidates(team)
  {
    var eligible := Filter(team, IsEligible);
    var sorted := SortByBandwidth(eligible);
    assert |sorted| == |multiset(sorted)| == |multiset(eligible)| == |eligible|;
    var n := if |sorted| < 3 then |sorted| else 3;
    assert ReplacementCandidates(team) == sorted[..n];
    var i :| 0 <= i < n && sorted[i] == c;
    assert m in multiset(sorted);
    var j :| 0 <= j < |sorted| && sorted[j] == m;
    assert sorted[..n][j] == m;
  }

  /** On the seed team the candidates are Lisa (55), Priya (78) and nobody
      else: Alex sits at 85, Maria and Tom are above it, James is on leave. */
  lemma SeedCandidates()
    ensures |ReplacementCandidates(SeedTeam)| == 2
  {
    var t := SeedTeam;
    assert t[6..] == [];
    assert Filter(t[5..], IsEligible) == [t[5]];
    assert Filter(t[4..], IsEligible) == [t[5]];
    assert Filter(t[3..], IsEligible) == [t[3], t[5]];
    assert Filter(t[2..], IsEligible) == [t[3], t[5]];
    assert Filter(t[1..], IsEligible) == [t[3], t[5]];
    assert |Filter(t, IsEligible)| == 2;
  }

  // ---------------------------------------------------------------------
  // The popup chain
  // ---------------------------------------------------------------------

  datatype CapacityPopup = Welcome | BandwidthCheckPopup | LeaveDetected | SelectReplacement | NoLeave | CapacityAssessmentPopup

  predicate AnyOnLeave(team: seq<Member>) { exists i :: 0 <= i < |team| && team[i].onLeave }

  /** closePopup: the welcome popup stays, the bandwidth check moves on to the
      leave report (or to "no leave"), both of those move on to the capacity
      assessment, and any other popup closes. */
  function AfterClose(p: Option<CapacityPopup>, team: seq<Member>): (q: Option<CapacityPopup>)
    ensures p == Some(Welcome) ==> q == p
    ensures p == Some(BandwidthCheckPopup) ==> q == if AnyOnLeave(team) then Some(LeaveDetected) else Some(NoLeave)
    ensures p == Some(LeaveDetected) || p == Some(NoLeave) ==> q == Some(CapacityAssessmentPopup)
    ensures p !in {Some(Welcome), Some(BandwidthCheckPopup), Some(LeaveDetected), Some(NoLeave)} ==> q == None
  {
    match p
    case Some(Welcome) => p
    case Some(BandwidthCheckPopup) =>
      if exists i :: 0 <= i < |team| && team[i].onLeave then Some(LeaveDetected) else Some(NoLeave)
    case Some(LeaveDetected) => Some(CapacityAssessmentPopup)
    case Some(NoLeave) => Some(CapacityAssessmentPopup)
    case _ => None
  }

  /** Closing three times from the bandwidth check always passes through the
      capacity assessment and ends with no popup. */
  lemma CloseChainEnds(team: seq<Member>)
    ensures AfterClose(AfterClose(Some(BandwidthCheckPopup), team), team) == Some(CapacityAssessmentPopup)
    ensures AfterClose(AfterClose(AfterClose(Some(BandwidthCheckPopup), team), team), team) == None
  {
  }

  datatype Step = Loading | Dashboard

  /** The page's state. */
  class CapacityTracker {
    var step: Step
    var showPopup: Option<CapacityPopup>
    var teamData: seq<Member>
    var avgBandwidth: Metric
    var adjustedCapacity: Metric

    /** Once the dashboard shows, both metrics are those of the team data. */
    ghost predicate Valid()
      reads this
    {
      step == Dashboard ==>
        avgBandwidth == AverageBandwidth(teamData) && adjustedCapacity == AdjustedCapacity(teamData)
    }

    /** Mounting: empty data, zero metrics, and the mount effect shows the
        welcome popup. */
    constructor ()
      ensures Valid()
      ensures step == Loading && showPopup == Some(Welcome) && teamData == []
      ensures avgBandwidth == Value(0) && adjustedCapacity == Value(0)
    {
      step := Loading;
      showPopup := Some(Welcome);
      teamData := [];
      avgBandwidth := Value(0);
      adjustedCapacity := Value(0);
    }

    /** calculateMetrics(data). */
    method CalculateMetrics(data: seq<Member>)
      modifies this
      ensures avgBandwidth == AverageBandwidth(data) && adjustedCapacity == AdjustedCapacity(data)
      ensures step == old(step) && showPopup == old(showPopup) && teamData == old(teamData)
    {
      avgBandwidth := AverageBandwidth(data);
      adjustedCapacity := AdjustedCapacity(data);
    }

    /** The loading timer's callback: load the seed team, compute the metrics,
        show the dashboard and the bandwidth check. */
    method LoadingTimerFires()
      modifies this
      ensures Valid()
      ensures teamData == SeedTeam && step == Dashboard && showPopup == Some(BandwidthCheckPopup)
      ensures avgBandwidth == Value(78) && adjustedCapacity == Value(73)
    {
      teamData := SeedTeam;
      CalculateMetrics(SeedTeam);
      step := Dashboard;
      showPopup := Some(BandwidthCheckPopup);
      SeedMetrics();
    }

    /** closePopup. */
    method ClosePopup()
      requires Valid()
      modifies this
      ensures Valid()
      ensures showPopup == AfterClose(old(showPopup), teamData)
      ensures step == old(step) && teamData == old(teamData)
      ensures avgBandwidth == old(avgBandwidth) && adjustedCapacity == old(adjustedCapacity)
    {
      showPopup := AfterClose(showPopup, teamData);
    }

    /** handleAlert: every quick action closes the popup (its toast is not
        modelled). */
    method HandleAlert()
      requires Valid()
      modifies this
      ensures Valid() && showPopup == None
      ensures step == old(step) && teamData == old(teamData)
      ensures avgBandwidth == old(avgBandwidth) && adjustedCapacity == old(adjustedCapacity)
    {
      showPopup := None;
    }

    /** "Adjust Capacity" on the leave report opens the replacement chooser. */
    method AdjustCapacity()
      requires Valid()
      modifies this
      ensures Valid() && showPopup == Some(SelectReplacement)
      ensures step == old(step) && teamData == old(teamData)
      ensures avgBandwidth == old(avgBandwidth) && adjustedCapacity == old(adjustedCapacity)
    {
      showPopup := Some(SelectReplacement);
    }

    /** Choosing a replacement candidate: the toast closes the popup, the
        metrics are recomputed on the unchanged team (so they do not move),
        and the closePopup that follows sees the chooser, so the popup stays
        closed. */
    method ChooseReplacement(choice: nat)
      requires Valid() && step == Dashboard
      requires showPopup == Some(SelectReplacement) && choice < |ReplacementCandidates(teamData)|
      modifies this
      ensures Valid() && showPopup == None
      ensures avgBandwidth == old(avgBandwidth) && adjustedCapacity == old(adjustedCapacity)
      ensures step == old(step) && teamData == old(teamData)
    {
      var seen := showPopup;
      showPopup := None;
      CalculateMetrics(teamData);
      showPopup := AfterClose(seen, teamData);
    }

    /** The "Run Assessment" button opens the capacity assessment popup. */
    method RunAssessment()
      requires Valid()
      modifies this
      ensures Valid() && showPopup == Some(CapacityAssessmentPopup)
      ensures step == old(step) && teamData == old(teamData)
      ensures avgBandwidth == old(avgBandwidth) && adjustedCapacity == old(adjustedCapacity)
    {
      showPopup := Some(CapacityAssessmentPopup);
    }
  }
}

/** The agile delivery tracker: task completion and a delivery countdown that
    drive a chain of guided popups. A popup is chosen automatically by an
    effect whenever none is shown; each automatic popup can be dismissed, and
    the progress and countdown controls re-arm the dismissed popup of the band
    they move into. The effects are modelled as the step that follows every
    handler (RunEffects), the delayed release-success popup as a later step. */
module DeliveryTracker {
  import opened Common

  datatype Popup =
    | NoPopup | NoSprint | BehindVelocity | VelocityReport | MidSprint
    | ReadinessCheck | ReadinessResult | AllComplete | ReleaseChecklist
    | ReleaseSuccess | DeadlineMissed | EscalationReport

  /** Which automatic popups the manager has dismissed. */
  datatype Dismissed = Dismissed(
    behindVelocity: bool, midSprint: bool, readinessCheck: bool,
    allComplete: bool, deadlineMissed: bool)

  const NoneDismissed: Dismissed := Dismissed(false, false, false, false, false)

  datatype Checklist = Checklist(qaSignoff: bool, stakeholder: bool, deployment: bool)
  datatype ChecklistItem = QaSignoff | Stakeholder | Deployment

  /** The fixed result of the readiness check. */
  datatype ReadinessReport = ReadinessReport(codeMerged: bool, qaPassed: bool, documentation: bool)

  predicate AllChecked(c: Checklist) { c.qaSignoff && c.stakeholder && c.deployment }

  function WithItem(c: Checklist, item: ChecklistItem, checked: bool): (r: Checklist)
    ensures item == QaSignoff ==> r == c.(qaSignoff := checked)
    ensures item == Stakeholder ==> r == c.(stakeholder := checked)
    ensures item == Deployment ==> r == c.(deployment := checked)
  {
    match item
    case QaSignoff => c.(qaSignoff := checked)
    case Stakeholder => c.(stakeholder := checked)
    case Deployment => c.(deployment := checked)
  }

  // ------------------------------------------------- automatic popup choice

  /** The five guards of the automatic choice, each including its dismissal. */
  predicate DeadlineDue(c: int, days: int, hours: int, d: Dismissed)
  {
    days == 0 && hours == 0 && c < 100 && !d.deadlineMissed
  }

  predicate AllCompleteDue(c: int, days: int, d: Dismissed, releaseInProgress: bool)
  {
    c == 100 && days > 0 && !d.allComplete && !releaseInProgress
  }

  predicate ReadinessDue(c: int, days: int, d: Dismissed)
  {
    80 <= c < 100 && days <= 3 && !d.readinessCheck
  }

  predicate MidSprintDue(c: int, d: Dismissed)
  {
    50 <= c < 80 && !d.midSprint
  }

  predicate BehindDue(c: int, d: Dismissed)
  {
    c < 50 && !d.behindVelocity
  }

  /** The popup the effect picks when none is shown. The missed deadline
      comes first; the other four guards never hold together (they need
      disjoint completion ranges), so each of them wins exactly when it holds
      and the deadline is not due, and nothing is picked when no guard holds. */
  function AutoPopup(c: int, days: int, hours: int, d: Dismissed, releaseInProgress: bool): (p: Popup)
    ensures p == DeadlineMissed <==> DeadlineDue(c, days, hours, d)
    ensures p == AllComplete <==> !DeadlineDue(c, days, hours, d) && AllCompleteDue(c, days, d, releaseInProgress)
    ensures p == ReadinessCheck <==> !DeadlineDue(c, days, hours, d) && ReadinessDue(c, days, d)
    ensures p == MidSprint <==> !DeadlineDue(c, days, hours, d) && MidSprintDue(c, d)
    ensures p == BehindVelocity <==> !DeadlineDue(c, days, hours, d) && BehindDue(c, d)
    ensures p == NoPopup <==>
              && !DeadlineDue(c, days, hours, d) && !AllCompleteDue(c, days, d, releaseInProgress)
              && !ReadinessDue(c, days, d) && !MidSprintDue(c, d) && !BehindDue(c, d)
  {
    if days == 0 && hours == 0 && c < 100 && !d.deadlineMissed then DeadlineMissed
    else if c == 100 && days > 0 && !d.allComplete && !releaseInProgress then AllComplete
    else if c >= 80 && days <= 3 && c < 100 && !d.readinessCheck then ReadinessCheck
    else if c >= 50 && c < 80 && !d.midSprint then MidSprint
    else if c < 50 && !d.behindVelocity then BehindVelocity
    else NoPopup
  }

  /** A dismissed popup is never picked again until something re-arms it, and
      once a release is in progress the all-complete popup never returns. */
  lemma DismissedNeverPicked(c: int, days: int, hours: int, d: Dismissed, releaseInProgress: bool)
    ensures d.deadlineMissed ==> AutoPopup(c, days, hours, d, releaseInProgress) != DeadlineMissed
    ensures d.allComplete || releaseInProgress ==> AutoPopup(c, days, hours, d, releaseInProgress) != AllComplete
    ensures d.readinessCheck ==> AutoPopup(c, days, hours, d, releaseInProgress) != ReadinessCheck
    ensures d.midSprint ==> AutoPopup(c, days, hours, d, releaseInProgress) != MidSprint
    ensures d.behindVelocity ==> AutoPopup(c, days, hours, d, releaseInProgress) != BehindVelocity
  {
  }

  /** The gaps of the chain: a finished sprint past its deadline, and 80-99%
      with more than three days left (or with the check dismissed), show no
      popup at all. */
  lemma QuietStates(hours: int, d: Dismissed, releaseInProgress: bool, c: int, days: int)
    ensures AutoPopup(100, 0, hours, d, releaseInProgress) == NoPopup
    ensures 80 <= c < 100 && days > 3 ==> AutoPopup(c, days, hours, d, releaseInProgress) == NoPopup
  {
  }

  /** One run of the popup effect. Clearing the no-sprint popup and choosing
      a new one do not happen in the same run: the second test still sees the
      popup the run started with. */
  function EffectPass(active: bool, popup: Popup, c: int, days: int, hours: int, d: Dismissed, releaseInProgress: bool): Popup
  {
    if active && popup == NoSprint then NoPopup
    else if active && popup == NoPopup then AutoPopup(c, days, hours, d, releaseInProgress)
    else popup
  }

  /** The popup once the effect has re-run until it changes nothing (it
      re-runs whenever it changed the popup; two runs always suffice). */
  function Settle(active: bool, popup: Popup, c: int, days: int, hours: int, d: Dismissed, releaseInProgress: bool): (p: Popup)
    ensures EffectPass(active, p, c, days, hours, d, releaseInProgress) == p
    ensures !active ==> p == popup
    ensures active && (popup == NoPopup || popup == NoSprint) ==> p == AutoPopup(c, days, hours, d, releaseInProgress)
    ensures popup != NoPopup && popup != NoSprint ==> p == popup
  {
    var once := EffectPass(active, popup, c, days, hours, d, releaseInProgress);
    EffectPass(active, once, c, days, hours, d, releaseInProgress)
  }

  // --------------------------------------------------------------- re-arming

  /** The flags "+ 10% Progress" clears for the completion it reaches. */
  function RearmOnIncrease(newCompletion: int, d: Dismissed): Dismissed
  {
    if 50 <= newCompletion < 80 then d.(midSprint := false)
    else if 80 <= newCompletion < 100 then d.(readinessCheck := false)
    else if newCompletion == 100 then d.(allComplete := false)
    else d
  }

  /** The flags "- 10% Progress" clears for the completion it reaches. */
  function RearmOnDecrease(newCompletion: int, d: Dismissed): Dismissed
  {
    if newCompletion < 50 then d.(behindVelocity := false)
    else if 50 <= newCompletion < 80 then d.(midSprint := false)
    else if 80 <= newCompletion < 100 then d.(readinessCheck := false)
    else d
  }

  /** Re-arming clears exactly the flag of the band the completion lands in
      (a raise below 50% clears none) and leaves the deadline flag alone. */
  lemma RearmClearsOwnBand(c: int, d: Dismissed)
    ensures var up := RearmOnIncrease(c, d);
      && up.deadlineMissed == d.deadlineMissed && up.behindVelocity == d.behindVelocity
      && (50 <= c < 80 ==> !up.midSprint && up.(midSprint := d.midSprint) == d)
      && (80 <= c < 100 ==> !up.readinessCheck && up.(readinessCheck := d.readinessCheck) == d)
      && (c == 100 ==> !up.allComplete && up.(allComplete := d.allComplete) == d)
      && (c < 50 || c > 100 ==> up == d)
    ensures var down := RearmOnDecrease(c, d);
      && down.deadlineMissed == d.deadlineMissed && down.allComplete == d.allComplete
      && (c < 50 ==> !down.behindVelocity && down.(behindVelocity := d.behindVelocity) == d)
      && (50 <= c < 80 ==> !down.midSprint && down.(midSprint := d.midSprint) == d)
      && (80 <= c < 100 ==> !down.readinessCheck && down.(readinessCheck := d.readinessCheck) == d)
      && (c >= 100 ==> down == d)
  {
  }

  /** The flag each closing button sets: the popup's own, the velocity report
      counting as the behind-velocity popup and the readiness result as the
      readiness check. */
  function DismissFlagOf(p: Popup, d: Dismissed): Dismissed
  {
    match p
    case BehindVelocity => d.(behindVelocity := true)
    case VelocityReport => d.(behindVelocity := true)
    case MidSprint => d.(midSprint := true)
    case ReadinessCheck => d.(readinessCheck := true)
    case ReadinessResult => d.(readinessCheck := true)
    case AllComplete => d.(allComplete := true)
    case DeadlineMissed => d.(deadlineMissed := true)
    case _ => d
  }

  /** Closing an automatic popup never brings the same popup back. */
  lemma ClosedPopupStaysClosed(p: Popup, c: int, days: int, hours: int, d: Dismissed, releaseInProgress: bool)
    requires p in {BehindVelocity, MidSprint, ReadinessCheck, AllComplete, DeadlineMissed}
    ensures Settle(true, NoPopup, c, days, hours, DismissFlagOf(p, d), releaseInProgress) != p
  {
    DismissedNeverPicked(c, days, hours, DismissFlagOf(p, d), releaseInProgress);
  }

  /** Closing the escalation report sets no flag, so at the deadline with work
      left and the deadline popup not acknowledged, it comes straight back. */
  lemma EscalationCloseReopensDeadline(c: int, d: Dismissed, releaseInProgress: bool)
    requires c < 100 && !d.deadlineMissed
    ensures Settle(true, NoPopup, c, 0, 0, DismissFlagOf(EscalationReport, d), releaseInProgress) == DeadlineMissed
  {
  }

  // ------------------------------------------------------- page indicators

  /** getProgressColor: rose at the deadline with work left, otherwise amber,
      primary and emerald by completion band. Its grey fallback is never
      reached, since the three bands cover every completion. */
  function ProgressColor(c: int, days: int, hours: int): (color: string)
    ensures color == "bg-rose-600" <==> days == 0 && hours == 0 && c < 100
    ensures color == "bg-amber-500" <==> !(days == 0 && hours == 0) && c < 50
    ensures color == "bg-primary" <==> !(days == 0 && hours == 0) && 50 <= c < 80
    ensures color == "bg-emerald-600" <==> c >= 100 || (!(days == 0 && hours == 0) && c >= 80)
  {
    if days == 0 && hours == 0 && c < 100 then "bg-rose-600"
    else if c < 50 then "bg-amber-500"
    else if c >= 50 && c < 80 then "bg-primary"
    else "bg-emerald-600"
  }

  datatype Readiness = OnTrack | AtRisk | Critical

  /** getReadinessStatus from the velocity slider and the blocker count. */
  function ReadinessOf(velocity: int, blockers: int): (r: Readiness)
    ensures r == OnTrack <==> velocity >= 100 && blockers == 0
    ensures r == AtRisk <==> velocity < 100 && blockers <= 2
    ensures r == Critical <==> (velocity >= 100 && blockers != 0) || (velocity < 100 && blockers > 2)
  {
    if velocity >= 100 && blockers == 0 then OnTrack
    else if velocity < 100 && blockers <= 2 then AtRisk
    else Critical
  }

  /** With one or two blockers a velocity at or above 100% reads Critical while
      a lower velocity reads At Risk: raising velocity can worsen the status. */
  lemma ReadinessNotMonotoneInVelocity(blockers: int)
    requires 1 <= blockers <= 2
    ensures ReadinessOf(99, blockers) == AtRisk
    ensures ReadinessOf(100, blockers) == Critical
  {
  }

  // ------------------------------------------------------------------ state

  /** The tracker page's state. */
  class Tracker {
    var hasActiveSprint: bool
    var completion: int
    var days: int
    var hours: int
    var popup: Popup
    var velocity: int
    var blockers: int
    var checklist: Checklist
    var readinessReport: Option<ReadinessReport>
    var showFireworks: bool
    var showAlertIcon: bool
    var releaseInProgress: bool
    var dismissed: Dismissed
    /** Release-success timers started and not yet fired. */
    var pendingSuccessTimers: nat

    /** Completion stays a percentage, the countdown is never negative, and
      the popup effect has nothing left to do. */
    ghost predicate Valid()
      reads this
    {
      && 0 <= completion <= 100 && days >= 0 && hours >= 0
      && EffectPass(hasActiveSprint, popup, completion, days, hours, dismissed, releaseInProgress) == popup
    }

    /** The sprint is active and the no-sprint popup is not shown. */
    ghost predicate SprintActive()
      reads this
    {
      hasActiveSprint && popup != NoSprint
    }

    function Auto(): Popup
      reads this
    {
      AutoPopup(completion, days, hours, dismissed, releaseInProgress)
    }

    /** The first render and its effects: 35% done, five days and four hours
      left, and the behind-velocity popup up. */
    constructor ()
      ensures Valid() && SprintActive()
      ensures completion == 35 && days == 5 && hours == 4 && velocity == 95 && blockers == 1
      ensures popup == BehindVelocity && dismissed == NoneDismissed
      ensures checklist == Checklist(false, false, false) && !releaseInProgress
      ensures hasActiveSprint && readinessReport == None && !showFireworks && !showAlertIcon
      ensures pendingSuccessTimers == 0
    {
      hasActiveSprint := true;
      completion := 35;
      days := 5;
      hours := 4;
      velocity := 95;
      blockers := 1;
      checklist := Checklist(false, false, false);
      readinessReport := None;
      showFireworks := false;
      showAlertIcon := false;
      releaseInProgress := false;
      dismissed := NoneDismissed;
      pendingSuccessTimers := 0;
      popup := AutoPopup(35, 5, 4, NoneDismissed, false);
    }

    /** The effects after a handler: the no-sprint effect when the sprint flag
      has just turned false, then the popup effect until it is quiet. */
    method RunEffects(activeBefore: bool)
      modifies this`popup
      ensures activeBefore && !hasActiveSprint ==> popup == NoSprint
      ensures !(activeBefore && !hasActiveSprint) ==>
                popup == Settle(hasActiveSprint, old(popup), completion, days, hours, dismissed, releaseInProgress)
      ensures EffectPass(hasActiveSprint, popup, completion, days, hours, dismissed, releaseInProgress) == popup
    {
      if activeBefore && !hasActiveSprint {
        popup := NoSprint;
      } else {
        popup := Settle(hasActiveSprint, popup, completion, days, hours, dismissed, releaseInProgress);
      }
    }

    // -------------------------------------------------- progress controls

    /** "+ 10% Progress": raise completion (capped at 100) and re-arm the
      popup of the band it reaches. */
    method IncreaseProgress()
      requires Valid()
      modifies this
      ensures Valid()
      ensures completion == (if old(completion) + 10 > 100 then 100 else old(completion) + 10)
      ensures dismissed == RearmOnIncrease(completion, old(dismissed))
      ensures popup == Settle(hasActiveSprint, old(popup), completion, days, hours, dismissed, releaseInProgress)
      ensures old(SprintActive()) ==> SprintActive()
      ensures old(popup) == NoPopup && hasActiveSprint && completion == 100 && days > 0 && !releaseInProgress
              ==> popup == AllComplete
      ensures old(popup) == NoPopup && hasActiveSprint && 50 <= completion < 80 && !(days == 0 && hours == 0)
              ==> popup == MidSprint
      ensures old(popup) == NoPopup && hasActiveSprint && 80 <= completion < 100 && days <= 3 && !(days == 0 && hours == 0)
              ==> popup == ReadinessCheck
      ensures unchanged(this`hasActiveSprint, this`days, this`hours, this`velocity, this`blockers, this`checklist)
      ensures unchanged(this`releaseInProgress, this`showFireworks, this`showAlertIcon, this`readinessReport, this`pendingSuccessTimers)
    {
      var newCompletion := if completion + 10 > 100 then 100 else completion + 10;
      completion := newCompletion;
      dismissed := RearmOnIncrease(newCompletion, dismissed);
      RunEffects(hasActiveSprint);
    }

    /** "- 10% Progress": lower completion (floored at 0) and re-arm the popup
      of the band it reaches. */
    method DecreaseProgress()
      requires Valid()
      modifies this
      ensures Valid()
      ensures completion == (if old(completion) - 10 < 0 then 0 else old(completion) - 10)
      ensures dismissed == RearmOnDecrease(completion, old(dismissed))
      ensures popup == Settle(hasActiveSprint, old(popup), completion, days, hours, dismissed, releaseInProgress)
      ensures old(SprintActive()) ==> SprintActive()
      ensures old(popup) == NoPopup && hasActiveSprint && completion < 50 && !(days == 0 && hours == 0)
              ==> popup == BehindVelocity
      ensures unchanged(this`hasActiveSprint, this`days, this`hours, this`velocity, this`blockers, this`checklist)
      ensures unchanged(this`releaseInProgress, this`showFireworks, this`showAlertIcon, this`readinessReport, this`pendingSuccessTimers)
    {
      var newCompletion := if completion - 10 < 0 then 0 else completion - 10;
      completion := newCompletion;
      dismissed := RearmOnDecrease(newCompletion, dismissed);
      RunEffects(hasActiveSprint);
    }

    /** "Set to 100%": complete every task and re-arm the all-complete popup. */
    method SetProgressComplete()
      requires Valid()
      modifies this
      ensures Valid()
      ensures completion == 100 && dismissed == old(dismissed).(allComplete := false)
      ensures popup == Settle(hasActiveSprint, old(popup), completion, days, hours, dismissed, releaseInProgress)
      ensures old(SprintActive()) ==> SprintActive()
      ensures old(popup) == NoPopup && hasActiveSprint && days > 0 && !releaseInProgress ==> popup == AllComplete
      ensures unchanged(this`hasActiveSprint, this`days, this`hours, this`velocity, this`blockers, this`checklist)
      ensures unchanged(this`releaseInProgress, this`showFireworks, this`showAlertIcon, this`readinessReport, this`pendingSuccessTimers)
    {
      completion := 100;
      dismissed := dismissed.(allComplete := false);
      RunEffects(hasActiveSprint);
    }

    /** "- 1 Day": one day less (floored at 0); within three days of delivery
      at 80-99% the readiness check is re-armed. */
    method MinusDay()
      requires Valid()
      modifies this
      ensures Valid()
      ensures days == (if old(days) - 1 < 0 then 0 else old(days) - 1)
      ensures dismissed == (if days <= 3 && 80 <= completion < 100
                            then old(dismissed).(readinessCheck := false) else old(dismissed))
      ensures popup == Settle(hasActiveSprint, old(popup), completion, days, hours, dismissed, releaseInProgress)
      ensures old(SprintActive()) ==> SprintActive()
      ensures unchanged(this`hasActiveSprint, this`completion, this`hours, this`velocity, this`blockers, this`checklist)
      ensures unchanged(this`releaseInProgress, this`showFireworks, this`showAlertIcon, this`readinessReport, this`pendingSuccessTimers)
    {
      var newDays := if days - 1 < 0 then 0 else days - 1;
      days := newDays;
      if newDays <= 3 && completion >= 80 && completion < 100 {
        dismissed := dismissed.(readinessCheck := false);
      }
      RunEffects(hasActiveSprint);
    }

    /** "Set to 2 Days": two days and no hours left; at 80-99% the readiness
      check is re-armed. */
    method SetTwoDays()
      requires Valid()
      modifies this
      ensures Valid()
      ensures days == 2 && hours == 0
      ensures dismissed == (if 80 <= completion < 100 then old(dismissed).(readinessCheck := false) else old(dismissed))
      ensures popup == Settle(hasActiveSprint, old(popup), completion, days, hours, dismissed, releaseInProgress)
      ensures old(SprintActive()) ==> SprintActive()
      ensures old(popup) == NoPopup && hasActiveSprint && 80 <= completion < 100 ==> popup == ReadinessCheck
      ensures unchanged(this`hasActiveSprint, this`completion, this`velocity, this`blockers, this`checklist)
      ensures unchanged(this`releaseInProgress, this`showFireworks, this`showAlertIcon, this`readinessReport, this`pendingSuccessTimers)
    {
      days := 2;
      hours := 0;
      if completion >= 80 && completion < 100 {
        dismissed := dismissed.(readinessCheck := false);
      }
      RunEffects(hasActiveSprint);
    }

    /** "Reach Deadline (0:0)": the countdown runs out; with work left the
      missed-deadline popup is re-armed, and shows if no popup is up. */
    method ReachDeadline()
      requires Valid()
      modifies this
      ensures Valid()
      ensures days == 0 && hours == 0
      ensures dismissed == (if completion < 100 then old(dismissed).(deadlineMissed := false) else old(dismissed))
      ensures popup == Settle(hasActiveSprint, old(popup), completion, days, hours, dismissed, releaseInProgress)
      ensures old(SprintActive()) ==> SprintActive()
      ensures old(popup) == NoPopup && hasActiveSprint && completion < 100 ==> popup == DeadlineMissed
      ensures unchanged(this`hasActiveSprint, this`completion, this`velocity, this`blockers, this`checklist)
      ensures unchanged(this`releaseInProgress, this`showFireworks, this`showAlertIcon, this`readinessReport, this`pendingSuccessTimers)
    {
      days := 0;
      hours := 0;
      if completion < 100 {
        dismissed := dismissed.(deadlineMissed := false);
      }
      RunEffects(hasActiveSprint);
    }

    /** The velocity slider; it feeds only the readiness status. */
    method SetVelocity(v: int)
      requires Valid()
      modifies this`velocity
      ensures Valid() && velocity == v
    {
      velocity := v;
    }

    /** The blocker count input; it feeds only the readiness status. */
    method SetBlockers(b: int)
      requires Valid()
      modifies this`blockers
      ensures Valid() && blockers == b
    {
      blockers := b;
    }

    // ----------------------------------------------------- popup buttons

    /** "Start New Sprint" on the no-sprint popup: a fresh sprint at 35% with
      five days and four hours, every dismissal cleared. The release flag and
      the checklist are not reset. The effect then raises the behind-velocity
      popup. */
    method StartNewSprint()
      requires Valid() && popup == NoSprint
      modifies this
      ensures Valid() && SprintActive() && hasActiveSprint
      ensures completion == 35 && days == 5 && hours == 4 && velocity == 95 && blockers == 1
      ensures dismissed == NoneDismissed && popup == BehindVelocity
      ensures unchanged(this`releaseInProgress, this`checklist, this`showFireworks, this`showAlertIcon)
      ensures unchanged(this`readinessReport, this`pendingSuccessTimers)
    {
      var before := hasActiveSprint;
      hasActiveSprint := true;
      completion := 35;
      days := 5;
      hours := 4;
      popup := NoPopup;
      velocity := 95;
      blockers := 1;
      dismissed := NoneDismissed;
      RunEffects(before);
    }

    /** "Cancel" on the no-sprint popup: the popup closes and the sprint flag
      stays false. The flag did not change, so the no-sprint effect does not
      run again and the page is left with no popup. */
    method CancelNoSprint()
      requires Valid() && popup == NoSprint
      modifies this
      ensures Valid()
      ensures !hasActiveSprint && popup == NoPopup
      ensures unchanged(this`completion, this`days, this`hours, this`dismissed, this`releaseInProgress)
      ensures unchanged(this`velocity, this`blockers, this`checklist, this`showFireworks, this`showAlertIcon)
      ensures unchanged(this`readinessReport, this`pendingSuccessTimers)
    {
      var before := hasActiveSprint;
      popup := NoPopup;
      hasActiveSprint := false;
      RunEffects(before);
    }

    /** A button that opens the next popup of a flow: the velocity report from
      the behind-velocity popup, the release checklist from the all-complete
      popup (marking a release in progress), the readiness result from the
      readiness check (recording its fixed result), the escalation report from
      the missed-deadline popup. */
    method FollowUp()
      requires Valid() && popup in {BehindVelocity, AllComplete, ReadinessCheck, DeadlineMissed}
      modifies this
      ensures Valid() && SprintActive() == old(SprintActive())
      ensures old(popup) == BehindVelocity ==> popup == VelocityReport
      ensures old(popup) == AllComplete ==> popup == ReleaseChecklist && releaseInProgress
      ensures old(popup) != AllComplete ==> releaseInProgress == old(releaseInProgress)
      ensures old(popup) == ReadinessCheck ==> popup == ReadinessResult && readinessReport == Some(ReadinessReport(true, true, false))
      ensures old(popup) != ReadinessCheck ==> readinessReport == old(readinessReport)
      ensures old(popup) == DeadlineMissed ==> popup == EscalationReport
      ensures unchanged(this`hasActiveSprint, this`completion, this`days, this`hours, this`dismissed, this`checklist)
      ensures unchanged(this`showFireworks, this`showAlertIcon, this`pendingSuccessTimers, this`velocity, this`blockers)
    {
      match popup {
        case BehindVelocity =>
          popup := VelocityReport;
        case AllComplete =>
          releaseInProgress := true;
          popup := ReleaseChecklist;
        case ReadinessCheck =>
          readinessReport := Some(ReadinessReport(true, true, false));
          popup := ReadinessResult;
        case DeadlineMissed =>
          popup := EscalationReport;
      }
    }

    /** The closing buttons of the popups: each closes its popup, sets its
      dismissal flag (none for the release-success and escalation popups),
      lowers the fireworks after a release, and raises the documentation
      alert icon from "Ignore" and "Notify Technical Writer" on the readiness
      popups. The readiness check's only way out is "Ignore", so closing it
      always raises the icon; the result's plain "Close" does not. The
      effect may then pick another popup, never the one closed. */
    method ClosePopup(raiseAlertIcon: bool)
      requires Valid()
      requires popup in {BehindVelocity, VelocityReport, MidSprint, ReadinessCheck, ReadinessResult,
                         AllComplete, ReleaseSuccess, DeadlineMissed, EscalationReport}
      requires raiseAlertIcon ==> popup in {ReadinessCheck, ReadinessResult}
      requires popup == ReadinessCheck ==> raiseAlertIcon
      modifies this
      ensures Valid()
      ensures dismissed == DismissFlagOf(old(popup), old(dismissed))
      ensures popup == Settle(hasActiveSprint, NoPopup, completion, days, hours, dismissed, releaseInProgress)
      ensures old(SprintActive()) ==> SprintActive()
      ensures hasActiveSprint && old(popup) in {BehindVelocity, MidSprint, ReadinessCheck, AllComplete, DeadlineMissed}
              ==> popup != old(popup)
      ensures showFireworks == (if old(popup) == ReleaseSuccess then false else old(showFireworks))
      ensures showAlertIcon == (old(showAlertIcon) || raiseAlertIcon)
      ensures unchanged(this`hasActiveSprint, this`completion, this`days, this`hours, this`releaseInProgress)
      ensures unchanged(this`checklist, this`readinessReport, this`pendingSuccessTimers, this`velocity, this`blockers)
    {
      var closing := popup;
      if closing == ReleaseSuccess {
        showFireworks := false;
      }
      if raiseAlertIcon {
        showAlertIcon := true;
      }
      dismissed := DismissFlagOf(closing, dismissed);
      popup := NoPopup;
      RunEffects(hasActiveSprint);
      if hasActiveSprint && closing in {BehindVelocity, MidSprint, ReadinessCheck, AllComplete, DeadlineMissed} {
        ClosedPopupStaysClosed(closing, completion, days, hours, old(dismissed), releaseInProgress);
      }
    }

    /** A checkbox of the release checklist. */
    method SetChecklistItem(item: ChecklistItem, checked: bool)
      requires Valid()
      modifies this`checklist
      ensures Valid() && checklist == WithItem(old(checklist), item, checked)
    {
      checklist := WithItem(checklist, item, checked);
    }

    /** completeRelease: nothing unless all three items are checked; then the
      popup closes, fireworks start and the success popup is scheduled. */
    method CompleteRelease()
      requires Valid()
      modifies this
      ensures Valid()
      ensures !AllChecked(checklist) ==>
                && popup == old(popup) && showFireworks == old(showFireworks)
                && pendingSuccessTimers == old(pendingSuccessTimers)
      ensures AllChecked(checklist) ==>
                && showFireworks && pendingSuccessTimers == old(pendingSuccessTimers) + 1
                && popup == Settle(hasActiveSprint, NoPopup, completion, days, hours, dismissed, releaseInProgress)
      ensures old(SprintActive()) ==> SprintActive()
      ensures unchanged(this`hasActiveSprint, this`completion, this`days, this`hours, this`dismissed)
      ensures unchanged(this`releaseInProgress, this`checklist, this`showAlertIcon, this`readinessReport)
      ensures unchanged(this`velocity, this`blockers)
    {
      if AllChecked(checklist) {
        popup := NoPopup;
        showFireworks := true;
        pendingSuccessTimers := pendingSuccessTimers + 1;
        RunEffects(hasActiveSprint);
      }
    }

    /** The scheduled success popup appears, over whatever is shown. */
    method ReleaseSuccessTimerFires()
      requires Valid() && pendingSuccessTimers > 0
      modifies this
      ensures Valid()
      ensures popup == ReleaseSuccess && pendingSuccessTimers == old(pendingSuccessTimers) - 1
      ensures old(SprintActive()) ==> SprintActive()
      ensures unchanged(this`hasActiveSprint, this`completion, this`days, this`hours, this`dismissed)
      ensures unchanged(this`releaseInProgress, this`checklist, this`showFireworks, this`showAlertIcon)
      ensures unchanged(this`velocity, this`blockers, this`readinessReport)
    {
      popup := ReleaseSuccess;
      pendingSuccessTimers := pendingSuccessTimers - 1;
    }
  }

  /** Once a release has been started, no later sprint offers the
      all-complete popup again: starting a new sprint keeps the release flag,
      and the automatic choice never picks all-complete while it is set. */
  lemma ReleaseBlocksLaterAllComplete(c: int, days: int, hours: int, d: Dismissed)
    ensures AutoPopup(c, days, hours, d, true) != AllComplete
    ensures Settle(true, NoPopup, c, days, hours, d, true) != AllComplete
  {
    DismissedNeverPicked(c, days, hours, d, true);
  }
}

/** Ways through the transition table: what must have happened before a state is reached, and
    where a session stays for good. */
module SessionPaths {
  import opened SessionMachine
  import opened Wrappers

  datatype Firing = Firing(event: Event, ctx: Context)

  /** The state after a series of events; a refused event changes nothing. */
  function Follow(state: State, firings: seq<Firing>): State
    decreases |firings|
  {
    if firings == [] then state
    else
      var before := Follow(state, firings[..|firings| - 1]);
      var last := firings[|firings| - 1];
      var t := Transit(before, last.event, last.ctx);
      if t.Moved? then t.state else before
  }

  /** The states a session can only be in once it was ready to start, failures and cancellations aside. */
  predicate Beyond(s: State) {
    s.READY_TO_START? || InProgress(s) || s.PROCESSING? || s.REPORT_READY? || s.EXPIRED?
  }

  /** The event took effect in this state at some point. */
  ghost predicate Happened(firings: seq<Firing>, event: Event, at: State) {
    exists i :: 0 <= i < |firings| && firings[i].event == event && Follow(DRAFT, firings[..i]) == at
  }

  lemma HappenedBefore(firings: seq<Firing>, event: Event, at: State)
    requires |firings| > 0
    ensures var n := |firings| - 1;
            Happened(firings[..n], event, at) || (firings[n].event == event && Follow(DRAFT, firings[..n]) == at) ==>
            Happened(firings, event, at)
  {
    var n := |firings| - 1;
    if Happened(firings[..n], event, at) {
      var i :| 0 <= i < n && firings[..n][i].event == event && Follow(DRAFT, firings[..n][..i]) == at;
      assert firings[..n][..i] == firings[..i];
    }
  }

  /** A session that needs consent is never ready to start, nor anything after that, before consent
      was accepted. */
  lemma {:induction false} ConsentComesFirst(firings: seq<Firing>)
    requires forall f <- firings :: f.ctx.needsConsent
    ensures Beyond(Follow(DRAFT, firings)) ==> Happened(firings, CONSENT_ACCEPTED, CONSENT_REQUIRED)
    decreases |firings|
  {
    if |firings| > 0 {
      assert firings[|firings| - 1].ctx.needsConsent;
      ConsentComesFirst(firings[..|firings| - 1]);
      HappenedBefore(firings, CONSENT_ACCEPTED, CONSENT_REQUIRED);
    }
  }

  /** Nor before its devices were checked, which comes before the consent. */
  lemma {:induction false} DeviceCheckComesFirst(firings: seq<Firing>)
    requires forall f <- firings :: f.ctx.needsDeviceCheck
    ensures Beyond(Follow(DRAFT, firings)) || Follow(DRAFT, firings).CONSENT_REQUIRED? ==>
              Happened(firings, DEVICE_CHECK_PASSED, DEVICE_CHECK)
    decreases |firings|
  {
    if |firings| > 0 {
      assert firings[|firings| - 1].ctx.needsDeviceCheck;
      DeviceCheckComesFirst(firings[..|firings| - 1]);
      HappenedBefore(firings, DEVICE_CHECK_PASSED, DEVICE_CHECK);
    }
  }

  lemma LastStep(firings: seq<Firing>)
    requires |firings| > 0
    ensures var n := |firings| - 1;
            var before := Follow(DRAFT, firings[..n]);
            var t := Transit(before, firings[n].event, firings[n].ctx);
            Follow(DRAFT, firings) == if t.Moved? then t.state else before
  {
  }

  /** The ways into the states at and after the end. */
  lemma WaysIn(s: State, event: Event, ctx: Context)
    requires Transit(s, event, ctx).Moved?
    ensures var to := Transit(s, event, ctx).state;
            && (to.REPORT_READY? ==> event.EVALUATION_COMPLETED? && s.PROCESSING?)
            && (to.PROCESSING? ==> (event.FINALIZE? && s.COMPLETING?) || (event.PROCESS? && s.EXPIRED?))
            && (to.COMPLETING? ==>
                  || (event.ROUND_ENDED? && s.ACTIVE?)
                  || (event.END_REQUESTED? && s in {ACTIVE, ROUND_TRANSITION, RECONNECTING, PAUSED})
                  || (event.TIME_UP? && s in {ACTIVE, ROUND_TRANSITION, RECONNECTING}))
  {
  }

  /** Every report comes from an evaluation, and every evaluation from an interview that was finalised or
      that expired after meaningful use. */
  lemma {:induction false} ReportsAreEarned(firings: seq<Firing>)
    ensures Follow(DRAFT, firings).REPORT_READY? ==> Happened(firings, EVALUATION_COMPLETED, PROCESSING)
    ensures Follow(DRAFT, firings).PROCESSING? || Follow(DRAFT, firings).REPORT_READY? ==>
              Happened(firings, FINALIZE, COMPLETING) || Happened(firings, PROCESS, EXPIRED)
    decreases |firings|
  {
    if |firings| > 0 {
      hide Follow, Transit, Happened;
      var before, last := Follow(DRAFT, firings[..|firings| - 1]), firings[|firings| - 1];
      LastStep(firings);
      if Transit(before, last.event, last.ctx).Moved? { WaysIn(before, last.event, last.ctx); }
      ReportsAreEarned(firings[..|firings| - 1]);
      HappenedBefore(firings, EVALUATION_COMPLETED, PROCESSING);
      HappenedBefore(firings, FINALIZE, COMPLETING);
      HappenedBefore(firings, PROCESS, EXPIRED);
    }
  }

  /** An interview expires only after its candidate stayed away past the grace period. */
  lemma {:induction false} ExpiryComesAfterGrace(firings: seq<Firing>)
    ensures Follow(DRAFT, firings).PAUSED? || Follow(DRAFT, firings).EXPIRED? ==> Happened(firings, GRACE_EXPIRED, RECONNECTING)
    decreases |firings|
  {
    if |firings| > 0 {
      ExpiryComesAfterGrace(firings[..|firings| - 1]);
      HappenedBefore(firings, GRACE_EXPIRED, RECONNECTING);
    }
  }

  /** Time ran out on the candidate while it was running, or had just been stopped by a disconnect. */
  ghost predicate TimeRanOut(firings: seq<Firing>) {
    Happened(firings, TIME_UP, ACTIVE) || Happened(firings, TIME_UP, ROUND_TRANSITION) || Happened(firings, TIME_UP, RECONNECTING)
  }

  ghost predicate EndRequested(firings: seq<Firing>) {
    || Happened(firings, END_REQUESTED, ACTIVE) || Happened(firings, END_REQUESTED, ROUND_TRANSITION)
    || Happened(firings, END_REQUESTED, RECONNECTING) || Happened(firings, END_REQUESTED, PAUSED)
  }

  /** An interview completes because its last round ended, because someone asked, or because time ran out;
      which it never does to a paused one. */
  lemma {:induction false} CompletionHasACause(firings: seq<Firing>)
    ensures Follow(DRAFT, firings).COMPLETING? ==> Happened(firings, ROUND_ENDED, ACTIVE) || EndRequested(firings) || TimeRanOut(firings)
    decreases |firings|
  {
    if |firings| > 0 {
      hide Follow, Transit, Happened;
      var before, last := Follow(DRAFT, firings[..|firings| - 1]), firings[|firings| - 1];
      LastStep(firings);
      if Transit(before, last.event, last.ctx).Moved? { WaysIn(before, last.event, last.ctx); }
      CompletionHasACause(firings[..|firings| - 1]);
      HappenedBefore(firings, ROUND_ENDED, ACTIVE);
      HappenedBefore(firings, TIME_UP, ACTIVE);
      HappenedBefore(firings, TIME_UP, ROUND_TRANSITION);
      HappenedBefore(firings, TIME_UP, RECONNECTING);
      HappenedBefore(firings, END_REQUESTED, ACTIVE);
      HappenedBefore(firings, END_REQUESTED, ROUND_TRANSITION);
      HappenedBefore(firings, END_REQUESTED, RECONNECTING);
      HappenedBefore(firings, END_REQUESTED, PAUSED);
    }
  }

  /** Once a session has started, exactly the terminal states accept no event whatever. */
  lemma TerminalIff(s: State)
    ensures s in {REPORT_READY, CANCELLED, FAILED} <==>
            forall event: Event, ctx: Context :: ctx.started ==> !Transit(s, event, ctx).Moved?
  {
    var ctx := Context(false, false, true, false, true, Some(ToActive), true);
    var way := match s
      case DRAFT => ANALYZE case ROLE_ANALYSIS => ANALYSIS_SUCCEEDED case READY => PREPARE
      case DEVICE_CHECK => DEVICE_CHECK_PASSED case CONSENT_REQUIRED => CONSENT_ACCEPTED case READY_TO_START => START
      case EXPIRED => PROCESS case PROCESSING => EVALUATION_COMPLETED
      case _ => FAIL;
    assert ctx.started && (s !in {REPORT_READY, CANCELLED, FAILED} ==> Transit(s, way, ctx).Moved?);
  }

  // ---- Every state ---------------------------------------------------------------------------------

  const FACTS := Context(true, true, false, true, true, Some(ToActive), true)

  /** How a state is reached: the state before, and the event. */
  ghost function LastLeg(s: State): (State, Event)
    requires !s.DRAFT?
  {
    match s
    case ROLE_ANALYSIS => (DRAFT, ANALYZE)
    case CANCELLED => (DRAFT, CANCEL)
    case READY => (ROLE_ANALYSIS, ANALYSIS_SUCCEEDED)
    case FAILED => (ROLE_ANALYSIS, ANALYSIS_FAILED)
    case DEVICE_CHECK => (READY, PREPARE)
    case CONSENT_REQUIRED => (DEVICE_CHECK, DEVICE_CHECK_PASSED)
    case READY_TO_START => (CONSENT_REQUIRED, CONSENT_ACCEPTED)
    case ACTIVE => (READY_TO_START, START)
    case ROUND_TRANSITION => (ACTIVE, ROUND_ENDED)
    case RECONNECTING => (ACTIVE, DISCONNECTED)
    case PAUSED => (RECONNECTING, GRACE_EXPIRED)
    case EXPIRED => (PAUSED, RESUME_WINDOW_EXPIRED)
    case COMPLETING => (ACTIVE, END_REQUESTED)
    case PROCESSING => (COMPLETING, FINALIZE)
    case REPORT_READY => (PROCESSING, EVALUATION_COMPLETED)
  }

  ghost function Legs(s: State): nat {
    match s
    case DRAFT => 0
    case ROLE_ANALYSIS | CANCELLED => 1
    case READY | FAILED => 2
    case DEVICE_CHECK => 3
    case CONSENT_REQUIRED => 4
    case READY_TO_START => 5
    case ACTIVE => 6
    case ROUND_TRANSITION | RECONNECTING | COMPLETING => 7
    case PAUSED | PROCESSING => 8
    case EXPIRED | REPORT_READY => 9
  }

  lemma LegLeads(s: State)
    requires !s.DRAFT?
    ensures var (before, event) := LastLeg(s); Transit(before, event, FACTS).Moved? && Transit(before, event, FACTS).state == s
    ensures Legs(LastLeg(s).0) < Legs(s)
  {
  }

  /** A draft can reach every state there is. */
  lemma {:induction false} EveryStateIsReached(s: State) returns (firings: seq<Firing>)
    ensures Follow(DRAFT, firings) == s
    decreases Legs(s)
  {
    if s.DRAFT? {
      firings := [];
    } else {
      hide Transit, LastLeg;
      LegLeads(s);
      var (before, event) := LastLeg(s);
      var way := EveryStateIsReached(before);
      firings := way + [Firing(event, FACTS)];
      assert firings[..|firings| - 1] == way;
    }
  }
}

/** Which events a session takes, and where they lead, in every reachable state of the system. */
module InterviewOutcomes {
  import opened Wrappers
  import opened SessionMachine
  import opened InterviewClock
  import opened InterviewState
  import opened SessionInvariant
  import opened InterviewRuns
  import opened InterviewTheorems
  import L = CreditLedger
  import P = InterviewPlanner

  /** Where an interview goes back to when its candidate returns. */
  function WhereItWas(s: Session): Option<State> {
    if s.resumeTo.None? then None else if s.resumeTo.value.ToActive? then Some(ACTIVE) else Some(ROUND_TRANSITION)
  }

  function On(event: Event, expected: Event, to: State): Option<State> { if event == expected then Some(to) else None }

  function Either(a: Option<State>, b: Option<State>): Option<State> { if a.Some? then a else b }

  /** Before the start. A text interview needs neither a device check nor consent. */
  function Preparing(s: Session, event: Event): Option<State> {
    match s.state
    case DRAFT => Either(On(event, ANALYZE, ROLE_ANALYSIS), On(event, CANCEL, CANCELLED))
    case ROLE_ANALYSIS => Either(On(event, ANALYSIS_SUCCEEDED, READY), On(event, ANALYSIS_FAILED, FAILED))
    case READY =>
      Either(On(event, PREPARE, if s.textMode then READY_TO_START else DEVICE_CHECK),
             Either(On(event, ANALYZE, ROLE_ANALYSIS), On(event, CANCEL, CANCELLED)))
    case DEVICE_CHECK =>
      Either(On(event, DEVICE_CHECK_PASSED, if s.textMode then READY_TO_START else CONSENT_REQUIRED), On(event, CANCEL, CANCELLED))
    case CONSENT_REQUIRED => Either(On(event, CONSENT_ACCEPTED, READY_TO_START), On(event, CANCEL, CANCELLED))
    case READY_TO_START => On(event, CANCEL, CANCELLED)
    case FAILED => if s.startedAt.Some? then None else Either(On(event, ANALYZE, ROLE_ANALYSIS), On(event, CANCEL, CANCELLED))
    case _ => None
  }

  /** Once started. Any interview under way can end early or fail; time runs out unless it is paused. */
  function Interviewing(s: Session, event: Event): Option<State>
    requires s.planner.Some?
  {
    match s.state
    case ACTIVE =>
      if event.ROUND_ENDED? then Some(if s.planner.value.roundIdx + 1 < |s.planner.value.rounds| then ROUND_TRANSITION else COMPLETING)
      else Stopping(event, DISCONNECTED, RECONNECTING, true)
    case ROUND_TRANSITION => Either(On(event, NEXT_ROUND, ACTIVE), Stopping(event, DISCONNECTED, RECONNECTING, true))
    case RECONNECTING => if event.RECONNECTED? then WhereItWas(s) else Stopping(event, GRACE_EXPIRED, PAUSED, true)
    case PAUSED => if event.RESUME? then WhereItWas(s) else Stopping(event, RESUME_WINDOW_EXPIRED, EXPIRED, false)
    case COMPLETING => Either(On(event, FINALIZE, PROCESSING), On(event, FAIL, FAILED))
    case PROCESSING => Either(On(event, EVALUATION_COMPLETED, REPORT_READY), On(event, FAIL, FAILED))
    case _ => None
  }

  function Stopping(event: Event, away: Event, to: State, timed: bool): Option<State> {
    if event == away then Some(to)
    else if event.END_REQUESTED? || (event.TIME_UP? && timed) then Some(COMPLETING)
    else On(event, FAIL, FAILED)
  }

  /** Where an event other than a start leads, if it is taken. */
  function Destination(s: Session, input: Input): Option<State> {
    if s.startedAt.None? then Preparing(s, input.event)
    else if s.planner.None? || s.clock.None? then None
    else if s.state.EXPIRED? then
      if EnoughUse(s.planner.value.answeredCount, s.clock.value.activeMs, s.clock.value.budgetMs, input.policy)
      then On(input.event, PROCESS, PROCESSING) else None
    else Interviewing(s, input.event)
  }

  /** The table agrees with `to` on this event. */
  predicate Agrees(s: Session, input: Input, to: Option<State>) {
    var t := Transit(s.state, input.event, SessionContext(Patched(s, input.patch), input.now, input.policy));
    if t.Moved? then to == Some(t.state) else to.None?
  }

  lemma PreparingAgrees(s: Session, input: Input)
    requires NotStartedOk(s) && s.startedAt.None? && PatchOk(s, input) && !input.event.START?
    ensures Agrees(s, input, Preparing(s, input.event))
  {
  }

  lemma RoundEndAgrees(s: Session, input: Input)
    requires StartedOk(s) && PatchOk(s, input) && input.event.ROUND_ENDED?
    ensures s.planner.Some? && Agrees(s, input, if s.state.EXPIRED? then None else Interviewing(s, input.event))
  {
  }

  lemma LiveAgrees(s: Session, input: Input)
    requires StartedOk(s) && s.startedAt.Some? && input.patch == NO_PATCH && Live(s.state) && !input.event.ROUND_ENDED?
    ensures s.planner.Some? && Agrees(s, input, Interviewing(s, input.event))
  {
    hide IsMeaningfulUsage, RoundsOk, ClockOk;
    assert Patched(s, input.patch) == s;
  }

  lemma RestAgrees(s: Session, input: Input)
    requires StartedOk(s) && s.startedAt.Some? && input.patch == NO_PATCH && !Live(s.state) && !s.state.EXPIRED?
    ensures s.planner.Some? && Agrees(s, input, Interviewing(s, input.event))
  {
    hide IsMeaningfulUsage, RoundsOk, ClockOk, Situation;
    assert Patched(s, input.patch) == s;
  }

  lemma ExpiredAgrees(s: Session, input: Input)
    requires SessionOk(s) && s.startedAt.Some? && input.patch == NO_PATCH && !input.event.START? && s.state.EXPIRED?
    ensures Agrees(s, input, Destination(s, input))
  {
    assert Patched(s, input.patch) == s;
    StoppedUse(s, input.now, input.policy);
    hide IsMeaningfulUsage, EnoughUse, StartedOk;
  }

  lemma TransitIs(s: Session, input: Input)
    requires SessionOk(s) && PatchOk(s, input) && !input.event.START?
    ensures Agrees(s, input, Destination(s, input))
  {
    hide Agrees, Preparing, Interviewing;
    if s.startedAt.None? {
      PreparingAgrees(s, input);
    } else if input.event.ROUND_ENDED? {
      RoundEndAgrees(s, input);
    } else if s.state.EXPIRED? {
      ExpiredAgrees(s, input);
    } else {
      if Live(s.state) { LiveAgrees(s, input); } else { RestAgrees(s, input); }
    }
  }

  /** In a reachable state, for a caller who is up to date, an event other than a start is applied exactly
      when it leads somewhere, and that is where the session is then. */
  lemma AppliedIff(w: World, owner: string -> L.Id, input: Input)
    requires Reachable(w, owner) && Allowed(w, owner, Fire(input)) && UpToDate(w, input) && !input.event.START?
    ensures ApplyEvent(w, input).1.Applied? <==> Destination(w.sessions[input.id], input).Some?
    ensures ApplyEvent(w, input).1.Applied? ==> Some(ApplyEvent(w, input).1.session.state) == Destination(w.sessions[input.id], input)
  {
    hide Destination;
    ReachableOk(w, owner);
    assert SessionFits(w, owner, input.id);
    TransitIs(w.sessions[input.id], input);
    OnlyStartThrows(w, owner, input);
  }

  /** A start that succeeds: the interview is active in its first round, its clock has the whole plan's time
      and runs from now on, and it is paid for by the platform, a campaign or a credit. */
  lemma StartBegins(w: World, owner: string -> L.Id, input: Input)
    requires Reachable(w, owner) && Allowed(w, owner, Fire(input)) && input.event.START? && ApplyEvent(w, input).1.Applied?
    ensures input.id in w.sessions && input.patch.planner.Some?
    ensures var s, s', plan := w.sessions[input.id], ApplyEvent(w, input).1.session, input.patch.planner.value;
            && s.state.READY_TO_START? && s'.state.ACTIVE? && s'.startedAt == Some(input.now)
            && s'.clock == Some(Clock(P.TotalBudget(plan.rounds), 0, Some(input.now), false))
            && s'.planner.Some? && s'.planner.value.roundIdx == 0 && |s'.planner.value.rounds| == |plan.rounds| > 0
            && s'.planner.value.rounds[0] == plan.rounds[0].(state := P.RUNNING, startedAtMs := Some(0))
            && s'.planner.value.rounds[1..] == plan.rounds[1..]
            && s'.credit == if s.drill then FREE else if input.patch.sponsored.GetOr(s.sponsored) then SPONSORED else RESERVED
  {
    hide Reachable, WorldOk, ApplyEvent, SessionOk, Step, EventCredits;
    ReachedStep(w, owner, input);
    var s := w.sessions[input.id];
    SessionStarts(s, input, Edit(w.credits, w.campaignUsed, Patched(s, input.patch)), ApplyEvent(w, input).1.session);
  }

  lemma SessionStarts(s: Session, input: Input, e: Edit, s': Session)
    requires SessionOk(s) && Step(s, input, e, s') && input.event.START?
    ensures input.patch.planner.Some?
    ensures var plan := input.patch.planner.value;
            && s.state.READY_TO_START? && s'.state.ACTIVE? && s'.startedAt == Some(input.now)
            && s'.clock == Some(Clock(P.TotalBudget(plan.rounds), 0, Some(input.now), false))
            && s'.planner.Some? && s'.planner.value.roundIdx == 0 && |s'.planner.value.rounds| == |plan.rounds| > 0
            && s'.planner.value.rounds[0] == plan.rounds[0].(state := P.RUNNING, startedAtMs := Some(0))
            && s'.planner.value.rounds[1..] == plan.rounds[1..]
            && s'.credit == if s.drill then FREE else if input.patch.sponsored.GetOr(s.sponsored) then SPONSORED else RESERVED
  {
    hide SessionOk, L.Apply, IsMeaningfulUsage;
    ThreeEffects(input, e, RESERVE_CREDIT, START_CLOCK, START_NEXT_ROUND);
    var r := ReserveEffect(input, e).value;
    TwoEffects(input, r, START_CLOCK, START_NEXT_ROUND);
  }

  // ---- Finishing ---------------------------------------------------------------------------------

  function Plain(id: string, event: Event, now: int, policy: UsagePolicy): Input { Input(id, event, None, None, NO_PATCH, now, policy) }

  lemma ReachableNext(w: World, owner: string -> L.Id, step: WorldStep)
    requires Reachable(w, owner) && Allowed(w, owner, step)
    ensures Reachable(NextWorld(w, step), owner)
  {
    var steps: seq<WorldStep> :| AllowedRun(EMPTY_WORLD, owner, steps) && w == RunWorld(EMPTY_WORLD, steps);
    OneMore(EMPTY_WORLD, owner, steps, step);
  }

  /** An event that leads somewhere takes its session there. */
  lemma Takes(w: World, owner: string -> L.Id, id: string, event: Event, now: int, policy: UsagePolicy)
    requires Reachable(w, owner) && id in w.sessions && event !in {START, ROUND_ENDED}
    requires Destination(w.sessions[id], Plain(id, event, now, policy)).Some?
    ensures var step := Fire(Plain(id, event, now, policy));
            var w' := NextWorld(w, step);
            && Allowed(w, owner, step) && Reachable(w', owner) && id in w'.sessions
            && Some(w'.sessions[id].state) == Destination(w.sessions[id], step.input)
            && w'.sessions[id].startedAt == w.sessions[id].startedAt
  {
    var input := Plain(id, event, now, policy);
    assert Allowed(w, owner, Fire(input)) && UpToDate(w, input);
    AppliedIff(w, owner, input);
    ReachableNext(w, owner, Fire(input));
    ReachableOk(w, owner);
    StaysStarted(w, owner, input);
  }

  lemma StaysStarted(w: World, owner: string -> L.Id, input: Input)
    requires WorldOk(w, owner) && Allowed(w, owner, Fire(input)) && ApplyEvent(w, input).1.Applied? && !input.event.START?
    ensures input.id in w.sessions && ApplyEvent(w, input).1.session.startedAt == w.sessions[input.id].startedAt
  {
    AppliedIsStep(w, owner, input);
    var s := w.sessions[input.id];
    var e := Edit(w.credits, w.campaignUsed, Patched(s, input.patch));
    var t := Transit(s.state, input.event, SessionContext(e.s, input.now, input.policy));
    hide WorldOk, ApplyEvent, Transit;
    NoReserve(s.state, input.event, SessionContext(e.s, input.now, input.policy));
    StartKept(input, e, t.effects);
  }

  lemma NoReserve(state: State, event: Event, ctx: Context)
    requires !event.START? && Transit(state, event, ctx).Moved?
    ensures forall x <- Transit(state, event, ctx).effects :: !x.RESERVE_CREDIT?
  {
  }

  lemma {:induction false} StartKept(input: Input, e: Edit, effects: seq<Effect>)
    requires (forall x <- effects :: !x.RESERVE_CREDIT?) && RunEffects(input, e, effects).Some?
    ensures RunEffects(input, e, effects).value.s.startedAt == e.s.startedAt
    decreases |effects|
  {
    if effects != [] {
      assert !effects[0].RESERVE_CREDIT?;
      OneKept(input, e, effects[0]);
      hide RunEffect;
      StartKept(input, RunEffect(input, e, effects[0]).value, effects[1..]);
    }
  }

  lemma OneKept(input: Input, e: Edit, effect: Effect)
    requires !effect.RESERVE_CREDIT? && RunEffect(input, e, effect).Some?
    ensures RunEffect(input, e, effect).value.s.startedAt == e.s.startedAt
  {
  }

  /** Every interview under way can be brought to its report: it is ended unless it is completing already,
      finalised, and evaluated. */
  lemma CanFinish(w: World, owner: string -> L.Id, id: string, now: int, policy: UsagePolicy)
    requires Reachable(w, owner) && id in w.sessions && InProgress(w.sessions[id].state)
    ensures var w1 := if w.sessions[id].state.COMPLETING? then w else NextWorld(w, Fire(Plain(id, END_REQUESTED, now, policy)));
            var w2 := NextWorld(w1, Fire(Plain(id, FINALIZE, now, policy)));
            var w3 := NextWorld(w2, Fire(Plain(id, EVALUATION_COMPLETED, now, policy)));
            Reachable(w3, owner) && id in w3.sessions && w3.sessions[id].state.REPORT_READY?
  {
    hide Reachable, NextWorld;
    Underway(w, owner, id, now, policy);
    var w1 := w;
    if !w.sessions[id].state.COMPLETING? {
      Takes(w, owner, id, END_REQUESTED, now, policy);
      w1 := NextWorld(w, Fire(Plain(id, END_REQUESTED, now, policy)));
    }
    Underway(w1, owner, id, now, policy);
    Takes(w1, owner, id, FINALIZE, now, policy);
    var w2 := NextWorld(w1, Fire(Plain(id, FINALIZE, now, policy)));
    Underway(w2, owner, id, now, policy);
    Takes(w2, owner, id, EVALUATION_COMPLETED, now, policy);
  }

  lemma Underway(w: World, owner: string -> L.Id, id: string, now: int, policy: UsagePolicy)
    requires Reachable(w, owner) && id in w.sessions
    ensures var s := w.sessions[id];
            && (InProgress(s.state) || s.state.PROCESSING? ==> s.startedAt.Some?)
            && (InProgress(s.state) && !s.state.COMPLETING? ==> Destination(s, Plain(id, END_REQUESTED, now, policy)) == Some(COMPLETING))
            && (s.state.COMPLETING? ==> Destination(s, Plain(id, FINALIZE, now, policy)) == Some(PROCESSING))
            && (s.state.PROCESSING? ==> Destination(s, Plain(id, EVALUATION_COMPLETED, now, policy)) == Some(REPORT_READY))
  {
    ReachableOk(w, owner);
    assert SessionFits(w, owner, id);
    hide WorldOk, Reachable;
    UnderwayLeads(w.sessions[id], now, policy, id);
  }

  lemma UnderwayLeads(s: Session, now: int, policy: UsagePolicy, id: string)
    requires SessionOk(s)
    ensures InProgress(s.state) || s.state.PROCESSING? ==> s.startedAt.Some?
    ensures InProgress(s.state) && !s.state.COMPLETING? ==> Destination(s, Plain(id, END_REQUESTED, now, policy)) == Some(COMPLETING)
    ensures s.state.COMPLETING? ==> Destination(s, Plain(id, FINALIZE, now, policy)) == Some(PROCESSING)
    ensures s.state.PROCESSING? ==> Destination(s, Plain(id, EVALUATION_COMPLETED, now, policy)) == Some(REPORT_READY)
  {
  }

  // ---- Saves between events ----------------------------------------------------------------------

  /** One question more was asked, and it is the last one. */
  predicate Asked(p: P.Planner, p': P.Planner, questionId: string) {
    && p'.askedCount == p.askedCount + 1 && p'.answeredCount == p.answeredCount
    && p'.thread.Some? && p'.thread.value.lastQuestionId == questionId && !p'.thread.value.pendingFollowUp
  }

  /** One answer more was counted, unless there was none. */
  predicate Assessed(p: P.Planner, p': P.Planner, a: P.Assessment) {
    && p'.askedCount == p.askedCount
    && p'.answeredCount == p.answeredCount + if a.sufficiency == Some(P.NO_ANSWER) then 0 else 1
  }

  /** A hold is saved exactly when the interview has started and is not held, and stops its clock; letting
      go is saved when it has started, and the clock runs then exactly while it is live. A question is
      saved exactly in a running interview's current round, an assessment exactly when a question of the
      current round was asked. */
  lemma SavesIff(w: World, owner: string -> L.Id, id: string, save: Save)
    requires Reachable(w, owner) && id in w.sessions
    ensures var s, saved := w.sessions[id], SaveSession(w.sessions[id], save);
            && (s.startedAt.Some? <==> s.clock.Some?) && (s.startedAt.Some? <==> s.planner.Some?)
            && (saved.Some? ==> saved.value.version == s.version + 1 && saved.value.state == s.state)
            && match save
               case Hold(_) =>
                 && (saved.Some? <==> s.clock.Some? && !s.clock.value.held)
                 && (saved.Some? ==> saved.value.clock.Some? && !Running(saved.value.clock.value) && saved.value.clock.value.held)
               case Release(_) =>
                 && (saved.Some? <==> s.clock.Some?)
                 && (saved.Some? ==> saved.value.clock.Some? && !saved.value.clock.value.held
                                     && (Running(saved.value.clock.value) <==> Live(s.state)))
               case Question(target, questionId, _) =>
                 && (saved.Some? <==> s.state.ACTIVE? && s.planner.Some? && target.roundIdx == s.planner.value.roundIdx)
                 && (saved.Some? ==> saved.value.planner.Some? && Asked(s.planner.value, saved.value.planner.value, questionId))
               case Assess(a) =>
                 && (saved.Some? <==> s.planner.Some? && s.planner.value.roundIdx >= 0 && s.planner.value.thread.Some?)
                 && (saved.Some? ==> saved.value.planner.Some? && Assessed(s.planner.value, saved.value.planner.value, a))
  {
    ReachableOk(w, owner);
    assert SessionFits(w, owner, id);
    hide WorldOk, Reachable;
    StartedHasBoth(w.sessions[id]);
    match save
    case Question(_, _, _) => QuestionIff(w.sessions[id], save);
    case Assess(_) =>
    case _ => HoldsIff(w.sessions[id], save);
  }

  lemma StartedHasBoth(s: Session)
    requires SessionOk(s)
    ensures (s.startedAt.Some? <==> s.clock.Some?) && (s.startedAt.Some? <==> s.planner.Some?)
    ensures s.planner.Some? ==> s.planner.value.roundIdx < |s.planner.value.rounds|
  {
  }

  lemma QuestionIff(s: Session, save: Save)
    requires SessionOk(s) && save.Question?
    ensures SaveSession(s, save).Some? <==> s.state.ACTIVE? && s.planner.Some? && save.target.roundIdx == s.planner.value.roundIdx
    ensures SaveSession(s, save).Some? ==>
              var s' := SaveSession(s, save).value;
              && s'.planner.Some? && Asked(s.planner.value, s'.planner.value, save.questionId)
              && s'.version == s.version + 1 && s'.state == s.state
  {
  }

  lemma HoldsIff(s: Session, save: Save)
    requires SessionOk(s) && (save.Hold? || save.Release?)
    ensures SaveSession(s, save).Some? <==> s.clock.Some? && (save.Hold? ==> !s.clock.value.held)
    ensures SaveSession(s, save).Some? ==>
              var c := SaveSession(s, save).value.clock;
              && c.Some? && c.value.held == save.Hold?
              && (Running(c.value) <==> save.Release? && Live(s.state))
  {
  }
}

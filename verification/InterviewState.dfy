/** Engine events against persisted sessions: the transition, its effects on credits, clock and
    rounds, and the save that is conditional on the version read. */
module InterviewState {
  import opened Wrappers
  import opened CreditLedger
  import opened SessionMachine
  import opened InterviewClock
  import P = InterviewPlanner

  datatype CreditStatus = NONE | RESERVED | CONSUMED | REFUNDED | SPONSORED | FREE

  datatype Session = Session(
    user: Id, drill: bool, textMode: bool, campaign: Option<Id>, sponsored: bool,
    state: State, version: nat, live: bool,
    clock: Option<Clock>, planner: Option<P.Planner>, resumeTo: Option<ResumeTarget>,
    credit: CreditStatus, creditLot: Option<Id>,
    startedAt: Option<int>, endedAt: Option<int>, disconnectedAt: Option<int>, pausedAt: Option<int>)

  /** The database: the credit collections, the sessions, and the sponsored credits campaigns used. */
  datatype World = World(credits: Store, sessions: map<string, Session>, campaignUsed: map<Id, int>)

  /** Fields a caller sets with the event. */
  datatype Patch = Patch(planner: Option<P.Planner>, sponsored: Option<bool>)

  const NO_PATCH := Patch(None, None)

  datatype Input = Input(
    id: string, event: Event, user: Option<Id>, expectedVersion: Option<nat>, patch: Patch, now: int, policy: UsagePolicy)

  datatype Result = Applied(session: Session) | NotFound | Conflict | Rejected(why: Transition) | Thrown

  // ---- Facts about a stored session ----------------------------------------------------------

  function HeldSessionClock(s: Session, now: int): Option<Clock> {
    if s.clock.Some? then Some(HoldClock(s.clock.value, now)) else None
  }

  function ReleasedSessionClock(s: Session, now: int): Option<Clock> {
    if s.clock.Some? then Some(ReleaseClock(s.clock.value, now, Live(s.state))) else None
  }

  function SessionElapsedMs(s: Session, now: int): int {
    if s.clock.Some? then ElapsedMs(s.clock.value, now) else 0
  }

  predicate Meaningful(s: Session, now: int, policy: UsagePolicy) {
    IsMeaningfulUsage(
      if s.planner.Some? then s.planner.value.answeredCount else 0,
      SessionElapsedMs(s, now),
      if s.clock.Some? then s.clock.value.budgetMs else 0,
      policy)
  }

  function SessionContext(s: Session, now: int, policy: UsagePolicy): Context {
    Context(
      !s.textMode, !s.textMode,
      s.startedAt.Some? || !s.credit.NONE?,
      s.credit.RESERVED?,
      s.planner.Some? && P.HasNextRound(s.planner.value),
      s.resumeTo,
      Meaningful(s, now, policy))
  }

  function Patched(s: Session, patch: Patch): Session {
    s.(planner := if patch.planner.Some? then patch.planner else s.planner,
       sponsored := patch.sponsored.GetOr(s.sponsored))
  }

  // ---- Effects -------------------------------------------------------------------------------

  /** The transaction's writes so far. */
  datatype Edit = Edit(credits: Store, campaignUsed: map<Id, int>, s: Session)

  function ReserveEffect(input: Input, e: Edit): Option<Edit> {
    if e.s.drill then Some(e.(s := e.s.(credit := FREE, creditLot := None, startedAt := Some(input.now))))
    else if e.s.sponsored then Some(e.(s := e.s.(credit := SPONSORED, creditLot := None, startedAt := Some(input.now))))
    else
      var r := Apply(e.credits, Reserve(e.s.user, input.id, input.now));
      if r.1.Thrown() then None
      else if r.1.ReservedFrom? then
        Some(e.(credits := r.0, s := e.s.(credit := RESERVED, creditLot := Some(r.1.lot), startedAt := Some(input.now))))
      else None
  }

  function CampaignRefunded(used: map<Id, int>, campaign: Option<Id>): map<Id, int> {
    if campaign.Some? && campaign.value in used && used[campaign.value] > 0
    then used[campaign.value := used[campaign.value] - 1] else used
  }

  function SettleEffect(input: Input, e: Edit, refund: bool): Option<Edit> {
    if e.s.credit.FREE? then Some(e)
    else if e.s.credit.SPONSORED? then
      Some(if refund then e.(campaignUsed := CampaignRefunded(e.campaignUsed, e.s.campaign)) else e)
    else
      var r := Apply(e.credits, Settle(e.s.user, input.id, refund));
      Some(e.(credits := r.0, s := e.s.(credit := if refund then REFUNDED else CONSUMED)))
  }

  /** One effect; None when it throws. */
  function RunEffect(input: Input, e: Edit, effect: Effect): Option<Edit> {
    match effect
    case RESERVE_CREDIT => ReserveEffect(input, e)
    case CONSUME_CREDIT => SettleEffect(input, e, false)
    case REFUND_CREDIT => SettleEffect(input, e, true)
    case START_CLOCK =>
      if e.s.planner.None? then None
      else
        var c := StartClock(P.TotalBudget(e.s.planner.value.rounds), input.now);
        if c.None? then None else Some(e.(s := e.s.(clock := c)))
    case PAUSE_CLOCK =>
      Some(if e.s.clock.Some? then e.(s := e.s.(clock := Some(PauseClock(e.s.clock.value, input.now)))) else e)
    case RESUME_CLOCK =>
      Some(if e.s.clock.Some? then e.(s := e.s.(clock := Some(ResumeClock(e.s.clock.value, input.now)))) else e)
    case START_NEXT_ROUND =>
      if e.s.planner.None? then None
      else
        var p := P.StartNextRound(e.s.planner.value, SessionElapsedMs(e.s, input.now));
        if p.None? then None else Some(e.(s := e.s.(planner := p)))
    case END_ROUND =>
      Some(if e.s.planner.Some?
           then e.(s := e.s.(planner := Some(P.EndCurrentRound(e.s.planner.value, if input.event.TIME_UP? then P.TIMED_OUT else P.COMPLETED))))
           else e)
    case REMEMBER_RESUME_TARGET(to) => Some(e.(s := e.s.(resumeTo := Some(to))))
    case ENQUEUE_ANALYSIS => Some(e)
    case ENQUEUE_EVALUATION => Some(e)
  }

  function RunEffects(input: Input, e: Edit, effects: seq<Effect>): Option<Edit>
    decreases |effects|
  {
    if effects == [] then Some(e)
    else
      var next := RunEffect(input, e, effects[0]);
      if next.None? then None else RunEffects(input, next.value, effects[1..])
  }

  /** The fields that follow from the state reached. */
  function Arrived(s: Session, to: State, now: int, e: Session): Session {
    e.(state := to,
       version := s.version + 1,
       live := InProgress(to),
       planner := if to.COMPLETING? && e.planner.Some? then Some(P.SkipRemaining(e.planner.value)) else e.planner,
       disconnectedAt := if to.RECONNECTING? then Some(now) else if Live(to) then None else e.disconnectedAt,
       pausedAt := if to.PAUSED? then Some(now) else if Live(to) then None else e.pausedAt,
       resumeTo := if Live(to) && (s.state.RECONNECTING? || s.state.PAUSED?) then None else e.resumeTo,
       endedAt := if to.COMPLETING? || to.EXPIRED? || (to.FAILED? && s.startedAt.Some?)
                  then (if s.endedAt.Some? then s.endedAt else Some(now)) else e.endedAt)
  }

  function ApplyEvent(w: World, input: Input): (World, Result) {
    if input.id !in w.sessions || (input.user.Some? && w.sessions[input.id].user != input.user.value) then (w, NotFound)
    else
      var s := w.sessions[input.id];
      if input.expectedVersion.Some? && s.version != input.expectedVersion.value then (w, Conflict)
      else
        var working := Patched(s, input.patch);
        var t := Transit(s.state, input.event, SessionContext(working, input.now, input.policy));
        if !t.Moved? then (w, Rejected(t))
        else
          var e := RunEffects(input, Edit(w.credits, w.campaignUsed, working), t.effects);
          if e.None? then (w, Thrown)
          else
            var s' := Arrived(s, t.state, input.now, e.value.s);
            (World(e.value.credits, w.sessions[input.id := s'], e.value.campaignUsed), Applied(s'))
  }

  // ---- Other writers of a session, each conditional on the version read ------------------------

  datatype Save = Hold(now: int) | Release(now: int) | Question(target: P.Target, questionId: string, now: int) | Assess(assessment: P.Assessment)

  /** A save between events; None when its conditions do not hold and nothing is written. */
  function SaveSession(s: Session, save: Save): Option<Session> {
    match save
    case Hold(now) =>
      if s.clock.None? || s.clock.value.held then None
      else Some(s.(clock := HeldSessionClock(s, now), version := s.version + 1))
    case Release(now) =>
      if s.clock.None? then None else Some(s.(clock := ReleasedSessionClock(s, now), version := s.version + 1))
    case Question(target, questionId, now) =>
      if !s.state.ACTIVE? || s.planner.None? then None
      else
        var p := P.RecordQuestion(s.planner.value, target, questionId);
        if p.None? then None
        else Some(s.(planner := p, clock := ReleasedSessionClock(s, now), version := s.version + 1))
    case Assess(a) =>
      if s.planner.None? then None
      else
        var p := P.RecordAssessment(s.planner.value, a);
        if p.None? then None else Some(s.(planner := p, version := s.version + 1))
  }
}

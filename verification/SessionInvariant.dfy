/** What every reachable session satisfies: when its clock runs, where it can resume, which
    rounds are active, and what its credit status can be. */
module SessionInvariant {
  import opened Wrappers
  import opened SessionMachine
  import opened InterviewClock
  import opened InterviewState
  import P = InterviewPlanner

  // ---- The invariant -------------------------------------------------------------------------

  /** Only the current round can be running; answers are counted up from zero. */
  ghost predicate RoundsOk(p: P.Planner) {
    && p.roundIdx < |p.rounds| && p.answeredCount >= 0
    && (forall i :: 0 <= i < |p.rounds| && i != p.roundIdx ==> !p.rounds[i].state.RUNNING?)
  }

  ghost predicate RoundRunning(p: P.Planner) { 0 <= p.roundIdx < |p.rounds| && p.rounds[p.roundIdx].state.RUNNING? }

  ghost predicate BetweenRounds(p: P.Planner) { 0 <= p.roundIdx && P.HasNextRound(p) && !RoundRunning(p) }

  ghost predicate RoundsOver(p: P.Planner) {
    forall r <- p.rounds :: !r.state.RUNNING? && !r.state.PENDING?
  }

  /** The round situation that goes with a resume target. */
  ghost predicate Situation(p: P.Planner, t: ResumeTarget) {
    if t.ToActive? then RoundRunning(p) else BetweenRounds(p)
  }

  ghost predicate ClockOk(s: Session)
    requires s.clock.Some?
  {
    Running(s.clock.value) <==> Live(s.state) && !s.clock.value.held
  }

  ghost predicate Settled(c: CreditStatus) { c.CONSUMED? || c.REFUNDED? || c.SPONSORED? || c.FREE? }

  ghost predicate NotStartedOk(s: Session) {
    && (PreStart(s.state) || s.state.ROLE_ANALYSIS? || s.state.CANCELLED? || s.state.FAILED?)
    && s.clock.None? && s.planner.None? && s.resumeTo.None? && s.credit.NONE?
  }

  ghost predicate StartedOk(s: Session) {
    && (InProgress(s.state) || s.state in {PROCESSING, REPORT_READY, EXPIRED, FAILED})
    && s.clock.Some? && ClockOk(s)
    && s.planner.Some? && RoundsOk(s.planner.value)
    && (if InProgress(s.state) then s.credit in {RESERVED, SPONSORED, FREE} else Settled(s.credit))
    && (s.credit in {RESERVED, CONSUMED, REFUNDED} ==> s.creditLot.Some?)
    && (s.state.ACTIVE? ==> RoundRunning(s.planner.value) && s.resumeTo.None?)
    && (s.state.ROUND_TRANSITION? ==> BetweenRounds(s.planner.value) && s.resumeTo.None?)
    && (s.state.RECONNECTING? || s.state.PAUSED? ==> s.resumeTo.Some? && Situation(s.planner.value, s.resumeTo.value))
    && (s.state.COMPLETING? ==> RoundsOver(s.planner.value))
    && (s.state.RECONNECTING? ==> s.disconnectedAt.Some?)
    && (s.state.PAUSED? ==> s.pausedAt.Some?)
    && (Live(s.state) ==> s.disconnectedAt.None? && s.pausedAt.None?)
  }

  ghost predicate SessionOk(s: Session) {
    && (s.live <==> InProgress(s.state))
    && (if s.startedAt.None? then NotStartedOk(s) else StartedOk(s))
  }

  /** What callers set along with an event: the plan on a start, the ended round on its end. */
  ghost predicate PatchOk(s: Session, input: Input) {
    match input.event
    case START => input.patch.planner.Some? && FreshPlan(input.patch.planner.value)
    case ROUND_ENDED =>
      && input.patch.sponsored.None?
      && (input.patch.planner.Some? ==>
            exists outcome :: s.planner.Some? && outcome in {P.COMPLETED, P.TIMED_OUT} && input.patch.planner.value == P.EndCurrentRound(s.planner.value, outcome))
    case _ => input.patch == NO_PATCH
  }

  ghost predicate FreshPlan(p: P.Planner) {
    p.roundIdx == -1 && p.answeredCount == 0 && forall r <- p.rounds :: r.state.PENDING?
  }

  lemma CreatedPlanIsFresh(rounds: seq<P.TemplateRound>, competencies: seq<string>, p: P.Planner)
    requires P.CreatePlanner(rounds, competencies) == Some(p)
    ensures FreshPlan(p)
  {
    assert forall i :: 0 <= i < |p.rounds| ==> p.rounds[i].state.PENDING?;
    forall r | r in p.rounds ensures r.state.PENDING? {
      var i :| 0 <= i < |p.rounds| && p.rounds[i] == r;
    }
  }

  // ---- Effects by the event that caused them ---------------------------------------------------

  lemma OneEffect(input: Input, e: Edit, a: Effect)
    ensures RunEffects(input, e, [a]) == RunEffect(input, e, a)
  {
  }

  lemma TwoEffects(input: Input, e: Edit, a: Effect, b: Effect)
    ensures RunEffects(input, e, [a, b]) ==
            var r := RunEffect(input, e, a); if r.None? then None else RunEffect(input, r.value, b)
  {
    assert [a, b][1..] == [b];
    var r := RunEffect(input, e, a);
    if r.Some? { OneEffect(input, r.value, b); }
  }

  lemma ThreeEffects(input: Input, e: Edit, a: Effect, b: Effect, c: Effect)
    ensures RunEffects(input, e, [a, b, c]) ==
            var r := RunEffect(input, e, a); if r.None? then None else RunEffects(input, r.value, [b, c])
  {
    assert [a, b, c][1..] == [b, c];
  }

  /** What one event does to one session, credits aside. */
  ghost predicate Step(s: Session, input: Input, e: Edit, s': Session) {
    && PatchOk(s, input)
    && var working := Patched(s, input.patch);
       var t := Transit(s.state, input.event, SessionContext(working, input.now, input.policy));
       && t.Moved? && e.s == working
       && var r := RunEffects(input, e, t.effects); r.Some? && s' == Arrived(s, t.state, input.now, r.value.s)
  }

  lemma StartKeepsOk(s: Session, input: Input, e: Edit, s': Session)
    requires SessionOk(s) && Step(s, input, e, s') && input.event.START?
    ensures SessionOk(s')
  {
    ThreeEffects(input, e, RESERVE_CREDIT, START_CLOCK, START_NEXT_ROUND);
    var r := ReserveEffect(input, e).value;
    TwoEffects(input, r, START_CLOCK, START_NEXT_ROUND);
  }

  lemma NextRoundKeepsOk(s: Session, input: Input, e: Edit, s': Session)
    requires SessionOk(s) && Step(s, input, e, s') && input.event.NEXT_ROUND?
    ensures SessionOk(s')
  {
    OneEffect(input, e, START_NEXT_ROUND);
  }

  lemma RoundEndedKeepsOk(s: Session, input: Input, e: Edit, s': Session)
    requires SessionOk(s) && Step(s, input, e, s') && input.event.ROUND_ENDED?
    ensures SessionOk(s')
  {
    RoundEndedRuns(s, input, e, s');
    EndingRounds(e.s.planner.value, P.COMPLETED);
    hide RunEffects, RunEffect, Transit;
  }

  lemma RoundEndedRuns(s: Session, input: Input, e: Edit, s': Session)
    requires SessionOk(s) && Step(s, input, e, s') && input.event.ROUND_ENDED?
    ensures e.s.planner.Some? && e.s.clock == s.clock && s.clock.Some? && RoundsOk(e.s.planner.value)
    ensures var ended := e.s.(planner := Some(P.EndCurrentRound(e.s.planner.value, P.COMPLETED)));
            s' == if P.HasNextRound(e.s.planner.value) then Arrived(s, ROUND_TRANSITION, input.now, ended)
                  else Arrived(s, COMPLETING, input.now, ended.(clock := Some(PauseClock(s.clock.value, input.now))))
  {
    if P.HasNextRound(e.s.planner.value) {
      OneEffect(input, e, END_ROUND);
    } else {
      TwoEffects(input, e, END_ROUND, PAUSE_CLOCK);
    }
  }

  /** Ending the current round and skipping those that never ran leaves none to run. */
  lemma EndingRounds(p: P.Planner, outcome: P.RoundState)
    requires RoundsOk(p) && outcome in {P.COMPLETED, P.TIMED_OUT}
    ensures var p' := P.SkipRemaining(P.EndCurrentRound(p, outcome)); RoundsOk(p') && RoundsOver(p')
  {
    var q := P.EndCurrentRound(p, outcome);
    var p' := P.SkipRemaining(q);
    forall i | 0 <= i < |p'.rounds| ensures !p'.rounds[i].state.RUNNING? && !p'.rounds[i].state.PENDING? {
      assert !q.rounds[i].state.RUNNING?;
    }
  }

  /** Ending effects: the round ends and a running clock pauses. */
  lemma EndingRuns(s: Session, input: Input, e: Edit, s': Session)
    requires SessionOk(s) && Step(s, input, e, s')
    requires input.event in {END_REQUESTED, TIME_UP}
    ensures s.planner.Some? && s.clock.Some?
    ensures var outcome := if input.event.TIME_UP? then P.TIMED_OUT else P.COMPLETED;
            s' == Arrived(s, COMPLETING, input.now, e.s.(
                    planner := Some(P.EndCurrentRound(s.planner.value, outcome)),
                    clock := if Live(s.state) then Some(PauseClock(s.clock.value, input.now)) else s.clock))
  {
    var outcome := if input.event.TIME_UP? then P.TIMED_OUT else P.COMPLETED;
    var ended := e.(s := e.s.(planner := Some(P.EndCurrentRound(s.planner.value, outcome))));
    assert RunEffect(input, e, END_ROUND) == Some(ended);
    if Live(s.state) {
      TwoEffects(input, e, END_ROUND, PAUSE_CLOCK);
    } else {
      OneEffect(input, e, END_ROUND);
    }
  }

  lemma EndingKeepsOk(s: Session, input: Input, e: Edit, s': Session)
    requires SessionOk(s) && Step(s, input, e, s')
    requires input.event in {END_REQUESTED, TIME_UP}
    ensures SessionOk(s')
  {
    EndingRuns(s, input, e, s');
    EndingRounds(s.planner.value, if input.event.TIME_UP? then P.TIMED_OUT else P.COMPLETED);
    hide RunEffects;
  }

  lemma DisconnectKeepsOk(s: Session, input: Input, e: Edit, s': Session)
    requires SessionOk(s) && Step(s, input, e, s') && input.event.DISCONNECTED?
    ensures SessionOk(s')
  {
    TwoEffects(input, e, PAUSE_CLOCK, REMEMBER_RESUME_TARGET(if s.state.ACTIVE? then ToActive else ToRoundTransition));
  }

  lemma ReconnectKeepsOk(s: Session, input: Input, e: Edit, s': Session)
    requires SessionOk(s) && Step(s, input, e, s')
    requires input.event in {RECONNECTED, GRACE_EXPIRED, RESUME}
    ensures SessionOk(s')
  {
    OneEffect(input, e, RESUME_CLOCK);
  }

  /** What settling does when a credit is reserved, and when none is. */
  lemma SettleRuns(input: Input, e: Edit, ctx: Context, tail: seq<Effect>)
    requires tail == [] || tail == [ENQUEUE_EVALUATION]
    requires ctx.creditReserved <==> e.s.credit.RESERVED?
    ensures RunEffects(input, e, SettleEffects(ctx) + tail) ==
            if e.s.credit.RESERVED? then SettleEffect(input, e, !ctx.meaningful) else Some(e)
  {
    var settle := if ctx.meaningful then CONSUME_CREDIT else REFUND_CREDIT;
    OneEffect(input, e, settle);
    TwoEffects(input, e, settle, ENQUEUE_EVALUATION);
    OneEffect(input, e, ENQUEUE_EVALUATION);
    assert [settle] + [ENQUEUE_EVALUATION] == [settle, ENQUEUE_EVALUATION];
    assert [settle] + [] == [settle];
    assert [] + [ENQUEUE_EVALUATION] == [ENQUEUE_EVALUATION];
  }

  lemma SettlingKeepsOk(s: Session, input: Input, e: Edit, s': Session)
    requires SessionOk(s) && Step(s, input, e, s')
    requires input.event in {RESUME_WINDOW_EXPIRED, FINALIZE}
    ensures SessionOk(s')
  {
    var ctx := SessionContext(s, input.now, input.policy);
    SettleRuns(input, e, ctx, []);
    SettleRuns(input, e, ctx, [ENQUEUE_EVALUATION]);
    assert SettleEffects(ctx) + [] == SettleEffects(ctx);
  }

  lemma FailEffects(input: Input, e: Edit, live: bool, reserved: bool)
    ensures var paused := if live && e.s.clock.Some? then e.(s := e.s.(clock := Some(PauseClock(e.s.clock.value, input.now)))) else e;
            RunEffects(input, e, (if live then [PAUSE_CLOCK] else []) + (if reserved then [REFUND_CREDIT] else []))
            == if reserved then SettleEffect(input, paused, true) else Some(paused)
  {
    OneEffect(input, e, PAUSE_CLOCK);
    OneEffect(input, e, REFUND_CREDIT);
    TwoEffects(input, e, PAUSE_CLOCK, REFUND_CREDIT);
    assert [PAUSE_CLOCK] + [REFUND_CREDIT] == [PAUSE_CLOCK, REFUND_CREDIT];
    assert [PAUSE_CLOCK] + [] == [PAUSE_CLOCK];
    assert [] + [REFUND_CREDIT] == [REFUND_CREDIT];
  }

  lemma FailKeepsOk(s: Session, input: Input, e: Edit, s': Session)
    requires SessionOk(s) && Step(s, input, e, s') && input.event.FAIL?
    ensures SessionOk(s')
  {
    FailEffects(input, e, Live(s.state), s.credit.RESERVED?);
  }

  /** Every event keeps every session well-formed. */
  lemma EventKeepsOk(s: Session, input: Input, e: Edit, s': Session)
    requires SessionOk(s) && Step(s, input, e, s')
    ensures SessionOk(s')
  {
    match input.event
    case START => StartKeepsOk(s, input, e, s');
    case ROUND_ENDED => RoundEndedKeepsOk(s, input, e, s');
    case NEXT_ROUND => NextRoundKeepsOk(s, input, e, s');
    case END_REQUESTED => EndingKeepsOk(s, input, e, s');
    case TIME_UP => EndingKeepsOk(s, input, e, s');
    case DISCONNECTED => DisconnectKeepsOk(s, input, e, s');
    case RECONNECTED => ReconnectKeepsOk(s, input, e, s');
    case GRACE_EXPIRED => ReconnectKeepsOk(s, input, e, s');
    case RESUME => ReconnectKeepsOk(s, input, e, s');
    case RESUME_WINDOW_EXPIRED => SettlingKeepsOk(s, input, e, s');
    case FINALIZE => SettlingKeepsOk(s, input, e, s');
    case FAIL => FailKeepsOk(s, input, e, s');
    case ANALYZE => OneEffect(input, e, ENQUEUE_ANALYSIS);
    case PROCESS => OneEffect(input, e, ENQUEUE_EVALUATION);
    case _ =>
  }

  lemma SaveKeepsOk(s: Session, save: Save)
    requires SessionOk(s) && SaveSession(s, save).Some?
    ensures SessionOk(SaveSession(s, save).value)
  {
  }
}

/** What holds of every reachable interview: credits, rounds, refusals and resumption. */
module InterviewTheorems {
  import opened Wrappers
  import opened CreditLedger
  import opened CreditInvariant
  import opened CreditRuns
  import opened SessionMachine
  import opened InterviewClock
  import opened InterviewState
  import opened SessionInvariant
  import opened InterviewRuns
  import P = InterviewPlanner

  /** The states of the system that some allowed run reaches. */
  ghost predicate Reachable(w: World, owner: string -> Id) {
    exists steps: seq<WorldStep> :: AllowedRun(EMPTY_WORLD, owner, steps) && w == RunWorld(EMPTY_WORLD, steps)
  }

  lemma ReachableOk(w: World, owner: string -> Id)
    requires Reachable(w, owner)
    ensures WorldOk(w, owner)
  {
    var steps: seq<WorldStep> :| AllowedRun(EMPTY_WORLD, owner, steps) && w == RunWorld(EMPTY_WORLD, steps);
    EmptyWorldOk(owner);
    RunKeepsOk(EMPTY_WORLD, owner, steps);
  }

  /** The step an applied event is, from a session the invariant holds of. */
  lemma ReachedStep(w: World, owner: string -> Id, input: Input)
    requires Reachable(w, owner) && Allowed(w, owner, Fire(input)) && ApplyEvent(w, input).1.Applied?
    ensures input.id in w.sessions && WorldOk(w, owner) && SessionFits(w, owner, input.id)
    ensures var s, s' := w.sessions[input.id], ApplyEvent(w, input).1.session;
            var e := Edit(w.credits, w.campaignUsed, Patched(s, input.patch));
            && SessionOk(s) && Step(s, input, e, s') && EventCredits(s, input, e, s')
            && ApplyEvent(w, input).0.credits == FinalEdit(s, input, e).value.credits
  {
    hide ApplyEvent, SessionOk, Step, EventCredits, Inv, Mirror;
    ReachableOk(w, owner);
    AppliedIsStep(w, owner, input);
    assert SessionFits(w, owner, input.id);
    StepCredits(w.sessions[input.id], input, Edit(w.credits, w.campaignUsed, Patched(w.sessions[input.id], input.patch)), ApplyEvent(w, input).1.session);
  }

  // ---- Credits ---------------------------------------------------------------------------------

  predicate Holds(ledger: seq<Entry>, kind: EntryKind, id: string) {
    exists e <- ledger :: e.kind == kind && e.refId == id
  }

  lemma HoldsByKey(ledger: seq<Entry>, owner: string -> Id, id: string)
    requires LedgerOk(ledger, owner)
    ensures Holds(ledger, INTERVIEW_RESERVE, id) <==> HasKey(ledger, ReserveKey(id))
    ensures Holds(ledger, INTERVIEW_CONSUME, id) || Holds(ledger, INTERVIEW_REFUND, id) <==> HasKey(ledger, SettleKey(id))
  {
    SessionKeysDiffer(id, id);
    if HasKey(ledger, ReserveKey(id)) {
      var e :| e in ledger && e.key == ReserveKey(id);
      SessionKeysDiffer(id, e.refId);
    }
    if HasKey(ledger, SettleKey(id)) {
      var e :| e in ledger && e.key == SettleKey(id);
      SessionKeysDiffer(e.refId, id);
    }
  }

  lemma OneSettlement(ledger: seq<Entry>, owner: string -> Id, id: string)
    requires LedgerOk(ledger, owner)
    ensures !(Holds(ledger, INTERVIEW_CONSUME, id) && Holds(ledger, INTERVIEW_REFUND, id))
  {
    if Holds(ledger, INTERVIEW_CONSUME, id) && Holds(ledger, INTERVIEW_REFUND, id) {
      var a :| a in ledger && a.kind.INTERVIEW_CONSUME? && a.refId == id;
      var b :| b in ledger && b.kind.INTERVIEW_REFUND? && b.refId == id;
      SameKeySameEntry(ledger, a, b);
    }
  }

  /** In every reachable state the credit status mirrors the ledger. */
  lemma CreditMirrorsLedger(w: World, owner: string -> Id, id: string)
    requires Reachable(w, owner) && id in w.sessions
    ensures var s, l := w.sessions[id], w.credits.ledger;
            var reserved, consumed, refunded :=
              Holds(l, INTERVIEW_RESERVE, id), Holds(l, INTERVIEW_CONSUME, id), Holds(l, INTERVIEW_REFUND, id);
            && (s.credit.RESERVED? <==> reserved && !consumed && !refunded)
            && (s.credit.CONSUMED? <==> consumed)
            && (s.credit.REFUNDED? <==> refunded)
            && (s.credit in {NONE, SPONSORED, FREE} <==> !reserved)
  {
    ReachableOk(w, owner);
    var s, l := w.sessions[id], w.credits.ledger;
    assert SessionFits(w, owner, id);
    HoldsByKey(l, owner, id);
    OneSettlement(l, owner, id);
    if HasKey(l, SettleKey(id)) { SettledWasReserved(l, owner, id); }
    if s.credit in {RESERVED, CONSUMED, REFUNDED} {
      MirroredEntry(l, id, s);
    }
  }

  lemma MirroredEntry(l: seq<Entry>, id: string, s: Session)
    requires s.credit in {RESERVED, CONSUMED, REFUNDED} && Mirror(l, id, s)
    ensures Holds(l, match s.credit case RESERVED => INTERVIEW_RESERVE case CONSUMED => INTERVIEW_CONSUME case _ => INTERVIEW_REFUND, id)
  {
    var lot := s.creditLot.value;
    assert ReserveEntry(s.user, id, lot).refId == id && SettleEntry(s.user, id, s.credit.REFUNDED?, lot).refId == id;
  }

  /** Over a whole run a session reserves at most one credit and settles at most once. */
  lemma OneReserveOneSettle(w: World, owner: string -> Id, id: string, i: nat, j: nat)
    requires Reachable(w, owner)
    requires i < j < |w.credits.ledger| && w.credits.ledger[i].refId == w.credits.ledger[j].refId == id
    ensures var a, b := w.credits.ledger[i], w.credits.ledger[j];
            !(a.kind.INTERVIEW_RESERVE? && b.kind.INTERVIEW_RESERVE?) && !(IsSettle(a) && IsSettle(b))
  {
    ReachableOk(w, owner);
    assert w.credits.ledger[i] in w.credits.ledger && w.credits.ledger[j] in w.credits.ledger;
  }

  /** No session at rest holds a credit: only an interview in progress does, unless it is free. */
  lemma OnlyProgressHoldsCredit(w: World, owner: string -> Id, id: string)
    requires Reachable(w, owner) && id in w.sessions
    ensures var s := w.sessions[id];
            s.credit.RESERVED? <==> InProgress(s.state) && !s.credit.FREE? && !s.credit.SPONSORED?
  {
    ReachableOk(w, owner);
    assert SessionFits(w, owner, id);
  }

  ghost function PayingSessions(w: World, user: Id): set<string> {
    set id | id in w.sessions && w.sessions[id].user == user && InProgress(w.sessions[id].state)
             && !w.sessions[id].credit.FREE? && !w.sessions[id].credit.SPONSORED?
  }

  lemma {:induction false} ImageSize(ids: set<string>, f: string -> Entry, image: set<Entry>)
    requires forall a, b :: a in ids && b in ids && f(a) == f(b) ==> a == b
    requires image == set id | id in ids :: f(id)
    ensures |image| == |ids|
    decreases |ids|
  {
    if ids != {} {
      var id :| id in ids;
      ImageSize(ids - {id}, f, image - {f(id)});
    }
  }

  ghost function ReservationIn(w: World, user: Id): string -> Entry {
    (id: string) =>
      ReserveEntry(user, id, if id in w.sessions && w.sessions[id].creditLot.Some? then w.sessions[id].creditLot.value else 0)
  }

  lemma SettledHasKey(l: seq<Entry>, id: string, s: Session)
    requires Mirror(l, id, s)
    ensures s.credit.CONSUMED? || s.credit.REFUNDED? ==> HasKey(l, SettleKey(id))
  {
    if s.creditLot.Some? {
      assert SettleEntry(s.user, id, s.credit.REFUNDED?, s.creditLot.value).key == SettleKey(id);
    }
  }

  /** A held reservation belongs to a session in progress. */
  lemma HeldIsPaying(w: World, owner: string -> Id, user: Id, e: Entry)
    requires WorldOk(w, owner) && e in Held(w.credits.ledger, user)
    ensures e.refId in PayingSessions(w, user) && e == ReservationIn(w, user)(e.refId)
  {
    var id := e.refId;
    SessionKeysDiffer(id, id);
    assert WellFormedEntry(e, owner);
    assert e.key == ReserveKey(id) && HasKey(w.credits.ledger, ReserveKey(id));
    assert SessionFits(w, owner, id);
    var s := w.sessions[id];
    SettledHasKey(w.credits.ledger, id, s);
    assert s.credit.RESERVED?;
    SameKeySameEntry(w.credits.ledger, e, ReserveEntry(s.user, id, s.creditLot.value));
  }

  lemma PayingIsHeld(w: World, owner: string -> Id, user: Id, id: string)
    requires WorldOk(w, owner) && id in PayingSessions(w, user)
    ensures ReservationIn(w, user)(id) in Held(w.credits.ledger, user)
  {
    assert SessionFits(w, owner, id);
  }

  /** The account's reserved count is the number of the user's self-paid interviews in progress. */
  lemma ReservedCountsSessions(w: World, owner: string -> Id, user: Id)
    requires Reachable(w, owner)
    ensures AccountOf(w.credits, user).reserved == |PayingSessions(w, user)|
  {
    hide SessionFits, LedgerOk, Reachable;
    ReachableOk(w, owner);
    var ids, f, held := PayingSessions(w, user), ReservationIn(w, user), Held(w.credits.ledger, user);
    forall e | e in held ensures e.refId in ids && e == f(e.refId) { HeldIsPaying(w, owner, user, e); }
    forall id | id in ids ensures f(id) in held { PayingIsHeld(w, owner, user, id); }
    forall a, b | a in ids && b in ids && f(a) == f(b) ensures a == b {
      assert f(a).refId == a && f(b).refId == b;
    }
    assert held == set id | id in ids :: f(id);
    ImageSize(ids, f, held);
    assert UserOk(w.credits, user);
  }

  // ---- Settlement ------------------------------------------------------------------------------

  /** When a self-paid interview stops, its credit is consumed exactly when the use was meaningful. */
  lemma SettledByUse(w: World, owner: string -> Id, input: Input)
    requires Reachable(w, owner) && Allowed(w, owner, Fire(input)) && ApplyEvent(w, input).1.Applied?
    requires input.event in {FINALIZE, RESUME_WINDOW_EXPIRED} && w.sessions[input.id].credit.RESERVED?
    ensures var s := w.sessions[input.id];
            var s' := ApplyEvent(w, input).1.session;
            s'.credit == if Meaningful(s, input.now, input.policy) then CONSUMED else REFUNDED
  {
    hide ApplyEvent, SessionOk, Step;
    ReachedStep(w, owner, input);
  }

  /** A question was answered, and either enough of them were or enough of the time was used. */
  predicate EnoughUse(answered: int, usedMs: int, budgetMs: int, policy: UsagePolicy) {
    && answered >= 1
    && (answered >= policy.minAnswers || (budgetMs > 0 && usedMs as real >= policy.minBudgetFraction * (budgetMs as real)))
  }

  /** By default three answers are enough, or one and two fifths of the time. */
  lemma EnoughByDefault(answered: int, usedMs: int, budgetMs: int)
    ensures EnoughUse(answered, usedMs, budgetMs, DEFAULT_USAGE_POLICY) <==>
            answered >= 3 || (answered >= 1 && budgetMs > 0 && 5 * usedMs >= 2 * budgetMs)
  {
  }

  lemma StoppedUse(s: Session, now: int, policy: UsagePolicy)
    requires SessionOk(s) && s.startedAt.Some? && !Live(s.state)
    ensures s.planner.Some? && s.clock.Some?
    ensures Meaningful(s, now, policy) <==>
            EnoughUse(s.planner.value.answeredCount, s.clock.value.activeMs, s.clock.value.budgetMs, policy)
  {
  }

  /** A self-paid interview that stops is paid for if and only if it was used enough: by default with three
      answers, or with one and two fifths of its time. Otherwise its credit goes back. */
  lemma PaidForIffUsed(w: World, owner: string -> Id, input: Input)
    requires Reachable(w, owner) && Allowed(w, owner, Fire(input)) && ApplyEvent(w, input).1.Applied?
    requires input.event in {FINALIZE, RESUME_WINDOW_EXPIRED} && w.sessions[input.id].credit.RESERVED?
    ensures var s, credit := w.sessions[input.id], ApplyEvent(w, input).1.session.credit;
            && s.planner.Some? && s.clock.Some?
            && var answered, usedMs, budgetMs := s.planner.value.answeredCount, s.clock.value.activeMs, s.clock.value.budgetMs;
               && (credit.CONSUMED? <==>
                     && answered >= 1
                     && (answered >= input.policy.minAnswers
                         || (budgetMs > 0 && usedMs as real >= input.policy.minBudgetFraction * (budgetMs as real))))
               && (input.policy == DEFAULT_USAGE_POLICY ==>
                     (credit.CONSUMED? <==> answered >= 3 || (answered >= 1 && budgetMs > 0 && 5 * usedMs >= 2 * budgetMs)))
               && (credit.CONSUMED? || credit.REFUNDED?)
  {
    hide Reachable, ApplyEvent, Allowed, SessionOk, Meaningful;
    SettledByUse(w, owner, input);
    StopsStanding(w, owner, input);
    var s := w.sessions[input.id];
    StoppedUse(s, input.now, input.policy);
    EnoughByDefault(s.planner.value.answeredCount, s.clock.value.activeMs, s.clock.value.budgetMs);
  }

  lemma StopsStanding(w: World, owner: string -> Id, input: Input)
    requires Reachable(w, owner) && Allowed(w, owner, Fire(input)) && ApplyEvent(w, input).1.Applied?
    requires input.event in {FINALIZE, RESUME_WINDOW_EXPIRED}
    ensures input.id in w.sessions
    ensures var s := w.sessions[input.id]; SessionOk(s) && s.startedAt.Some? && !Live(s.state)
  {
    hide Reachable, ApplyEvent, Allowed, SessionOk, Step, Meaningful, EventCredits, WorldOk, Mirror;
    ReachedStep(w, owner, input);
    var s := w.sessions[input.id];
    Stopping(s, input, Edit(w.credits, w.campaignUsed, Patched(s, input.patch)), ApplyEvent(w, input).1.session);
  }

  /** Only interviews that stand still are finalised or expire. */
  lemma Stopping(s: Session, input: Input, e: Edit, s': Session)
    requires SessionOk(s) && Step(s, input, e, s') && input.event in {FINALIZE, RESUME_WINDOW_EXPIRED}
    ensures s.startedAt.Some? && !Live(s.state)
  {
  }

  /** A failure after the interview was settled changes no credit: what was consumed stays consumed. */
  lemma LateFailureRefundsNothing(w: World, owner: string -> Id, input: Input)
    requires Reachable(w, owner) && Allowed(w, owner, Fire(input)) && ApplyEvent(w, input).1.Applied?
    requires input.event.FAIL? && w.sessions[input.id].state.PROCESSING?
    ensures ApplyEvent(w, input).0.credits == w.credits
    ensures ApplyEvent(w, input).1.session.credit == w.sessions[input.id].credit
  {
    hide ApplyEvent, Step;
    ReachedStep(w, owner, input);
  }

  /** A failure in progress always gives a reserved credit back. */
  lemma EarlyFailureRefunds(w: World, owner: string -> Id, input: Input)
    requires Reachable(w, owner) && Allowed(w, owner, Fire(input)) && ApplyEvent(w, input).1.Applied?
    requires input.event.FAIL? && w.sessions[input.id].credit.RESERVED?
    ensures ApplyEvent(w, input).1.session.credit.REFUNDED?
    ensures var s := w.sessions[input.id];
            && AccountOf(ApplyEvent(w, input).0.credits, s.user).balance == AccountOf(w.credits, s.user).balance + 1
            && AccountOf(ApplyEvent(w, input).0.credits, s.user).reserved == AccountOf(w.credits, s.user).reserved - 1
  {
    hide ApplyEvent, SessionOk, Step;
    ReachedStep(w, owner, input);
    var s := w.sessions[input.id];
    SettleMirrors(w.credits, owner, Settle(s.user, input.id, true), s, ApplyEvent(w, input).1.session);
  }

  // ---- Events that cannot be refused -------------------------------------------------------------

  /** The caller read the current session and owns it. */
  predicate UpToDate(w: World, input: Input) {
    && input.id in w.sessions
    && (input.user.Some? ==> w.sessions[input.id].user == input.user.value)
    && (input.expectedVersion.Some? ==> w.sessions[input.id].version == input.expectedVersion.value)
  }

  predicate MayThrow(effect: Effect) { effect.RESERVE_CREDIT? || effect.START_CLOCK? || effect.START_NEXT_ROUND? }

  lemma {:induction false} HarmlessEffects(input: Input, e: Edit, effects: seq<Effect>)
    requires forall x <- effects :: !MayThrow(x)
    ensures RunEffects(input, e, effects).Some?
    decreases |effects|
  {
    if effects != [] {
      assert !MayThrow(effects[0]);
      HarmlessEffects(input, RunEffect(input, e, effects[0]).value, effects[1..]);
    }
  }

  lemma TransitHarmless(state: State, event: Event, ctx: Context)
    requires event !in {START, NEXT_ROUND} && Transit(state, event, ctx).Moved?
    ensures forall x <- Transit(state, event, ctx).effects :: !MayThrow(x)
  {
  }

  /** No event throws in a reachable state except a start. */
  lemma OnlyStartThrows(w: World, owner: string -> Id, input: Input)
    requires Reachable(w, owner) && Allowed(w, owner, Fire(input)) && !input.event.START?
    ensures !ApplyEvent(w, input).1.Thrown?
  {
    ReachableOk(w, owner);
    if input.id in w.sessions {
      var s := w.sessions[input.id];
      assert SessionFits(w, owner, input.id);
      var e := Edit(w.credits, w.campaignUsed, Patched(s, input.patch));
      var t := Transit(s.state, input.event, SessionContext(e.s, input.now, input.policy));
      if t.Moved? {
        if input.event.NEXT_ROUND? {
          OneEffect(input, e, START_NEXT_ROUND);
        } else {
          TransitHarmless(s.state, input.event, SessionContext(e.s, input.now, input.policy));
          HarmlessEffects(input, e, t.effects);
        }
      }
    }
  }

  /** Between rounds the next round always starts; after a disconnect the interview always resumes. */
  lemma NeverStuck(w: World, owner: string -> Id, input: Input)
    requires Reachable(w, owner) && Allowed(w, owner, Fire(input)) && UpToDate(w, input)
    requires var state := w.sessions[input.id].state;
             match input.event
             case NEXT_ROUND => state.ROUND_TRANSITION?
             case RECONNECTED => state.RECONNECTING?
             case RESUME => state.PAUSED?
             case _ => false
    ensures ApplyEvent(w, input).1.Applied?
  {
    OnlyStartThrows(w, owner, input);
    ReachableOk(w, owner);
    assert SessionFits(w, owner, input.id);
    GuardHolds(w.sessions[input.id], input);
  }

  lemma GuardHolds(s: Session, input: Input)
    requires SessionOk(s)
    requires match input.event
             case NEXT_ROUND => s.state.ROUND_TRANSITION?
             case RECONNECTED => s.state.RECONNECTING?
             case RESUME => s.state.PAUSED?
             case _ => false
    ensures Transit(s.state, input.event, SessionContext(s, input.now, input.policy)).Moved?
  {
  }

  lemma StartRuns(input: Input, e: Edit)
    requires input.event.START? && e.s.planner.Some? && FreshPlan(e.s.planner.value)
    ensures RunEffects(input, e, [RESERVE_CREDIT, START_CLOCK, START_NEXT_ROUND]).Some? <==>
            ReserveEffect(input, e).Some? && P.TotalBudget(e.s.planner.value.rounds) > 0
  {
    ThreeEffects(input, e, RESERVE_CREDIT, START_CLOCK, START_NEXT_ROUND);
    if ReserveEffect(input, e).Some? {
      TwoEffects(input, ReserveEffect(input, e).value, START_CLOCK, START_NEXT_ROUND);
    }
  }

  lemma ReserveIffPaid(input: Input, e: Edit, owner: string -> Id)
    requires Inv(e.credits, owner) && !HasKey(e.credits.ledger, ReserveKey(input.id))
    ensures ReserveEffect(input, e).Some? <==>
            e.s.drill || e.s.sponsored || exists l <- AccountOf(e.credits, e.s.user).lots :: Usable(l, input.now)
  {
    UsableLotsFacts(AccountOf(e.credits, e.s.user).lots, input.now);
    var lots := UsableLots(AccountOf(e.credits, e.s.user).lots, input.now);
    if lots != [] { assert lots[0] in lots; }
  }

  /** A start succeeds exactly when someone pays and the plan has time in it. */
  lemma StartsIffPaidAndPlanned(w: World, owner: string -> Id, input: Input)
    requires Reachable(w, owner) && Allowed(w, owner, Fire(input)) && UpToDate(w, input)
    requires input.event.START? && w.sessions[input.id].state.READY_TO_START?
    ensures var s, p := w.sessions[input.id], input.patch.planner.value;
            ApplyEvent(w, input).1.Applied? <==>
            && (s.drill || input.patch.sponsored.GetOr(s.sponsored) || exists l <- AccountOf(w.credits, s.user).lots :: Usable(l, input.now))
            && P.TotalBudget(p.rounds) > 0
  {
    ReachableOk(w, owner);
    var s := w.sessions[input.id];
    assert SessionFits(w, owner, input.id);
    var e := Edit(w.credits, w.campaignUsed, Patched(s, input.patch));
    StartRuns(input, e);
    ReserveIffPaid(input, e, owner);
  }

  /** An event is applied only for the session's owner and only on the version its caller read, and it
      makes the next version, so that no two events are applied to the same version. */
  lemma AppliedIsCurrent(w: World, input: Input)
    requires ApplyEvent(w, input).1.Applied?
    ensures UpToDate(w, input)
    ensures ApplyEvent(w, input).1.session.version == w.sessions[input.id].version + 1
    ensures forall other: Input :: other.id == input.id && other.expectedVersion == Some(w.sessions[input.id].version) ==>
              !ApplyEvent(ApplyEvent(w, input).0, other).1.Applied?
  {
    var s := w.sessions[input.id];
    var e := Edit(w.credits, w.campaignUsed, Patched(s, input.patch));
    EffectsKeepEnd(input, e, Transit(s.state, input.event, SessionContext(e.s, input.now, input.policy)).effects);
  }

  /** Asking a question in a reachable session ends a hold: the clock runs while the answer is awaited. */
  lemma AskingRunsTheClock(w: World, owner: string -> Id, id: string, target: P.Target, questionId: string, now: int)
    requires Reachable(w, owner) && id in w.sessions && SaveSession(w.sessions[id], Question(target, questionId, now)).Some?
    ensures var s' := SaveSession(w.sessions[id], Question(target, questionId, now)).value;
            s'.clock.Some? && Running(s'.clock.value) && !s'.clock.value.held
  {
    ReachableOk(w, owner);
    assert SessionFits(w, owner, id);
  }

  // ---- Where a session can be ----------------------------------------------------------------------

  /** In every reachable state the clock runs exactly while the session is live and not held; an
      active session has a running round; between rounds another round is waiting; a session that
      lost its candidate knows where to resume, and its rounds are as that state needs them. */
  lemma WhereSessionsCanBe(w: World, owner: string -> Id, id: string)
    requires Reachable(w, owner) && id in w.sessions
    ensures var s := w.sessions[id];
            && (Live(s.state) ==> s.clock.Some?)
            && (s.clock.Some? ==> (Running(s.clock.value) <==> Live(s.state) && !s.clock.value.held))
            && (s.state.ACTIVE? ==> s.planner.Some? && RoundRunning(s.planner.value))
            && (s.state.ROUND_TRANSITION? ==> s.planner.Some? && BetweenRounds(s.planner.value))
            && (s.state.RECONNECTING? || s.state.PAUSED? ==>
                  s.planner.Some? && s.resumeTo.Some? && Situation(s.planner.value, s.resumeTo.value))
            && (Live(s.state) ==> s.resumeTo.None?)
            && (s.state.COMPLETING? ==> s.planner.Some? && RoundsOver(s.planner.value))
            && (s.state.RECONNECTING? ==> s.disconnectedAt.Some?) && (s.state.PAUSED? ==> s.pausedAt.Some?)
  {
    ReachableOk(w, owner);
    assert SessionFits(w, owner, id);
  }

  // ---- At most one round runs -------------------------------------------------------------------

  /** In every reachable session at most one round is active, it is the current one, and only while
      the interview can still go on; once it completes no round is active or pending. */
  lemma OneRoundAtATime(w: World, owner: string -> Id, id: string, i: nat, j: nat)
    requires Reachable(w, owner) && id in w.sessions && w.sessions[id].planner.Some?
    requires var p := w.sessions[id].planner.value;
             i < |p.rounds| && j < |p.rounds| && p.rounds[i].state.RUNNING? && p.rounds[j].state.RUNNING?
    ensures i == j == w.sessions[id].planner.value.roundIdx
    ensures !w.sessions[id].state.COMPLETING? && !w.sessions[id].state.ROUND_TRANSITION?
  {
    ReachableOk(w, owner);
    assert SessionFits(w, owner, id);
    var s := w.sessions[id];
    var p := s.planner.value;
    assert p.rounds[i] in p.rounds;
  }

  // ---- The end of an interview -----------------------------------------------------------------

  lemma {:induction false} EffectsKeepEnd(input: Input, e: Edit, effects: seq<Effect>)
    requires RunEffects(input, e, effects).Some?
    ensures RunEffects(input, e, effects).value.s.endedAt == e.s.endedAt
    decreases |effects|
  {
    if effects != [] {
      EffectKeepsEnd(input, e, effects[0]);
      EffectsKeepEnd(input, RunEffect(input, e, effects[0]).value, effects[1..]);
    }
  }

  lemma EffectKeepsEnd(input: Input, e: Edit, effect: Effect)
    requires RunEffect(input, e, effect).Some?
    ensures RunEffect(input, e, effect).value.s.endedAt == e.s.endedAt
  {
  }

  /** The end is recorded when a started interview first completes, expires or fails, and never moves. */
  lemma EndIsRecordedOnce(w: World, input: Input)
    requires input.id in w.sessions && ApplyEvent(w, input).1.Applied?
    ensures var s, s' := w.sessions[input.id], ApplyEvent(w, input).1.session;
            s'.endedAt ==
              if s.endedAt.Some? then s.endedAt
              else if s'.state in {COMPLETING, EXPIRED} || (s'.state.FAILED? && s.startedAt.Some?) then Some(input.now)
              else None
  {
    var s := w.sessions[input.id];
    var e := Edit(w.credits, w.campaignUsed, Patched(s, input.patch));
    EffectsKeepEnd(input, e, Transit(s.state, input.event, SessionContext(e.s, input.now, input.policy)).effects);
  }

  lemma SavesKeepEnd(s: Session, save: Save)
    requires SaveSession(s, save).Some?
    ensures SaveSession(s, save).value.endedAt == s.endedAt
  {
  }

  lemma StepKeepsEnd(w: World, step: WorldStep, id: string)
    requires id in w.sessions && w.sessions[id].endedAt.Some? && (step.Create? ==> step.id != id)
    ensures id in NextWorld(w, step).sessions && NextWorld(w, step).sessions[id].endedAt == w.sessions[id].endedAt
  {
    match step
    case Fire(input) =>
      if input.id == id && ApplyEvent(w, input).1.Applied? { EndIsRecordedOnce(w, input); }
      OnlyItsSession(w, input, id);
    case Write(k, save) => if k == id && SaveSession(w.sessions[id], save).Some? { SavesKeepEnd(w.sessions[id], save); }
    case _ =>
  }

  lemma OnlyItsSession(w: World, input: Input, id: string)
    requires id in w.sessions
    ensures var w' := ApplyEvent(w, input).0;
            && id in w'.sessions
            && (input.id != id || !ApplyEvent(w, input).1.Applied? ==> w'.sessions[id] == w.sessions[id])
            && (input.id == id && ApplyEvent(w, input).1.Applied? ==> w'.sessions[id] == ApplyEvent(w, input).1.session)
  {
  }

  /** Once recorded, the end of an interview stays, over every run. */
  lemma {:induction false} EndIsFinal(w: World, owner: string -> Id, steps: seq<WorldStep>, id: string)
    requires AllowedRun(w, owner, steps) && id in w.sessions && w.sessions[id].endedAt.Some?
    ensures id in RunWorld(w, steps).sessions && RunWorld(w, steps).sessions[id].endedAt == w.sessions[id].endedAt
    decreases |steps|
  {
    if steps != [] {
      StepKeepsEnd(w, steps[0], id);
      hide NextWorld;
      EndIsFinal(NextWorld(w, steps[0]), owner, steps[1..], id);
    }
  }

  /** When time runs out the round under way is marked as timed out; on any other end it is completed. */
  lemma TimeUpTimesOut(w: World, owner: string -> Id, input: Input)
    requires Reachable(w, owner) && Allowed(w, owner, Fire(input)) && ApplyEvent(w, input).1.Applied?
    requires input.event in {TIME_UP, END_REQUESTED} && w.sessions[input.id].planner.Some? && RoundRunning(w.sessions[input.id].planner.value)
    ensures var p, p' := w.sessions[input.id].planner.value, ApplyEvent(w, input).1.session.planner;
            && p'.Some? && p'.value.roundIdx == p.roundIdx && |p'.value.rounds| == |p.rounds|
            && p'.value.rounds[p.roundIdx].state == if input.event.TIME_UP? then P.TIMED_OUT else P.COMPLETED
  {
    hide ApplyEvent, SessionOk, Step, EventCredits;
    ReachedStep(w, owner, input);
    var s := w.sessions[input.id];
    EndingRuns(s, input, Edit(w.credits, w.campaignUsed, Patched(s, input.patch)), ApplyEvent(w, input).1.session);
  }

  // ---- Disconnecting and coming back ------------------------------------------------------------

  /** A disconnect, with or without the grace period running out, is undone by coming back: same
      state, same rounds, same credit, and the time away was not counted. */
  lemma ComingBackRestores(
    s: Session, out: Input, e: Edit, away: Session, grace: Input, f: Edit, paused: Session, back: Input, g: Edit, s': Session)
    requires SessionOk(s) && out.event.DISCONNECTED? && Step(s, out, e, away)
    requires paused == away || (grace.event.GRACE_EXPIRED? && Step(away, grace, f, paused))
    requires back.event in {RECONNECTED, RESUME} && Step(paused, back, g, s')
    ensures s'.state == s.state && s'.planner == s.planner && s'.live == s.live
    ensures s'.credit == s.credit && s'.creditLot == s.creditLot && s'.resumeTo == s.resumeTo
    ensures s.clock.Some? && s'.clock.Some?
    ensures Running(s'.clock.value) == Running(s.clock.value) && s'.clock.value.held == s.clock.value.held
    ensures SessionElapsedMs(s', back.now) == SessionElapsedMs(s, out.now)
  {
    WentAway(s, out, e, away);
    GraceOnly(away, grace, f, paused);
    CameBack(paused, back, g, s');
  }

  lemma WentAway(s: Session, out: Input, e: Edit, away: Session)
    requires SessionOk(s) && out.event.DISCONNECTED? && Step(s, out, e, away)
    ensures s.clock.Some? && Live(s.state) && ClockOk(s) && s.live && s.resumeTo.None?
    ensures away == s.(
              state := RECONNECTING, version := s.version + 1, live := true,
              resumeTo := Some(if s.state.ACTIVE? then ToActive else ToRoundTransition),
              clock := Some(PauseClock(s.clock.value, out.now)), disconnectedAt := Some(out.now))
  {
    TwoEffects(out, e, PAUSE_CLOCK, REMEMBER_RESUME_TARGET(if s.state.ACTIVE? then ToActive else ToRoundTransition));
  }

  lemma CameBack(s: Session, back: Input, e: Edit, s': Session)
    requires back.event in {RECONNECTED, RESUME} && Step(s, back, e, s') && s.clock.Some?
    ensures s.resumeTo.Some?
    ensures s' == s.(
              state := TargetState(s.resumeTo.value), version := s.version + 1, live := true, resumeTo := None,
              clock := Some(ResumeClock(s.clock.value, back.now)), disconnectedAt := None, pausedAt := None)
  {
    OneEffect(back, e, RESUME_CLOCK);
  }

  lemma GraceOnly(away: Session, grace: Input, f: Edit, paused: Session)
    requires paused == away || (grace.event.GRACE_EXPIRED? && Step(away, grace, f, paused))
    ensures paused.clock == away.clock && paused.planner == away.planner && paused.credit == away.credit
    ensures paused.creditLot == away.creditLot && paused.resumeTo == away.resumeTo
  {
  }

  // ---- Restarting a failed interview -------------------------------------------------------------

  /** Were a failed interview set back to READY_TO_START, which the from/to table alone permits
      by way of role analysis, a new start would cost nothing: the old reservation is found again,
      no entry is written, and the session says RESERVED although its credit was settled. */
  lemma RestartIsUnpaid(w: World, owner: string -> Id, input: Input)
    requires Inv(w.credits, owner) && UpToDate(w, input)
    requires var s := w.sessions[input.id];
             && s.state.READY_TO_START? && s.credit in {REFUNDED, CONSUMED} && s.user == owner(input.id)
             && Mirror(w.credits.ledger, input.id, s) && !s.drill
    requires input.event.START? && input.patch.sponsored == Some(false)
    requires input.patch.planner.Some? && FreshPlan(input.patch.planner.value) && P.TotalBudget(input.patch.planner.value.rounds) > 0
    ensures var (w', r) := ApplyEvent(w, input);
            && r.Applied? && w'.credits == w.credits && r.session.credit.RESERVED?
            && !Mirror(w'.credits.ledger, input.id, r.session)
  {
    var s := w.sessions[input.id];
    SettledHasKey(w.credits.ledger, input.id, s);
    SettledWasReserved(w.credits.ledger, owner, input.id);
    UnpaidStart(input, Edit(w.credits, w.campaignUsed, Patched(s, input.patch)));
  }

  lemma UnpaidStart(input: Input, e: Edit)
    requires HasKey(e.credits.ledger, ReserveKey(input.id)) && !e.s.drill && !e.s.sponsored
    requires e.s.planner.Some? && FreshPlan(e.s.planner.value) && P.TotalBudget(e.s.planner.value.rounds) > 0
    ensures var r := RunEffects(input, e, [RESERVE_CREDIT, START_CLOCK, START_NEXT_ROUND]);
            r.Some? && r.value.credits == e.credits && r.value.s.credit.RESERVED?
  {
    ThreeEffects(input, e, RESERVE_CREDIT, START_CLOCK, START_NEXT_ROUND);
    TwoEffects(input, ReserveEffect(input, e).value, START_CLOCK, START_NEXT_ROUND);
  }

  /** The from/to table cannot tell a failed analysis from a failed interview. */
  lemma TablePermitsReanalysis()
    ensures CanTransition(FAILED, ROLE_ANALYSIS)
    ensures forall ctx: Context :: ctx.started ==> Transit(FAILED, ANALYZE, ctx).GuardFailed?
  {
    var unstarted := Context(false, false, false, false, false, None, false);
    assert Transit(FAILED, ANALYZE, unstarted) == Moved(ROLE_ANALYSIS, [ENQUEUE_ANALYSIS]);
  }

  /** The whole detour: a failed, refunded text interview is analysed again and started again, and
      the second interview moves no credit. */
  lemma ReanalysedInterviewIsFree(w: World, owner: string -> Id, prepare: Input, start: Input)
    requires Reachable(w, owner) && prepare.id in w.sessions
    requires var s := w.sessions[prepare.id]; s.state.FAILED? && s.credit.REFUNDED? && !s.drill && s.textMode
    requires prepare.event.PREPARE? && prepare.patch == NO_PATCH && prepare.user.None? && prepare.expectedVersion.None?
    requires start.id == prepare.id && start.event.START? && start.user.None? && start.expectedVersion.None?
    requires start.patch.sponsored == Some(false) && start.patch.planner.Some?
    requires FreshPlan(start.patch.planner.value) && P.TotalBudget(start.patch.planner.value.rounds) > 0
    ensures var w2 := NextWorld(NextWorld(w, Relabel(prepare.id, ROLE_ANALYSIS)), Relabel(prepare.id, READY));
            var w' := NextWorld(NextWorld(w2, Fire(prepare)), Fire(start));
            && w'.credits == w.credits
            && prepare.id in w'.sessions
            && w'.sessions[prepare.id].state.ACTIVE? && w'.sessions[prepare.id].credit.RESERVED?
            && Holds(w'.credits.ledger, INTERVIEW_REFUND, prepare.id)
  {
    ReachableOk(w, owner);
    assert SessionFits(w, owner, prepare.id);
    MirroredEntry(w.credits.ledger, prepare.id, w.sessions[prepare.id]);
    TwoRelabels(w, prepare.id);
    var w2 := NextWorld(NextWorld(w, Relabel(prepare.id, ROLE_ANALYSIS)), Relabel(prepare.id, READY));
    Prepared(w2, prepare);
    StartedAgain(NextWorld(w2, Fire(prepare)), owner, start);
  }

  lemma TwoRelabels(w: World, id: string)
    requires id in w.sessions
    ensures var s := w.sessions[id];
            var w2 := NextWorld(NextWorld(w, Relabel(id, ROLE_ANALYSIS)), Relabel(id, READY));
            w2.credits == w.credits && id in w2.sessions && w2.sessions[id] == s.(state := READY, live := false, version := s.version + 2)
  {
  }

  lemma StartedAgain(w: World, owner: string -> Id, input: Input)
    requires Inv(w.credits, owner) && UpToDate(w, input)
    requires var s := w.sessions[input.id];
             && s.state.READY_TO_START? && s.credit in {REFUNDED, CONSUMED} && s.user == owner(input.id)
             && Mirror(w.credits.ledger, input.id, s) && !s.drill
    requires input.event.START? && input.patch.sponsored == Some(false)
    requires input.patch.planner.Some? && FreshPlan(input.patch.planner.value) && P.TotalBudget(input.patch.planner.value.rounds) > 0
    ensures var w' := NextWorld(w, Fire(input));
            && w'.credits == w.credits && input.id in w'.sessions
            && w'.sessions[input.id].state.ACTIVE? && w'.sessions[input.id].credit.RESERVED?
  {
    RestartIsUnpaid(w, owner, input);
  }

  lemma Prepared(w: World, input: Input)
    requires input.id in w.sessions && w.sessions[input.id].state.READY? && w.sessions[input.id].textMode
    requires input.event.PREPARE? && input.patch == NO_PATCH && input.user.None? && input.expectedVersion.None?
    ensures var s := w.sessions[input.id];
            var (w', r) := ApplyEvent(w, input);
            && r.Applied? && w' == w.(sessions := w.sessions[input.id := r.session])
            && r.session == s.(state := READY_TO_START, version := s.version + 1, live := false)
  {
  }
}

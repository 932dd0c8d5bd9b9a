/** Runs of the interview system, from the empty database, in which what one might expect fails. */
module InterviewExamples {
  import opened Wrappers
  import opened SessionMachine
  import opened InterviewClock
  import opened InterviewState
  import opened SessionInvariant
  import opened InterviewRuns
  import opened InterviewTheorems
  import X = InterviewExpiry
  import L = CreditLedger
  import P = InterviewPlanner

  // ---- Running step by step ----------------------------------------------------------------------

  ghost predicate Plays(owner: string -> L.Id, steps: seq<WorldStep>, w: World) {
    AllowedRun(EMPTY_WORLD, owner, steps) && RunWorld(EMPTY_WORLD, steps) == w
  }

  lemma Then(owner: string -> L.Id, steps: seq<WorldStep>, w: World, step: WorldStep, w': World)
    requires Plays(owner, steps, w) && Allowed(w, owner, step) && NextWorld(w, step) == w'
    ensures Plays(owner, steps + [step], w')
  {
    hide NextWorld, Allowed;
    OneMore(EMPTY_WORLD, owner, steps, step);
  }

  lemma PlayedIsReachable(owner: string -> L.Id, steps: seq<WorldStep>, w: World)
    requires Plays(owner, steps, w)
    ensures Reachable(w, owner)
  {
  }

  // ---- A self-paid text interview, started -------------------------------------------------------

  const FIRST_ROUND := P.Round(P.INTRO, 600_000, 3, 0, P.PENDING, None, 0, 0)
  const PLAN := P.Planner(-1, [FIRST_ROUND], map[], None, [], 0, 0)

  function New(user: L.Id): Session {
    Session(user, false, true, None, false, READY, 0, false, None, None, None, NONE, None, None, None, None, None)
  }

  function At(event: Event, patch: Patch, now: int): Input { Input("s", event, None, None, patch, now, DEFAULT_USAGE_POLICY) }

  const PAID_START := Patch(Some(PLAN), Some(false))

  function GrantOne(user: L.Id): L.Op { L.Grant(user, 1, L.FreeGrant, "free", None, 1) }

  function Granted(user: L.Id): L.Store {
    L.Store(map[user := L.Account(1, 0, [L.Lot(1, L.FreeGrant, 1, None)], 2)], [L.GrantEntry(GrantOne(user))])
  }

  function Held(user: L.Id): L.Store { L.Apply(Granted(user), L.Reserve(user, "s", 0)).0 }

  function One(credits: L.Store, s: Session): World { World(credits, map["s" := s], map[]) }

  function Opening(user: L.Id): seq<WorldStep> {
    [Move(GrantOne(user))] + [Create("s", New(user))] + [Fire(At(PREPARE, NO_PATCH, 0))] + [Fire(At(START, PAID_START, 0))]
  }

  function Round(asked: int): P.Round { FIRST_ROUND.(state := P.RUNNING, startedAtMs := Some(0), primaryAsked := asked) }

  function Plan(asked: int, answered: int, thread: Option<P.Thread>): P.Planner {
    P.Planner(0, [Round(asked)], map[], thread, [], asked, answered)
  }

  function Live(user: L.Id, version: nat, plan: P.Planner): Session {
    Session(user, false, true, None, false, ACTIVE, version, true, Some(Clock(600_000, 0, Some(0), false)), Some(plan), None,
            RESERVED, Some(1), Some(0), None, None, None)
  }

  lemma GrantGivesOne(user: L.Id)
    ensures L.Apply(L.EMPTY_STORE, GrantOne(user)).0 == Granted(user)
  {
    var w := L.Post(L.Bump(L.EMPTY_STORE, user), L.GrantEntry(GrantOne(user)));
    assert L.Apply(L.EMPTY_STORE, GrantOne(user)).0 == w;
    assert w.ledger == [] + [L.GrantEntry(GrantOne(user))];
    var lots := L.LotsAfter([], L.GrantEntry(GrantOne(user)));
    assert lots == [L.Lot(1, L.FreeGrant, 1, None)];
    assert w.accounts[user] == L.Account(1, 0, lots, 2);
    assert w.accounts.Keys == {user};
  }

  lemma ReserveTakesOne(user: L.Id)
    ensures L.Apply(Granted(user), L.Reserve(user, "s", 0)).1 == L.ReservedFrom(1, true)
  {
    var st := Granted(user);
    assert st.ledger[1..] == [];
    assert L.ReserveKey("s")[0] == 'r' && st.ledger[0].key[0] == 'f';
    assert L.FindEntry(st.ledger, L.ReserveKey("s")) == None;
    var lot := L.Lot(1, L.FreeGrant, 1, None);
    assert [lot][1..] == [];
    assert L.UsableLots([lot], 0) == [lot];
  }

  lemma Prepared(user: L.Id)
    ensures NextWorld(One(Granted(user), New(user)), Fire(At(PREPARE, NO_PATCH, 0)))
            == One(Granted(user), Ready(user))
  {
  }

  function Ready(user: L.Id): Session { New(user).(state := READY_TO_START, version := 1) }

  /** The session as the start's effects leave it. */
  function Running(user: L.Id): Session {
    Ready(user).(
      planner := Some(Plan(0, 0, None)), clock := Some(Clock(600_000, 0, Some(0), false)),
      credit := RESERVED, creditLot := Some(1), startedAt := Some(0))
  }

  lemma StartEffects(user: L.Id)
    ensures RunEffects(At(START, PAID_START, 0), Edit(Granted(user), map[], Patched(Ready(user), PAID_START)), [RESERVE_CREDIT, START_CLOCK, START_NEXT_ROUND])
            == Some(Edit(Held(user), map[], Running(user)))
  {
    ReserveTakesOne(user);
    BudgetOfPlan();
    FirstRoundStarts();
    hide L.Apply;
    var input := At(START, PAID_START, 0);
    var e := Edit(Granted(user), map[], Patched(Ready(user), PAID_START));
    var paid := e.(credits := Held(user), s := e.s.(credit := RESERVED, creditLot := Some(1), startedAt := Some(0)));
    var ticking := paid.(s := paid.s.(clock := Some(Clock(600_000, 0, Some(0), false))));
    ThreeEffects(input, e, RESERVE_CREDIT, START_CLOCK, START_NEXT_ROUND);
    TwoEffects(input, paid, START_CLOCK, START_NEXT_ROUND);
    hide RunEffects;
    assert RunEffect(input, e, RESERVE_CREDIT) == Some(paid);
    assert RunEffect(input, paid, START_CLOCK) == Some(ticking);
    assert RunEffect(input, ticking, START_NEXT_ROUND) == Some(Edit(Held(user), map[], Running(user)));
  }

  lemma Started(user: L.Id)
    ensures NextWorld(One(Granted(user), Ready(user)), Fire(At(START, PAID_START, 0))) == One(Held(user), Live(user, 2, Plan(0, 0, None)))
  {
    StartEffects(user);
    hide RunEffects, Held, Granted;
    assert Arrived(Ready(user), ACTIVE, 0, Running(user)) == Live(user, 2, Plan(0, 0, None));
  }

  lemma BudgetOfPlan()
    ensures P.TotalBudget(PLAN.rounds) == 600_000
  {
    assert PLAN.rounds[1..] == [];
  }

  lemma FirstRoundStarts()
    ensures P.StartNextRound(PLAN, 0) == Some(Plan(0, 0, None))
  {
    assert [FIRST_ROUND][0 := Round(0)] == [Round(0)];
  }

  lemma Opened(owner: string -> L.Id, user: L.Id)
    requires owner("s") == user
    ensures Plays(owner, Opening(user), One(Held(user), Live(user, 2, Plan(0, 0, None))))
  {
    var w1 := World(Granted(user), map[], map[]);
    var w2, w3 := One(Granted(user), New(user)), One(Granted(user), Ready(user));
    GrantGivesOne(user);
    GrantAllowed(owner, user);
    assert [] + [Move(GrantOne(user))] == [Move(GrantOne(user))];
    Then(owner, [], EMPTY_WORLD, Move(GrantOne(user)), w1);
    var s1 := [Move(GrantOne(user))];
    Then(owner, s1, w1, Create("s", New(user)), w2);
    Prepared(user);
    Started(user);
    assert FreshPlan(PLAN);
    hide NextWorld, L.Apply, Plays;
    Then(owner, s1 + [Create("s", New(user))], w2, Fire(At(PREPARE, NO_PATCH, 0)), w3);
    Then(owner, s1 + [Create("s", New(user))] + [Fire(At(PREPARE, NO_PATCH, 0))], w3, Fire(At(START, PAID_START, 0)),
         One(Held(user), Live(user, 2, Plan(0, 0, None))));
  }

  lemma GrantAllowed(owner: string -> L.Id, user: L.Id)
    ensures Allowed(EMPTY_WORLD, owner, Move(GrantOne(user)))
  {
    assert ("free" + ":")[0] == 'f' && "reserve:"[0] == 'r' && "settle:"[0] == 's';
  }

  // ---- A failed interview, started again for nothing -----------------------------------------------

  function FailingRun(user: L.Id): seq<WorldStep> { Opening(user) + [Fire(At(FAIL, NO_PATCH, 0))] }

  /** A reachable world with a text interview that failed and was refunded. */
  lemma FailedIsReachable(owner: string -> L.Id, user: L.Id)
    requires owner("s") == user
    ensures var w := RunWorld(EMPTY_WORLD, FailingRun(user));
            && Reachable(w, owner) && "s" in w.sessions
            && var s := w.sessions["s"]; s.state.FAILED? && s.credit.REFUNDED? && !s.drill && s.textMode
  {
    Opened(owner, user);
    var w := One(Held(user), Live(user, 2, Plan(0, 0, None)));
    var fail := At(FAIL, NO_PATCH, 0);
    PlayedIsReachable(owner, Opening(user), w);
    Fails(user);
    hide NextWorld, L.Apply;
    Then(owner, Opening(user), w, Fire(fail), NextWorld(w, Fire(fail)));
    PlayedIsReachable(owner, FailingRun(user), NextWorld(w, Fire(fail)));
  }

  lemma Fails(user: L.Id)
    ensures var w := NextWorld(One(Held(user), Live(user, 2, Plan(0, 0, None))), Fire(At(FAIL, NO_PATCH, 0)));
            && "s" in w.sessions
            && var s := w.sessions["s"]; s.state.FAILED? && s.credit.REFUNDED? && !s.drill && s.textMode
  {
    hide L.Apply;
    var s, input := Live(user, 2, Plan(0, 0, None)), At(FAIL, NO_PATCH, 0);
    var e := Edit(Held(user), map[], Patched(s, input.patch));
    FailEffects(input, e, true, true);
  }

  /** The whole story, from the empty database: an interview fails and is refunded, is analysed again,
      and its second start moves no credit although the first was given back. */
  lemma SecondInterviewIsFree(owner: string -> L.Id, user: L.Id)
    requires owner("s") == user
    ensures var w := RunWorld(EMPTY_WORLD, FailingRun(user));
            var w2 := NextWorld(NextWorld(w, Relabel("s", ROLE_ANALYSIS)), Relabel("s", READY));
            var w' := NextWorld(NextWorld(w2, Fire(At(PREPARE, NO_PATCH, 0))), Fire(At(START, PAID_START, 0)));
            && AllowedRun(EMPTY_WORLD, owner, FailingRun(user))
            && w'.credits == w.credits && "s" in w'.sessions
            && w'.sessions["s"].state.ACTIVE? && w'.sessions["s"].credit.RESERVED?
            && Holds(w'.credits.ledger, L.INTERVIEW_REFUND, "s")
  {
    FailedIsReachable(owner, user);
    Opened(owner, user);
    BudgetOfPlan();
    var w := RunWorld(EMPTY_WORLD, FailingRun(user));
    hide NextWorld, Reachable, L.Apply;
    OneMore(EMPTY_WORLD, owner, Opening(user), Fire(At(FAIL, NO_PATCH, 0)));
    ReanalysedInterviewIsFree(w, owner, At(PREPARE, NO_PATCH, 0), At(START, PAID_START, 0));
  }

  // ---- A refunded interview, evaluated after all ---------------------------------------------------

  const GOOD := P.Assessment(Some(P.ADEQUATE), false, 0)

  function Thread(q: string): Option<P.Thread> { Some(P.Thread(None, q, q, 0, false)) }

  function Asking(q: string): WorldStep { Write("s", Question(P.Target(0, None, None, 0, None), q, 0)) }

  const ANSWERED := Write("s", Assess(GOOD))

  lemma Asks(credits: L.Store, user: L.Id, version: nat, asked: int, answered: int, thread: Option<P.Thread>, q: string)
    ensures NextWorld(One(credits, Live(user, version, Plan(asked, answered, thread))), Asking(q))
            == One(credits, Live(user, version + 1, Plan(asked + 1, answered, Thread(q))))
  {
    assert [Round(asked)][0 := Round(asked + 1)] == [Round(asked + 1)];
  }

  lemma Answers(credits: L.Store, user: L.Id, version: nat, asked: int, answered: int, q: string)
    ensures NextWorld(One(credits, Live(user, version, Plan(asked, answered, Thread(q)))), ANSWERED)
            == One(credits, Live(user, version + 1, Plan(asked, answered + 1, Thread(q))))
  {
    assert [Round(asked)][0 := Round(asked)] == [Round(asked)];
  }

  function Talk(user: L.Id): seq<WorldStep> {
    Opening(user) + [Asking("q1")] + [ANSWERED] + [Asking("q2")] + [ANSWERED] + [Asking("q3")]
  }

  function Talked(user: L.Id): Session { Live(user, 7, Plan(3, 2, Thread("q3"))) }

  lemma OneAnswer(owner: string -> L.Id, user: L.Id, steps: seq<WorldStep>, version: nat, asked: int, thread: Option<P.Thread>, q: string)
    requires Plays(owner, steps, One(Held(user), Live(user, version, Plan(asked, asked, thread))))
    ensures Plays(owner, steps + [Asking(q)] + [ANSWERED], One(Held(user), Live(user, version + 2, Plan(asked + 1, asked + 1, Thread(q)))))
  {
    var c := Held(user);
    Asks(c, user, version, asked, asked, thread, q);
    Answers(c, user, version + 1, asked + 1, asked, q);
    hide NextWorld, Plays, Live, Held, Plan;
    var w1 := One(c, Live(user, version + 1, Plan(asked + 1, asked, Thread(q))));
    Then(owner, steps, One(c, Live(user, version, Plan(asked, asked, thread))), Asking(q), w1);
    Then(owner, steps + [Asking(q)], w1, ANSWERED, One(c, Live(user, version + 2, Plan(asked + 1, asked + 1, Thread(q)))));
  }

  lemma Talks(owner: string -> L.Id, user: L.Id)
    requires owner("s") == user
    ensures Plays(owner, Talk(user), One(Held(user), Talked(user)))
  {
    var s0 := Opening(user);
    Opened(owner, user);
    Asks(Held(user), user, 6, 2, 2, Thread("q2"), "q3");
    hide NextWorld, Plays, Live, Held, Plan;
    OneAnswer(owner, user, s0, 2, 0, None, "q1");
    OneAnswer(owner, user, s0 + [Asking("q1")] + [ANSWERED], 4, 1, Thread("q1"), "q2");
    Then(owner, s0 + [Asking("q1")] + [ANSWERED] + [Asking("q2")] + [ANSWERED], One(Held(user), Live(user, 6, Plan(2, 2, Thread("q2")))),
         Asking("q3"), One(Held(user), Live(user, 7, Plan(3, 2, Thread("q3")))));
  }

  function Away(user: L.Id): Session {
    Talked(user).(
      state := RECONNECTING, version := 8, clock := Some(Clock(600_000, 1, None, false)), resumeTo := Some(ToActive), disconnectedAt := Some(1))
  }

  function Paused(user: L.Id): Session { Away(user).(state := PAUSED, version := 9, pausedAt := Some(1)) }

  lemma GoesAway(credits: L.Store, user: L.Id)
    ensures NextWorld(One(credits, Talked(user)), Fire(At(DISCONNECTED, NO_PATCH, 1))) == One(credits, Away(user))
  {
    var input := At(DISCONNECTED, NO_PATCH, 1);
    TwoEffects(input, Edit(credits, map[], Talked(user)), PAUSE_CLOCK, REMEMBER_RESUME_TARGET(ToActive));
  }

  lemma StaysAway(credits: L.Store, user: L.Id)
    ensures NextWorld(One(credits, Away(user)), Fire(At(GRACE_EXPIRED, NO_PATCH, 1))) == One(credits, Paused(user))
  {
  }

  function AwayRun(user: L.Id): seq<WorldStep> {
    Talk(user) + [Fire(At(DISCONNECTED, NO_PATCH, 1))] + [Fire(At(GRACE_EXPIRED, NO_PATCH, 1))]
  }

  lemma PausedIsPlayed(owner: string -> L.Id, user: L.Id)
    requires owner("s") == user
    ensures Plays(owner, AwayRun(user), One(Held(user), Paused(user)))
  {
    Talks(owner, user);
    GoesAway(Held(user), user);
    StaysAway(Held(user), user);
    hide NextWorld, Plays, Held;
    Then(owner, Talk(user), One(Held(user), Talked(user)), Fire(At(DISCONNECTED, NO_PATCH, 1)), One(Held(user), Away(user)));
    Then(owner, Talk(user) + [Fire(At(DISCONNECTED, NO_PATCH, 1))], One(Held(user), Away(user)),
         Fire(At(GRACE_EXPIRED, NO_PATCH, 1)), One(Held(user), Paused(user)));
  }

  function Expired(user: L.Id): Session {
    Paused(user).(state := EXPIRED, version := 10, live := false, credit := REFUNDED, endedAt := Some(2))
  }

  lemma Expires(credits: L.Store, user: L.Id)
    ensures NextWorld(One(credits, Paused(user)), Fire(At(RESUME_WINDOW_EXPIRED, NO_PATCH, 2)))
            == One(L.Apply(credits, L.Settle(user, "s", true)).0, Expired(user))
    ensures ApplyEvent(One(credits, Paused(user)), At(RESUME_WINDOW_EXPIRED, NO_PATCH, 2)).1.Applied?
  {
    hide L.Apply;
    var s, input := Paused(user), At(RESUME_WINDOW_EXPIRED, NO_PATCH, 2);
    assert !Meaningful(s, 2, DEFAULT_USAGE_POLICY);
    var ctx := SessionContext(s, 2, DEFAULT_USAGE_POLICY);
    assert SettleEffects(ctx) == [REFUND_CREDIT];
    OneEffect(input, Edit(credits, map[], s), REFUND_CREDIT);
  }

  /** An interview expires after two answers and is refunded. The assessment of its third answer lands
      afterwards, and makes it one that is evaluated although nobody paid. */
  lemma LateAssessmentAdmits(owner: string -> L.Id, user: L.Id)
    requires owner("s") == user
    ensures var w := RunWorld(EMPTY_WORLD, AwayRun(user));
            var expire, process := At(RESUME_WINDOW_EXPIRED, NO_PATCH, 2), At(PROCESS, NO_PATCH, 3);
            var w1 := NextWorld(w, Fire(expire));
            var w2 := NextWorld(w1, ANSWERED);
            && AllowedRun(EMPTY_WORLD, owner, AwayRun(user)) && Allowed(w, owner, Fire(expire))
            && w1.sessions == map["s" := Expired(user)] && Expired(user).credit.REFUNDED?
            && !ApplyEvent(w1, process).1.Applied? && ApplyEvent(w2, process).1.Applied?
  {
    PausedIsPlayed(owner, user);
    Expires(Held(user), user);
    var settled := L.Apply(Held(user), L.Settle(user, "s", true)).0;
    hide L.Apply;
    LateAnswer(settled, user);
  }

  lemma LateAnswer(credits: L.Store, user: L.Id)
    ensures !ApplyEvent(One(credits, Expired(user)), At(PROCESS, NO_PATCH, 3)).1.Applied?
    ensures ApplyEvent(NextWorld(One(credits, Expired(user)), ANSWERED), At(PROCESS, NO_PATCH, 3)).1.Applied?
  {
    var w2 := NextWorld(One(credits, Expired(user)), ANSWERED);
    assert w2.sessions["s"].planner.value.answeredCount == 3;
    X.AdmittedIffMeaningful(One(credits, Expired(user)), At(PROCESS, NO_PATCH, 3));
    X.AdmittedIffMeaningful(w2, At(PROCESS, NO_PATCH, 3));
  }
}

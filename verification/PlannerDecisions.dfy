/** What the planner decides in a running round, and when; and that a round with time asks all it planned. */
module PlannerDecisions {
  import opened Wrappers
  import opened InterviewPlanner
  import opened PlannerRuns
  import opened PlannerSpread

  /** The current round, which is running. */
  predicate Under(p: Planner, r: Round) { 0 <= p.roundIdx < |p.rounds| && p.rounds[p.roundIdx] == r && r.state.RUNNING? }

  /** This much of the round's time is left. */
  predicate TimeLeft(r: Round, elapsedMs: int, ms: int) {
    r.startedAtMs.Some? && elapsedMs + ms <= r.startedAtMs.value + r.budgetMs
  }

  predicate FollowUpDue(p: Planner) { p.thread.Some? && p.thread.value.pendingFollowUp }

  predicate AsksFollowUp(next: NextStep) { next.Ask? && next.target.followUpOf.Some? }

  predicate AsksPrimary(next: NextStep) { next.Ask? && next.target.followUpOf.None? }

  /** In a running round a follow-up is asked exactly when one is due and any time is left; a primary
      question when none is due, some are left to ask, and there is a minute, or any time for the first.
      The round is completed when all are asked, and timed out when time is what is missing. */
  lemma DecisionIff(p: Planner, b: Blueprint, elapsedMs: int, r: Round)
    requires PlanOk(p) && Under(p, r)
    ensures var next := Decide(p, b, elapsedMs);
            var time, minute := TimeLeft(r, elapsedMs, 1), TimeLeft(r, elapsedMs, 60_000);
            && (AsksFollowUp(next) <==> time && FollowUpDue(p))
            && (AsksPrimary(next) <==>
                  time && !FollowUpDue(p) && r.primaryAsked < r.questionCount && (r.primaryAsked == 0 || minute))
            && (next == EndRound(COMPLETED) <==> time && !FollowUpDue(p) && r.primaryAsked >= r.questionCount)
            && (next == EndRound(TIMED_OUT) <==>
                  !time || (!FollowUpDue(p) && 0 < r.primaryAsked < r.questionCount && !minute))
  {
    assert r in p.rounds;
  }

  /** Outside a running round nothing is decided; and what is decided can be asked. */
  lemma DecisionCanBeAsked(p: Planner, b: Blueprint, elapsedMs: int, questionId: string)
    ensures Decide(p, b, elapsedMs).NoActiveRound? <==> !exists r :: Under(p, r)
    ensures Decide(p, b, elapsedMs).Ask? ==> RecordQuestion(p, Decide(p, b, elapsedMs).target, questionId).Some?
  {
    if CurrentRound(p).Some? && CurrentRound(p).value.state.RUNNING? { assert Under(p, p.rounds[p.roundIdx]); }
  }

  /** A primary question is about a competency of its round that was asked about least, the heaviest of
      these and then the first by key; about none only when the round has none. */
  lemma PrimaryIsAboutLeast(p: Planner, b: Blueprint, elapsedMs: int, r: Round)
    requires Under(p, r) && AsksPrimary(Decide(p, b, elapsedMs))
    ensures var key, cs := Decide(p, b, elapsedMs).target.competencyKey, CompetenciesFor(r.kind, b.competencies);
            && (key.None? <==> cs == [])
            && (key.Some? ==>
                  exists c <- cs :: key.value == c.key && forall y <- cs ::
                    && Asked(p, c.key) <= Asked(p, y.key)
                    && (Asked(p, c.key) == Asked(p, y.key) ==>
                          c.weight > y.weight || (c.weight == y.weight && b.keyRank(c.key) <= b.keyRank(y.key))))
  {
    PickIsLeast(CompetenciesFor(r.kind, b.competencies), p.coverage, b.keyRank);
  }

  /** After an answer, a follow-up is asked exactly when its assessment asked for one, there was an answer,
      the round's depth allows one more, and any time is left; on the competency asked about, if the
      blueprint still has it. */
  lemma FollowUpIff(p: Planner, b: Blueprint, t: Target, questionId: string, a: Assessment, elapsedMs: int, r: Round)
    requires Under(p, r) && RecordQuestion(p, t, questionId).Some?
    ensures RecordAssessment(RecordQuestion(p, t, questionId).value, a).Some?
    ensures var p2 := RecordAssessment(RecordQuestion(p, t, questionId).value, a).value;
            var next := Decide(p2, b, elapsedMs);
            && (AsksFollowUp(next) <==>
                  a.followUpNeeded && a.sufficiency != Some(NO_ANSWER) && t.followUpDepth < r.followUpDepth && TimeLeft(r, elapsedMs, 1))
            && (AsksFollowUp(next) ==>
                  next.target.competencyKey ==
                  if t.competencyKey.Some? && t.competencyKey.value != "" && exists c <- b.competencies :: c.key == t.competencyKey.value
                  then t.competencyKey else None)
  {
  }

  // ---- A whole round -----------------------------------------------------------------------------

  /** The primary questions among those asked. */
  function PrimariesIn(p: Planner, b: Blueprint, turns: seq<Turn>): nat
    decreases |turns|
  {
    if turns == [] then 0
    else (if Asks(p, b, turns[0]) && AsksPrimary(Decide(p, b, turns[0].elapsedMs)) then 1 else 0) + PrimariesIn(Take(p, b, turns[0]), b, turns[1..])
  }

  /** The same round, with `n` primary questions more. */
  predicate Further(r: Round, r': Round, n: nat) {
    && r'.state == r.state && r'.startedAtMs == r.startedAtMs && r'.budgetMs == r.budgetMs
    && r'.questionCount == r.questionCount && r'.primaryAsked == r.primaryAsked + n
  }

  lemma TurnGoesFurther(p: Planner, b: Blueprint, turn: Turn, r: Round)
    requires PlanOk(p) && Under(p, r) && InRound(turn)
    ensures var p' := Take(p, b, turn);
            && PlanOk(p') && Under(p', p'.rounds[p.roundIdx])
            && Further(r, p'.rounds[p.roundIdx], if Asks(p, b, turn) && AsksPrimary(Decide(p, b, turn.elapsedMs)) then 1 else 0)
  {
    var asked := UsedBefore(p.rounds, |p.rounds|) - Slack(p);
    if Asks(p, b, turn) { AskKeepsCount(p, b, turn, asked); } else { OtherKeepsCount(p, b, turn, asked); }
  }

  lemma {:induction false} RoundGoesFurther(p: Planner, b: Blueprint, turns: seq<Turn>, r: Round)
    requires PlanOk(p) && Under(p, r) && forall t <- turns :: InRound(t)
    ensures var p' := TakeAll(p, b, turns);
            PlanOk(p') && p'.roundIdx == p.roundIdx && Under(p', p'.rounds[p.roundIdx])
            && Further(r, p'.rounds[p.roundIdx], PrimariesIn(p, b, turns))
    decreases |turns|
  {
    if turns != [] {
      assert InRound(turns[0]);
      TurnGoesFurther(p, b, turns[0], r);
      InRoundUse(p, b, turns[0]);
      RoundGoesFurther(Take(p, b, turns[0]), b, turns[1..], Take(p, b, turns[0]).rounds[p.roundIdx]);
    }
  }

  /** However a round goes from its start, if it ends by decision with a minute left, all its primary
      questions were asked, and it is completed; if it ends with less, either they were or time ran out. */
  lemma RoundAsksAll(p: Planner, b: Blueprint, turns: seq<Turn>, elapsedMs: int, r: Round)
    requires PlanOk(p) && Under(p, r) && r.primaryAsked == 0 && r.questionCount >= 0 && forall t <- turns :: InRound(t)
    requires Decide(TakeAll(p, b, turns), b, elapsedMs).EndRound?
    ensures var reason := Decide(TakeAll(p, b, turns), b, elapsedMs).reason;
            && (TimeLeft(r, elapsedMs, 60_000) ==> reason.COMPLETED?)
            && (reason.COMPLETED? ==> PrimariesIn(p, b, turns) == r.questionCount)
            && (reason.COMPLETED? || reason.TIMED_OUT?)
            && (reason.TIMED_OUT? ==> !TimeLeft(r, elapsedMs, 60_000))
  {
    RoundGoesFurther(p, b, turns, r);
    var p' := TakeAll(p, b, turns);
    var r' := p'.rounds[p.roundIdx];
    DecisionIff(p', b, elapsedMs, r');
    assert r' in p'.rounds;
  }
}

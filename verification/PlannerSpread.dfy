/** Within a round, questions are spread over its competencies. */
module PlannerSpread {
  import opened Wrappers
  import opened InterviewPlanner
  import opened PlannerRuns

  function Asked(p: Planner, key: string): int { AskedOf(p.coverage, key) }

  /** No competency of the round has been asked about more than `spread` times more than another. */
  ghost predicate SpreadWithin(p: Planner, cs: seq<Competency>, spread: int) {
    forall x, y :: x in cs && y in cs ==> Asked(p, x.key) - Asked(p, y.key) <= spread
  }

  /** The thread's competency is at most one question and its follow-ups ahead. */
  ghost predicate ThreadAhead(p: Planner, cs: seq<Competency>) {
    p.thread.Some? && p.thread.value.competencyKey.Some? && HasKey(cs, p.thread.value.competencyKey.value) ==>
      forall y <- cs :: Asked(p, p.thread.value.competencyKey.value) <= Asked(p, y.key) + 1 + p.thread.value.depth
  }

  function RoundCompetencies(p: Planner, b: Blueprint): seq<Competency>
    requires 0 <= p.roundIdx < |p.rounds|
  {
    CompetenciesFor(p.rounds[p.roundIdx].kind, b.competencies)
  }

  ghost predicate SpreadOk(p: Planner, b: Blueprint, spread: int) {
    && PlanOk(p) && 0 <= p.roundIdx
    && spread >= 1 + p.rounds[p.roundIdx].followUpDepth
    && SpreadWithin(p, RoundCompetencies(p, b), spread)
    && ThreadAhead(p, RoundCompetencies(p, b))
  }

  /** The competency picked has been asked about least; of those it is the heaviest, and of these the
      first by key. */
  lemma {:induction false} PickIsLeast(cs: seq<Competency>, coverage: map<string, Coverage>, rank: string -> int)
    ensures var c := PickCompetency(cs, coverage, rank);
            && (c.None? <==> cs == [])
            && (c.Some? ==> c.value in cs && forall y <- cs ::
                  && AskedOf(coverage, c.value.key) <= AskedOf(coverage, y.key)
                  && (AskedOf(coverage, c.value.key) == AskedOf(coverage, y.key) ==>
                        c.value.weight > y.weight || (c.value.weight == y.weight && rank(c.value.key) <= rank(y.key))))
  {
    if cs != [] { PickIsLeast(cs[1..], coverage, rank); }
  }

  /** Asking about `key` counts one more question for it, unless it is empty, and for no other. */
  lemma CountedOnce(p: Planner, t: Target, questionId: string, key: string)
    requires RecordQuestion(p, t, questionId).Some?
    ensures var p' := RecordQuestion(p, t, questionId).value;
            Asked(p', key) == Asked(p, key) + if t.competencyKey == Some(key) && key != "" then 1 else 0
  {
  }

  lemma PrimaryKeepsSpread(p: Planner, b: Blueprint, elapsedMs: int, questionId: string, spread: int)
    requires SpreadOk(p, b, spread) && Decide(p, b, elapsedMs).Ask? && Decide(p, b, elapsedMs).target.followUpOf.None?
    requires RecordQuestion(p, Decide(p, b, elapsedMs).target, questionId).Some?
    ensures var p' := RecordQuestion(p, Decide(p, b, elapsedMs).target, questionId).value;
            var cs := RoundCompetencies(p, b);
            SpreadWithin(p', cs, spread) && ThreadAhead(p', cs)
  {
    var t := Decide(p, b, elapsedMs).target;
    var cs := RoundCompetencies(p, b);
    assert p.rounds[p.roundIdx] in p.rounds;
    PickIsLeast(cs, p.coverage, b.keyRank);
    forall c | c in cs ensures Asked(RecordQuestion(p, t, questionId).value, c.key) ==
                               Asked(p, c.key) + if t.competencyKey == Some(c.key) && c.key != "" then 1 else 0
    {
      CountedOnce(p, t, questionId, c.key);
    }
  }

  lemma FollowUpKeepsSpread(p: Planner, b: Blueprint, elapsedMs: int, questionId: string, spread: int)
    requires SpreadOk(p, b, spread) && Decide(p, b, elapsedMs).Ask? && Decide(p, b, elapsedMs).target.followUpOf.Some?
    requires RecordQuestion(p, Decide(p, b, elapsedMs).target, questionId).Some?
    ensures var p' := RecordQuestion(p, Decide(p, b, elapsedMs).target, questionId).value;
            var cs := RoundCompetencies(p, b);
            SpreadWithin(p', cs, spread) && ThreadAhead(p', cs)
  {
    var t := Decide(p, b, elapsedMs).target;
    var cs := RoundCompetencies(p, b);
    DecidedFits(p, b, elapsedMs);
    forall c | c in cs ensures Asked(RecordQuestion(p, t, questionId).value, c.key) ==
                               Asked(p, c.key) + if t.competencyKey == Some(c.key) && c.key != "" then 1 else 0
    {
      CountedOnce(p, t, questionId, c.key);
    }
    assert t.competencyKey.None? || t.competencyKey == p.thread.value.competencyKey;
  }

  lemma AssessedKeepsSpread(p: Planner, b: Blueprint, a: Assessment, spread: int)
    requires SpreadOk(p, b, spread)
    ensures var p' := Take(p, b, Assessed(a));
            SpreadWithin(p', RoundCompetencies(p, b), spread) && ThreadAhead(p', RoundCompetencies(p, b))
  {
    var p' := Take(p, b, Assessed(a));
    forall key ensures Asked(p', key) == Asked(p, key) {}
  }

  lemma TurnKeepsSpread(p: Planner, b: Blueprint, turn: Turn, spread: int)
    requires SpreadOk(p, b, spread) && InRound(turn)
    ensures SpreadOk(Take(p, b, turn), b, spread)
  {
    InRoundUse(p, b, turn);
    SameKind(p, b, turn);
    if turn.AskNext? {
      if Asks(p, b, turn) {
        AskKeepsCount(p, b, turn, UsedBefore(p.rounds, |p.rounds|) - Slack(p));
        if Decide(p, b, turn.elapsedMs).target.followUpOf.None? {
          PrimaryKeepsSpread(p, b, turn.elapsedMs, turn.questionId, spread);
        } else {
          FollowUpKeepsSpread(p, b, turn.elapsedMs, turn.questionId, spread);
        }
      }
    } else {
      OtherKeepsCount(p, b, turn, UsedBefore(p.rounds, |p.rounds|) - Slack(p));
      AssessedKeepsSpread(p, b, turn.assessment, spread);
    }
  }

  lemma SameKind(p: Planner, b: Blueprint, turn: Turn)
    requires InRound(turn) && 0 <= p.roundIdx < |p.rounds|
    ensures var p' := Take(p, b, turn);
            p'.roundIdx == p.roundIdx && |p'.rounds| == |p.rounds|
            && p'.rounds[p.roundIdx].kind == p.rounds[p.roundIdx].kind
            && p'.rounds[p.roundIdx].followUpDepth == p.rounds[p.roundIdx].followUpDepth
  {
  }

  /** From the start of a round, the counts of its competencies never drift further apart than they
      were, or than one question with its follow-ups. */
  lemma {:induction false} QuestionsAreSpread(p: Planner, b: Blueprint, turns: seq<Turn>, spread: int)
    requires SpreadOk(p, b, spread) && forall t <- turns :: InRound(t)
    ensures SpreadOk(TakeAll(p, b, turns), b, spread)
    ensures TakeAll(p, b, turns).roundIdx == p.roundIdx
    decreases |turns|
  {
    if turns != [] {
      assert turns[0] in turns;
      TurnKeepsSpread(p, b, turns[0], spread);
      SameKind(p, b, turns[0]);
      QuestionsAreSpread(Take(p, b, turns[0]), b, turns[1..], spread);
    }
  }

  lemma SpreadFromRoundStart(p: Planner, b: Blueprint, turns: seq<Turn>, initial: int)
    requires PlanOk(p) && 0 <= p.roundIdx && p.thread.None? && forall t <- turns :: InRound(t)
    requires SpreadWithin(p, RoundCompetencies(p, b), initial)
    ensures var depth := p.rounds[p.roundIdx].followUpDepth;
            SpreadWithin(TakeAll(p, b, turns), RoundCompetencies(p, b), if initial > 1 + depth then initial else 1 + depth)
  {
    var depth := p.rounds[p.roundIdx].followUpDepth;
    var spread := if initial > 1 + depth then initial else 1 + depth;
    QuestionsAreSpread(p, b, turns, spread);
    KindsKept(p, b, turns);
  }

  lemma {:induction false} KindsKept(p: Planner, b: Blueprint, turns: seq<Turn>)
    requires 0 <= p.roundIdx < |p.rounds| && forall t <- turns :: InRound(t)
    ensures var p' := TakeAll(p, b, turns);
            p'.roundIdx == p.roundIdx && |p'.rounds| == |p.rounds| && p'.rounds[p.roundIdx].kind == p.rounds[p.roundIdx].kind
    decreases |turns|
  {
    if turns != [] {
      assert turns[0] in turns;
      SameKind(p, b, turns[0]);
      KindsKept(Take(p, b, turns[0]), b, turns[1..]);
    }
  }
}

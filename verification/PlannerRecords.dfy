/** What the planner keeps of an interview: its time, the competencies of a round, the thread of
    follow-ups, verdicts, and which rounds ran. */
module PlannerRecords {
  import opened Wrappers
  import opened InterviewPlanner
  import opened PlannerRuns

  function Seconds(rounds: seq<TemplateRound>): int {
    if rounds == [] then 0 else rounds[0].durationSec + Seconds(rounds[1..])
  }

  lemma {:induction false} BudgetOf(template: seq<TemplateRound>, rounds: seq<Round>)
    requires |rounds| == |template| && forall i :: 0 <= i < |rounds| ==> rounds[i].budgetMs == template[i].durationSec * 1000
    ensures TotalBudget(rounds) == Seconds(template) * 1000
  {
    if rounds != [] { BudgetOf(template[1..], rounds[1..]); }
  }

  /** A plan has the time of its template, in milliseconds. */
  lemma PlanHasTheTemplatesTime(rounds: seq<TemplateRound>, competencies: seq<string>)
    requires rounds != []
    ensures TotalBudget(CreatePlanner(rounds, competencies).value.rounds) == Seconds(rounds) * 1000
  {
    BudgetOf(rounds, CreatePlanner(rounds, competencies).value.rounds);
  }

  /** A plan has its template's rounds, all waiting, and its competencies, none asked about; a template without
      rounds makes none. */
  lemma PlanFollowsTemplate(rounds: seq<TemplateRound>, competencies: seq<string>)
    ensures CreatePlanner(rounds, competencies).None? <==> rounds == []
    ensures rounds != [] ==>
              var p := CreatePlanner(rounds, competencies).value;
              && |p.rounds| == |rounds| && p.roundIdx == -1 && p.thread.None?
              && p.askedCount == 0 && p.answeredCount == 0 && p.probesUsed == []
              && (forall i :: 0 <= i < |rounds| ==>
                    && p.rounds[i].kind == rounds[i].kind && p.rounds[i].budgetMs == rounds[i].durationSec * 1000
                    && p.rounds[i].questionCount == rounds[i].questionCount && p.rounds[i].followUpDepth == rounds[i].followUpDepth
                    && p.rounds[i].state.PENDING? && p.rounds[i].primaryAsked == 0)
              && (forall key: string :: key in p.coverage <==> key in competencies)
              && (forall key <- competencies :: Verdicts(p.coverage[key]) == 0 && p.coverage[key].asked == 0)
  {
  }

  /** The next round starts at the clock's reading, if there is one; one still running is completed, and no
      other round changes. */
  lemma NextRoundStarts(p: Planner, elapsedMs: int)
    ensures StartNextRound(p, elapsedMs).Some? <==> p.roundIdx + 1 < |p.rounds|
    ensures StartNextRound(p, elapsedMs).Some? ==>
              var p' := StartNextRound(p, elapsedMs).value;
              && p'.roundIdx == p.roundIdx + 1 && |p'.rounds| == |p.rounds| && p'.thread.None?
              && p'.rounds[p'.roundIdx] == p.rounds[p'.roundIdx].(state := RUNNING, startedAtMs := Some(elapsedMs))
              && (forall i :: 0 <= i < |p.rounds| && i != p'.roundIdx ==>
                    p'.rounds[i] == if i == p.roundIdx && p.rounds[i].state.RUNNING? then p.rounds[i].(state := COMPLETED) else p.rounds[i])
              && p'.askedCount == p.askedCount && p'.answeredCount == p.answeredCount && p'.coverage == p.coverage
  {
  }

  lemma NamedIs(kind: RoundType, cs: seq<Competency>, c: Competency)
    ensures c in Named(kind, cs) <==> c in cs && kind in c.roundTypes
  {
  }

  lemma InCategoriesIs(cats: seq<Category>, cs: seq<Competency>, c: Competency)
    ensures c in InCategories(cats, cs) <==> c in cs && c.category in cats
  {
  }

  /** A round assesses the competencies that name its type; where none does, those of its categories. */
  lemma RoundAssesses(kind: RoundType, cs: seq<Competency>, c: Competency)
    ensures c in CompetenciesFor(kind, cs) <==>
            && c in cs
            && (if exists other <- cs :: kind in other.roundTypes then kind in c.roundTypes
                else Categories(kind).Some? && c.category in Categories(kind).value)
  {
    NamedIs(kind, cs, c);
    if Categories(kind).Some? { InCategoriesIs(Categories(kind).value, cs, c); }
    if Named(kind, cs) != [] {
      NamedIs(kind, cs, Named(kind, cs)[0]);
    } else if exists other <- cs :: kind in other.roundTypes {
      var other :| other in cs && kind in other.roundTypes;
      NamedIs(kind, cs, other);
    }
  }

  /** A follow-up is to the question just asked and one deeper, only when it was answered and the
      assessment asked for one; the thread's root stays that of its primary question. */
  lemma FollowUpContinuesThread(p: Planner, b: Blueprint, t: Target, questionId: string, a: Assessment, elapsedMs: int)
    requires RecordQuestion(p, t, questionId).Some? && RecordAssessment(RecordQuestion(p, t, questionId).value, a).Some?
    ensures var p2 := RecordAssessment(RecordQuestion(p, t, questionId).value, a).value;
            var next := Decide(p2, b, elapsedMs);
            && p2.thread.Some? && p2.thread.value.lastQuestionId == questionId
            && p2.thread.value.rootQuestionId ==
               (if t.followUpOf.None? || p.thread.None? then questionId else p.thread.value.rootQuestionId)
            && (next.Ask? && next.target.followUpOf.Some? ==>
                  && a.followUpNeeded && a.sufficiency != Some(NO_ANSWER)
                  && next.target.followUpOf.value == questionId && next.target.followUpDepth == t.followUpDepth + 1
                  && (next.target.competencyKey.Some? ==> next.target.competencyKey == t.competencyKey))
  {
  }

  function Verdicts(c: Coverage): int { c.strong + c.adequate + c.weak }

  /** Every verdict on a covered competency counts once, for that competency alone, and is the last;
      evidence only ever grows. */
  lemma EveryVerdictCounts(p: Planner, a: Assessment, key: string)
    requires RecordAssessment(p, a).Some? && key in p.coverage
    ensures var p' := RecordAssessment(p, a).value;
            var mine := a.sufficiency.Some? && p.thread.value.competencyKey == Some(key) && key != "";
            && key in p'.coverage
            && (!mine ==> p'.coverage[key] == p.coverage[key])
            && (mine ==> Verdicts(p'.coverage[key]) == Verdicts(p.coverage[key]) + 1 && p'.coverage[key].last == a.sufficiency)
            && p'.coverage[key].strong - p.coverage[key].strong == (if mine && a.sufficiency == Some(STRONG) then 1 else 0)
            && p'.coverage[key].adequate - p.coverage[key].adequate == (if mine && a.sufficiency == Some(ADEQUATE) then 1 else 0)
            && p'.coverage[key].asked == p.coverage[key].asked
            && |p'.rounds| == |p.rounds|
            && forall i :: 0 <= i < |p.rounds| ==>
                 p'.rounds[i].evidence - p.rounds[i].evidence == if i == p.roundIdx && a.evidenceCount > 0 then a.evidenceCount else 0
  {
  }

  /** The questions counted are those asked. */
  lemma {:induction false} AskedAreCounted(p: Planner, b: Blueprint, turns: seq<Turn>)
    ensures TakeAll(p, b, turns).askedCount == p.askedCount + AskedIn(p, b, turns)
    decreases |turns|
  {
    if turns != [] { AskedAreCounted(Take(p, b, turns[0]), b, turns[1..]); }
  }

  // ---- Which rounds ran --------------------------------------------------------------------------

  /** A round that never started waits or was skipped; rounds start in order. */
  ghost predicate Marked(p: Planner) {
    && p.roundIdx < |p.rounds|
    && (forall r <- p.rounds :: r.startedAtMs.None? <==> r.state.PENDING? || r.state.SKIPPED?)
    && (forall i :: 0 <= i < |p.rounds| ==> (i <= p.roundIdx <==> p.rounds[i].startedAtMs.Some?))
  }

  /** Rounds end completed or timed out. */
  predicate EndsWell(turn: Turn) { turn.EndRoundNow? ==> turn.outcome.COMPLETED? || turn.outcome.TIMED_OUT? }

  lemma EndKeepsMarked(p: Planner, outcome: RoundState)
    requires Marked(p) && (outcome.COMPLETED? || outcome.TIMED_OUT?)
    ensures Marked(EndCurrentRound(p, outcome))
  {
    if CurrentRound(p).Some? { assert p.rounds[p.roundIdx] in p.rounds; }
  }

  lemma RecordKeepsMarked(p: Planner, b: Blueprint, turn: Turn)
    requires Marked(p) && (turn.AskNext? || turn.Assessed?)
    ensures Marked(Take(p, b, turn))
  {
    if CurrentRound(p).Some? { assert p.rounds[p.roundIdx] in p.rounds; }
  }

  lemma TakeKeepsMarked(p: Planner, b: Blueprint, turn: Turn)
    requires Marked(p) && EndsWell(turn)
    ensures Marked(Take(p, b, turn))
  {
    match turn
    case EndRoundNow(outcome) => EndKeepsMarked(p, outcome);
    case NextRound(_) => EndKeepsMarked(p, COMPLETED);
    case SkipRest =>
      var p' := SkipRemaining(p);
      forall r | r in p'.rounds ensures r.startedAtMs.None? <==> r.state.PENDING? || r.state.SKIPPED? {
        var i :| 0 <= i < |p'.rounds| && p'.rounds[i] == r;
        assert p.rounds[i] in p.rounds;
      }
    case _ => RecordKeepsMarked(p, b, turn);
  }

  lemma {:induction false} RunKeepsMarked(p: Planner, b: Blueprint, turns: seq<Turn>)
    requires Marked(p) && forall t <- turns :: EndsWell(t)
    ensures Marked(TakeAll(p, b, turns))
    decreases |turns|
  {
    if turns != [] {
      assert EndsWell(turns[0]);
      TakeKeepsMarked(p, b, turns[0]);
      RunKeepsMarked(Take(p, b, turns[0]), b, turns[1..]);
    }
  }

  /** In every plan that is run, rounds start in order, and a round is skipped only if it never started. */
  lemma SkippedNeverStarted(rounds: seq<TemplateRound>, competencies: seq<string>, b: Blueprint, turns: seq<Turn>, i: nat)
    requires rounds != [] && i < |rounds| && forall t <- turns :: EndsWell(t)
    ensures var p := TakeAll(CreatePlanner(rounds, competencies).value, b, turns);
            && i < |p.rounds|
            && (p.rounds[i].state.PENDING? || p.rounds[i].state.SKIPPED? <==> p.rounds[i].startedAtMs.None?)
            && (p.rounds[i].startedAtMs.Some? <==> i <= p.roundIdx)
  {
    var p := CreatePlanner(rounds, competencies).value;
    assert forall k :: 0 <= k < |p.rounds| ==> p.rounds[k].startedAtMs.None? && p.rounds[k].state.PENDING?;
    RunKeepsMarked(p, b, turns);
    SameLength(p, b, turns);
    assert TakeAll(p, b, turns).rounds[i] in TakeAll(p, b, turns).rounds;
  }

  lemma {:induction false} SameLength(p: Planner, b: Blueprint, turns: seq<Turn>)
    ensures |TakeAll(p, b, turns).rounds| == |p.rounds|
    decreases |turns|
  {
    if turns != [] { SameLength(Take(p, b, turns[0]), b, turns[1..]); }
  }
}

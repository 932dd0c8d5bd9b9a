/** The ask and assess loop of the planner: it ends, repeats no probe, and spreads its questions. */
module PlannerRuns {
  import opened Wrappers
  import opened InterviewPlanner

  /** Everything that moves a plan: asking what `Decide` says, assessments in any number, and round changes. */
  datatype Turn =
    | AskNext(elapsedMs: int, questionId: string)
    | Assessed(assessment: Assessment)
    | EndRoundNow(outcome: RoundState)
    | NextRound(elapsedMs: int)
    | SkipRest

  function Take(p: Planner, b: Blueprint, turn: Turn): Planner {
    match turn
    case AskNext(elapsedMs, questionId) =>
      var next := Decide(p, b, elapsedMs);
      if next.Ask? then RecordQuestion(p, next.target, questionId).GetOr(p) else p
    case Assessed(a) => RecordAssessment(p, a).GetOr(p)
    case EndRoundNow(outcome) => EndCurrentRound(p, outcome)
    case NextRound(elapsedMs) => StartNextRound(p, elapsedMs).GetOr(p)
    case SkipRest => SkipRemaining(p)
  }

  function TakeAll(p: Planner, b: Blueprint, turns: seq<Turn>): Planner
    decreases |turns|
  {
    if turns == [] then p else TakeAll(Take(p, b, turns[0]), b, turns[1..])
  }

  /** Whether this turn asks a question. */
  predicate Asks(p: Planner, b: Blueprint, turn: Turn) {
    turn.AskNext? && Decide(p, b, turn.elapsedMs).Ask? &&
    RecordQuestion(p, Decide(p, b, turn.elapsedMs).target, turn.questionId).Some?
  }

  // ---- How many questions ----------------------------------------------------------------------

  /** What a round allows: its primary questions, each with its follow-ups. */
  function Cap(r: Round): int { r.questionCount * (1 + r.followUpDepth) }

  /** What the primary questions asked so far allow. */
  function Used(r: Round): int { r.primaryAsked * (1 + r.followUpDepth) }

  predicate RoundOk(r: Round) { r.followUpDepth >= 0 && 0 <= r.primaryAsked && (r.questionCount >= 0 ==> r.primaryAsked <= r.questionCount) }

  /** A thread is the current round's, and a follow-up is pending only while the depth allows one. */
  predicate ThreadOk(p: Planner) {
    p.thread.Some? ==>
      && 0 <= p.roundIdx < |p.rounds|
      && 0 <= p.thread.value.depth <= p.rounds[p.roundIdx].followUpDepth
      && (p.thread.value.pendingFollowUp ==> p.thread.value.depth < p.rounds[p.roundIdx].followUpDepth)
  }

  predicate PlanOk(p: Planner) {
    p.roundIdx < |p.rounds| && (forall r <- p.rounds :: RoundOk(r)) && ThreadOk(p)
  }

  /** Follow-ups the current thread may still ask. */
  function Slack(p: Planner): int
    requires ThreadOk(p)
  {
    if p.thread.Some? then p.rounds[p.roundIdx].followUpDepth - p.thread.value.depth else 0
  }

  function UsedBefore(rounds: seq<Round>, n: nat): int
    requires n <= |rounds|
  {
    if n == 0 then 0 else UsedBefore(rounds, n - 1) + Used(rounds[n - 1])
  }

  function CapBefore(rounds: seq<Round>, n: nat): int
    requires n <= |rounds|
  {
    if n == 0 then 0 else CapBefore(rounds, n - 1) + Cap(rounds[n - 1])
  }

  lemma UsedUpdate(rounds: seq<Round>, i: nat, r: Round, n: nat)
    requires i < |rounds| && n <= |rounds|
    ensures UsedBefore(rounds[i := r], n) == UsedBefore(rounds, n) + if i < n then Used(r) - Used(rounds[i]) else 0
  {
    if n > 0 { UsedUpdate(rounds, i, r, n - 1); }
  }

  lemma UsedWithinCap(rounds: seq<Round>, n: nat)
    requires n <= |rounds| && forall r <- rounds :: RoundOk(r) && r.questionCount >= 0
    ensures UsedBefore(rounds, n) <= CapBefore(rounds, n)
  {
    if n > 0 {
      UsedWithinCap(rounds, n - 1);
      var r := rounds[n - 1];
      assert r in rounds;
      UsedIsLess(r.primaryAsked, r.questionCount, 1 + r.followUpDepth);
    }
  }

  lemma UsedIsLess(a: int, b: int, k: int)
    requires a <= b && k >= 0
    ensures a * k <= b * k
  {
  }

  /** The questions asked are within what the primary questions asked so far allow. */
  ghost predicate CountOk(p: Planner, asked: int) {
    PlanOk(p) && asked <= UsedBefore(p.rounds, |p.rounds|) - Slack(p)
  }

  lemma OneMore(r: Round)
    ensures Used(r.(primaryAsked := r.primaryAsked + 1)) == Used(r) + 1 + r.followUpDepth
  {
  }

  /** What was decided to ask is a follow-up the depth allows, or a primary question the count allows; with
      less than a minute left it is no primary question but the first. */
  lemma DecidedFits(p: Planner, b: Blueprint, elapsedMs: int)
    requires PlanOk(p) && Decide(p, b, elapsedMs).Ask?
    ensures 0 <= p.roundIdx
    ensures var t, r := Decide(p, b, elapsedMs).target, p.rounds[p.roundIdx];
            if t.followUpOf.Some?
            then p.thread.Some? && t.followUpDepth == p.thread.value.depth + 1 <= r.followUpDepth
            else t.followUpDepth == 0 && r.primaryAsked < r.questionCount
                 && (r.primaryAsked > 0 ==> RoundRemainingMs(p, elapsedMs) >= 60_000)
  {
  }

  lemma AskKeepsCount(p: Planner, b: Blueprint, turn: Turn, asked: int)
    requires CountOk(p, asked) && Asks(p, b, turn)
    ensures CountOk(Take(p, b, turn), asked + 1)
  {
    DecidedFits(p, b, turn.elapsedMs);
    var t := Decide(p, b, turn.elapsedMs).target;
    var r := p.rounds[p.roundIdx];
    assert r in p.rounds;
    var r' := r.(primaryAsked := r.primaryAsked + if t.followUpOf.Some? then 0 else 1);
    OneMore(r);
    UsedUpdate(p.rounds, p.roundIdx, r', |p.rounds|);
  }

  lemma SameUse(a: seq<Round>, b: seq<Round>, n: nat)
    requires n <= |a| == |b| && forall i :: 0 <= i < |a| ==> Used(a[i]) == Used(b[i])
    ensures UsedBefore(a, n) == UsedBefore(b, n)
  {
  }

  predicate SameCounts(a: Round, b: Round) {
    a.primaryAsked == b.primaryAsked && a.questionCount == b.questionCount && a.followUpDepth == b.followUpDepth
  }

  lemma OtherKeepsCount(p: Planner, b: Blueprint, turn: Turn, asked: int)
    requires CountOk(p, asked) && !Asks(p, b, turn)
    ensures CountOk(Take(p, b, turn), asked)
  {
    var p' := Take(p, b, turn);
    assert |p'.rounds| == |p.rounds| && forall i :: 0 <= i < |p.rounds| ==> SameCounts(p.rounds[i], p'.rounds[i]);
    forall r | r in p'.rounds ensures RoundOk(r) {
      var i :| 0 <= i < |p'.rounds| && p'.rounds[i] == r;
      assert p.rounds[i] in p.rounds;
    }
    SameUse(p.rounds, p'.rounds, |p.rounds|);
  }

  function AskedIn(p: Planner, b: Blueprint, turns: seq<Turn>): nat
    decreases |turns|
  {
    if turns == [] then 0 else (if Asks(p, b, turns[0]) then 1 else 0) + AskedIn(Take(p, b, turns[0]), b, turns[1..])
  }

  predicate SamePlan(p: Planner, p': Planner) {
    |p'.rounds| == |p.rounds| && forall i :: 0 <= i < |p.rounds| ==>
      p'.rounds[i].questionCount == p.rounds[i].questionCount && p'.rounds[i].followUpDepth == p.rounds[i].followUpDepth
  }

  lemma TakeKeepsPlan(p: Planner, b: Blueprint, turn: Turn)
    ensures SamePlan(p, Take(p, b, turn))
  {
  }

  lemma {:induction false} RunKeepsCount(p: Planner, b: Blueprint, turns: seq<Turn>, asked: int)
    requires CountOk(p, asked)
    ensures CountOk(TakeAll(p, b, turns), asked + AskedIn(p, b, turns)) && SamePlan(p, TakeAll(p, b, turns))
    decreases |turns|
  {
    if turns != [] {
      TakeKeepsPlan(p, b, turns[0]);
      if Asks(p, b, turns[0]) {
        AskKeepsCount(p, b, turns[0], asked);
        RunKeepsCount(Take(p, b, turns[0]), b, turns[1..], asked + 1);
      } else {
        OtherKeepsCount(p, b, turns[0], asked);
        RunKeepsCount(Take(p, b, turns[0]), b, turns[1..], asked);
      }
    }
  }

  lemma CapsOf(a: seq<Round>, b: seq<Round>, n: nat)
    requires n <= |a| == |b|
    requires forall i :: 0 <= i < |a| ==> a[i].questionCount == b[i].questionCount && a[i].followUpDepth == b[i].followUpDepth
    ensures CapBefore(a, n) == CapBefore(b, n)
  {
  }

  predicate TemplateOk(rounds: seq<TemplateRound>) {
    forall r <- rounds :: r.questionCount >= 0 && r.followUpDepth >= 0
  }

  lemma UnusedPlan(rounds: seq<Round>, n: nat)
    requires n <= |rounds| && forall r <- rounds :: r.primaryAsked == 0
    ensures UsedBefore(rounds, n) == 0
  {
    if n > 0 {
      UnusedPlan(rounds, n - 1);
      assert rounds[n - 1] in rounds;
    }
  }

  lemma NewPlanOk(rounds: seq<TemplateRound>, competencies: seq<string>)
    requires rounds != [] && TemplateOk(rounds)
    ensures CountOk(CreatePlanner(rounds, competencies).value, 0)
    ensures forall r <- CreatePlanner(rounds, competencies).value.rounds :: r.questionCount >= 0
  {
    var p := CreatePlanner(rounds, competencies).value;
    assert forall i :: 0 <= i < |p.rounds| ==> rounds[i] in rounds && p.rounds[i].primaryAsked == 0;
    UnusedPlan(p.rounds, |p.rounds|);
  }

  /** However a plan is run, it asks at most each round's questions times one more than its follow-up
      depth, summed over the rounds: the loop ends. */
  lemma QuestionsAreBounded(rounds: seq<TemplateRound>, competencies: seq<string>, b: Blueprint, turns: seq<Turn>)
    requires rounds != [] && TemplateOk(rounds)
    ensures var p := CreatePlanner(rounds, competencies).value;
            AskedIn(p, b, turns) <= CapBefore(p.rounds, |p.rounds|)
  {
    var p := CreatePlanner(rounds, competencies).value;
    NewPlanOk(rounds, competencies);
    RunKeepsCount(p, b, turns, 0);
    var p' := TakeAll(p, b, turns);
    forall r | r in p'.rounds ensures r.questionCount >= 0 {
      var i :| 0 <= i < |p'.rounds| && p'.rounds[i] == r;
      assert p.rounds[i] in p.rounds;
    }
    UsedWithinCap(p'.rounds, |p'.rounds|);
    CapsOf(p.rounds, p'.rounds, |p.rounds|);
  }

  // ---- One round -------------------------------------------------------------------------------

  predicate InRound(turn: Turn) { turn.AskNext? || turn.Assessed? }

  /** Only the current round's use changes while it runs. */
  lemma InRoundUse(p: Planner, b: Blueprint, turn: Turn)
    requires InRound(turn) && 0 <= p.roundIdx < |p.rounds|
    ensures var p' := Take(p, b, turn);
            p'.roundIdx == p.roundIdx && |p'.rounds| == |p.rounds|
            && forall i :: 0 <= i < |p.rounds| && i != p.roundIdx ==> p'.rounds[i] == p.rounds[i]
  {
  }

  lemma {:induction false} RoundKeeps(p: Planner, b: Blueprint, turns: seq<Turn>)
    requires (forall t <- turns :: InRound(t)) && 0 <= p.roundIdx < |p.rounds|
    ensures var p' := TakeAll(p, b, turns);
            p'.roundIdx == p.roundIdx && |p'.rounds| == |p.rounds|
            && forall i :: 0 <= i < |p.rounds| && i != p.roundIdx ==> p'.rounds[i] == p.rounds[i]
    decreases |turns|
  {
    if turns != [] {
      assert turns[0] in turns;
      InRoundUse(p, b, turns[0]);
      RoundKeeps(Take(p, b, turns[0]), b, turns[1..]);
    }
  }

  /** A round that has just started asks at most its question count times one more than its follow-up depth. */
  lemma RoundIsBounded(p: Planner, b: Blueprint, turns: seq<Turn>)
    requires PlanOk(p) && p.thread.None? && 0 <= p.roundIdx && p.rounds[p.roundIdx].primaryAsked == 0
    requires p.rounds[p.roundIdx].questionCount >= 0 && forall t <- turns :: InRound(t)
    ensures AskedIn(p, b, turns) <= Cap(p.rounds[p.roundIdx])
  {
    var before := UsedBefore(p.rounds, |p.rounds|);
    RunKeepsCount(p, b, turns, before);
    RoundKeeps(p, b, turns);
    var p' := TakeAll(p, b, turns);
    var r' := p'.rounds[p.roundIdx];
    assert p'.rounds == p.rounds[p.roundIdx := r'] && r' in p'.rounds;
    UsedUpdate(p.rounds, p.roundIdx, r', |p.rounds|);
    UsedIsLess(r'.primaryAsked, r'.questionCount, 1 + r'.followUpDepth);
  }

  // ---- Probe topics ----------------------------------------------------------------------------

  ghost predicate Distinct(topics: seq<string>) {
    forall i, j :: 0 <= i < j < |topics| ==> topics[i] != topics[j]
  }

  lemma UnusedIsNew(topics: seq<string>, used: seq<string>)
    ensures FirstUnused(topics, used).Some? ==> FirstUnused(topics, used).value !in used
  {
  }

  lemma TakeKeepsProbes(p: Planner, b: Blueprint, turn: Turn)
    requires Distinct(p.probesUsed)
    ensures Distinct(Take(p, b, turn).probesUsed) && p.probesUsed <= Take(p, b, turn).probesUsed
  {
    UnusedIsNew(b.probeTopics, p.probesUsed);
  }

  /** No probe topic is used twice in an interview, and none is forgotten. */
  lemma {:induction false} ProbesAreNotRepeated(p: Planner, b: Blueprint, turns: seq<Turn>)
    requires Distinct(p.probesUsed)
    ensures Distinct(TakeAll(p, b, turns).probesUsed) && p.probesUsed <= TakeAll(p, b, turns).probesUsed
    decreases |turns|
  {
    if turns != [] {
      TakeKeepsProbes(p, b, turns[0]);
      ProbesAreNotRepeated(Take(p, b, turns[0]), b, turns[1..]);
    }
  }

  /** The topic that this turn's question probes, if it asks one that does. */
  function TopicAsked(p: Planner, b: Blueprint, turn: Turn): seq<string> {
    if Asks(p, b, turn) && Decide(p, b, turn.elapsedMs).target.probeTopic.Some?
    then [Decide(p, b, turn.elapsedMs).target.probeTopic.value] else []
  }

  /** The topics of all questions asked, in order. */
  function ProbesAsked(p: Planner, b: Blueprint, turns: seq<Turn>): seq<string>
    decreases |turns|
  {
    if turns == [] then [] else TopicAsked(p, b, turns[0]) + ProbesAsked(Take(p, b, turns[0]), b, turns[1..])
  }

  lemma TopicIsRemembered(p: Planner, b: Blueprint, turn: Turn)
    requires forall topic <- b.probeTopics :: topic != ""
    ensures Take(p, b, turn).probesUsed == p.probesUsed + TopicAsked(p, b, turn)
  {
    UnusedIsListed(b.probeTopics, p.probesUsed);
  }

  lemma {:induction false} ProbesAreRemembered(p: Planner, b: Blueprint, turns: seq<Turn>)
    requires forall topic <- b.probeTopics :: topic != ""
    ensures TakeAll(p, b, turns).probesUsed == p.probesUsed + ProbesAsked(p, b, turns)
    decreases |turns|
  {
    hide Take, TopicAsked;
    if turns == [] {
      assert p.probesUsed + [] == p.probesUsed;
    } else {
      TopicIsRemembered(p, b, turns[0]);
      ProbesAreRemembered(Take(p, b, turns[0]), b, turns[1..]);
      var topic, rest := TopicAsked(p, b, turns[0]), ProbesAsked(Take(p, b, turns[0]), b, turns[1..]);
      assert p.probesUsed + topic + rest == p.probesUsed + (topic + rest);
    }
  }

  /** No two questions of an interview probe the same topic, so long as topics have names. */
  lemma EachTopicOnce(p: Planner, b: Blueprint, turns: seq<Turn>)
    requires p.probesUsed == [] && forall topic <- b.probeTopics :: topic != ""
    ensures Distinct(ProbesAsked(p, b, turns))
  {
    ProbesAreRemembered(p, b, turns);
    ProbesAreNotRepeated(p, b, turns);
    assert [] + ProbesAsked(p, b, turns) == ProbesAsked(p, b, turns);
  }

  // ---- What is asked -----------------------------------------------------------------------------

  lemma UnusedIsListed(topics: seq<string>, used: seq<string>)
    ensures FirstUnused(topics, used).Some? ==> FirstUnused(topics, used).value in topics
    ensures FirstUnused(topics, used).None? <==> forall t <- topics :: t in used
  {
  }

  /** A probe is a topic of the blueprint not used yet, for a primary question after the first of a
      round that probes; such a question goes without one only when every topic is used. */
  lemma ProbesWhenItCan(p: Planner, b: Blueprint, elapsedMs: int)
    requires PlanOk(p) && Decide(p, b, elapsedMs).Ask?
    ensures 0 <= p.roundIdx
    ensures var t, r := Decide(p, b, elapsedMs).target, p.rounds[p.roundIdx];
            && (t.probeTopic.Some? ==> t.probeTopic.value in b.probeTopics && t.probeTopic.value !in p.probesUsed)
            && (t.probeTopic.Some? <==>
                && t.followUpOf.None? && r.kind in {TECHNICAL, PROBLEM_SOLVING, CODING} && r.primaryAsked > 0
                && exists topic <- b.probeTopics :: topic !in p.probesUsed)
  {
    UnusedIsNew(b.probeTopics, p.probesUsed);
    UnusedIsListed(b.probeTopics, p.probesUsed);
  }

  /** A round that starts with a question planned asks one as long as any of its time is left. */
  lemma EveryRoundAsks(p: Planner, b: Blueprint, startedMs: int, elapsedMs: int)
    requires PlanOk(p) && StartNextRound(p, startedMs).Some?
    requires var r := p.rounds[p.roundIdx + 1]; r.questionCount > 0 && r.primaryAsked == 0
    ensures var p' := StartNextRound(p, startedMs).value;
            Decide(p', b, elapsedMs).Ask? <==> elapsedMs < startedMs + p.rounds[p.roundIdx + 1].budgetMs
  {
  }

  /** An assessment that was taken in and was not for a missing answer. */
  predicate Answers(p: Planner, turn: Turn) {
    turn.Assessed? && RecordAssessment(p, turn.assessment).Some? && turn.assessment.sufficiency != Some(NO_ANSWER)
  }

  function AnsweredIn(p: Planner, b: Blueprint, turns: seq<Turn>): nat
    decreases |turns|
  {
    if turns == [] then 0 else (if Answers(p, turns[0]) then 1 else 0) + AnsweredIn(Take(p, b, turns[0]), b, turns[1..])
  }

  /** The answers counted, on which the credit depends, are the assessments of questions answered. */
  lemma {:induction false} AnswersAreCounted(p: Planner, b: Blueprint, turns: seq<Turn>)
    ensures TakeAll(p, b, turns).answeredCount == p.answeredCount + AnsweredIn(p, b, turns)
    decreases |turns|
  {
    if turns != [] { AnswersAreCounted(Take(p, b, turns[0]), b, turns[1..]); }
  }
}

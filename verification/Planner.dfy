/** The question planner: which round runs, what is asked next, and what is recorded. */
module InterviewPlanner {
  import opened Wrappers

  datatype RoundState = PENDING | RUNNING | COMPLETED | SKIPPED | TIMED_OUT

  datatype RoundType = INTRO | TECHNICAL | CODING | PROBLEM_SOLVING | SYSTEM_DESIGN | BEHAVIORAL | WRAP_UP

  datatype Category = CatTechnical | CatDomain | CatProblemSolving | CatBehavioral | CatCommunication

  datatype Round = Round(
    kind: RoundType, budgetMs: int, questionCount: int, followUpDepth: int,
    state: RoundState, startedAtMs: Option<int>, primaryAsked: int, evidence: int)

  datatype Sufficiency = STRONG | ADEQUATE | WEAK | NO_ANSWER

  datatype Coverage = Coverage(asked: int, strong: int, adequate: int, weak: int, last: Option<Sufficiency>)

  /** The angle of a follow-up is text; only that one is pending matters here. */
  datatype Thread = Thread(competencyKey: Option<string>, rootQuestionId: string, lastQuestionId: string, depth: int, pendingFollowUp: bool)

  /** Before any round there is none: -1. */
  type RoundIndex = i: int | i >= -1 witness -1

  datatype Planner = Planner(
    roundIdx: RoundIndex, rounds: seq<Round>, coverage: map<string, Coverage>, thread: Option<Thread>,
    probesUsed: seq<string>, askedCount: int, answeredCount: int)

  const NO_COVERAGE := Coverage(0, 0, 0, 0, None)

  /** One minute: with less, no further primary question is begun. */
  const MIN_QUESTION_MS := 60_000

  datatype TemplateRound = TemplateRound(kind: RoundType, durationSec: int, questionCount: int, followUpDepth: int)

  /** A new plan; None when the template has no round. */
  function CreatePlanner(rounds: seq<TemplateRound>, competencies: seq<string>): Option<Planner> {
    if rounds == [] then None
    else Some(Planner(
      -1,
      seq(|rounds|, i requires 0 <= i < |rounds| =>
        Round(rounds[i].kind, rounds[i].durationSec * 1000, rounds[i].questionCount, rounds[i].followUpDepth, PENDING, None, 0, 0)),
      map key | key in competencies :: NO_COVERAGE,
      None, [], 0, 0))
  }

  // ---- Rounds --------------------------------------------------------------------------------

  function CurrentRound(p: Planner): Option<Round> {
    if 0 <= p.roundIdx < |p.rounds| then Some(p.rounds[p.roundIdx]) else None
  }

  predicate HasNextRound(p: Planner) { p.roundIdx + 1 < |p.rounds| }

  function TotalBudget(rounds: seq<Round>): int {
    if rounds == [] then 0 else rounds[0].budgetMs + TotalBudget(rounds[1..])
  }

  function EndCurrentRound(p: Planner, outcome: RoundState): Planner {
    var round := CurrentRound(p);
    if round.None? || !round.value.state.RUNNING? then p
    else p.(rounds := p.rounds[p.roundIdx := round.value.(state := outcome)], thread := None)
  }

  /** Moves on to the next round, if there is one, whose time begins at this clock reading. */
  function StartNextRound(p: Planner, elapsedMs: int): Option<Planner> {
    if !HasNextRound(p) then None
    else
      var ended := EndCurrentRound(p, COMPLETED);
      var idx := ended.roundIdx + 1;
      Some(ended.(
        rounds := ended.rounds[idx := ended.rounds[idx].(state := RUNNING, startedAtMs := Some(elapsedMs))],
        roundIdx := idx,
        thread := None))
  }

  function SkipRemaining(p: Planner): Planner {
    p.(thread := None,
       rounds := seq(|p.rounds|, i requires 0 <= i < |p.rounds| =>
         if p.rounds[i].state.PENDING? then p.rounds[i].(state := SKIPPED) else p.rounds[i]))
  }

  function RoundRemainingMs(p: Planner, elapsedMs: int): int {
    var round := CurrentRound(p);
    if round.None? || round.value.startedAtMs.None? then 0
    else
      var left := round.value.budgetMs - (elapsedMs - round.value.startedAtMs.value);
      if left > 0 then left else 0
  }

  // ---- What to ask next ----------------------------------------------------------------------

  datatype Competency = Competency(key: string, weight: int, roundTypes: seq<RoundType>, category: Category)

  /** The order in which keys sort (`localeCompare`), taken as given. */
  datatype Blueprint = Blueprint(competencies: seq<Competency>, probeTopics: seq<string>, keyRank: string -> int)

  datatype Target = Target(
    roundIdx: int, competencyKey: Option<string>, followUpOf: Option<string>, followUpDepth: int, probeTopic: Option<string>)

  datatype NextStep = Ask(target: Target) | EndRound(reason: RoundState) | NoActiveRound

  function Categories(kind: RoundType): Option<seq<Category>> {
    match kind
    case TECHNICAL => Some([CatTechnical, CatDomain])
    case CODING => Some([CatTechnical])
    case PROBLEM_SOLVING => Some([CatProblemSolving, CatTechnical])
    case SYSTEM_DESIGN => Some([CatTechnical, CatProblemSolving])
    case BEHAVIORAL => Some([CatBehavioral, CatCommunication])
    case _ => None
  }

  function Named(kind: RoundType, cs: seq<Competency>): seq<Competency> {
    if cs == [] then []
    else (if kind in cs[0].roundTypes then [cs[0]] else []) + Named(kind, cs[1..])
  }

  function InCategories(cats: seq<Category>, cs: seq<Competency>): seq<Competency> {
    if cs == [] then []
    else (if cs[0].category in cats then [cs[0]] else []) + InCategories(cats, cs[1..])
  }

  /** What a round is about: competencies that name its type come before those of its categories. */
  function CompetenciesFor(kind: RoundType, cs: seq<Competency>): seq<Competency> {
    var named := Named(kind, cs);
    if named != [] then named
    else if Categories(kind).Some? then InCategories(Categories(kind).value, cs) else []
  }

  function AskedOf(coverage: map<string, Coverage>, key: string): int {
    if key in coverage then coverage[key].asked else 0
  }

  /** Whether `a` is to be asked about rather than `b`. */
  predicate Before(a: Competency, b: Competency, coverage: map<string, Coverage>, rank: string -> int) {
    var x, y := AskedOf(coverage, a.key), AskedOf(coverage, b.key);
    x < y || (x == y && (a.weight > b.weight || (a.weight == b.weight && rank(a.key) < rank(b.key))))
  }

  /** The first in sorted order: no later candidate comes strictly before it. */
  function PickCompetency(cs: seq<Competency>, coverage: map<string, Coverage>, rank: string -> int): Option<Competency> {
    if cs == [] then None
    else
      var rest := PickCompetency(cs[1..], coverage, rank);
      if rest.Some? && Before(rest.value, cs[0], coverage, rank) then rest else Some(cs[0])
  }

  function FirstUnused(topics: seq<string>, used: seq<string>): Option<string> {
    if topics == [] then None
    else if topics[0] !in used then Some(topics[0])
    else FirstUnused(topics[1..], used)
  }

  predicate ProbeRound(kind: RoundType) { kind in {TECHNICAL, PROBLEM_SOLVING, CODING} }

  predicate HasKey(cs: seq<Competency>, key: string) { exists c <- cs :: c.key == key }

  function Decide(p: Planner, b: Blueprint, elapsedMs: int): NextStep {
    var current := CurrentRound(p);
    if current.None? || !current.value.state.RUNNING? then NoActiveRound
    else
      var round := current.value;
      var remaining := RoundRemainingMs(p, elapsedMs);
      if remaining <= 0 then EndRound(TIMED_OUT)
      else if p.thread.Some? && p.thread.value.pendingFollowUp then
        var t := p.thread.value;
        var key := if t.competencyKey.Some? && t.competencyKey.value != "" && HasKey(b.competencies, t.competencyKey.value) then t.competencyKey else None;
        Ask(Target(p.roundIdx, key, Some(t.lastQuestionId), t.depth + 1, None))
      else if round.primaryAsked >= round.questionCount then EndRound(COMPLETED)
      else if round.primaryAsked > 0 && remaining < MIN_QUESTION_MS then EndRound(TIMED_OUT)
      else
        var c := PickCompetency(CompetenciesFor(round.kind, b.competencies), p.coverage, b.keyRank);
        var probe := if ProbeRound(round.kind) && round.primaryAsked > 0 then FirstUnused(b.probeTopics, p.probesUsed) else None;
        Ask(Target(p.roundIdx, if c.Some? then Some(c.value.key) else None, None, 0, probe))
  }

  // ---- Recording -----------------------------------------------------------------------------

  /** Notes a question that was put to the candidate. None for one that another round decided on. */
  function RecordQuestion(p: Planner, target: Target, questionId: string): Option<Planner> {
    var current := CurrentRound(p);
    if current.None? || !current.value.state.RUNNING? || target.roundIdx != p.roundIdx then None
    else
      var round := current.value;
      var isFollowUp := target.followUpOf.Some?;
      var coverage :=
        // An empty key is falsy: nothing is covered.
        if target.competencyKey.Some? && target.competencyKey.value != "" then
          var key := target.competencyKey.value;
          var prev := if key in p.coverage then p.coverage[key] else NO_COVERAGE;
          p.coverage[key := prev.(asked := prev.asked + 1)]
        else p.coverage;
      var probe := if isFollowUp then None else target.probeTopic;
      Some(Planner(
        p.roundIdx,
        p.rounds[p.roundIdx := round.(primaryAsked := round.primaryAsked + if isFollowUp then 0 else 1)],
        coverage,
        Some(Thread(
          target.competencyKey,
          if isFollowUp && p.thread.Some? then p.thread.value.rootQuestionId else questionId,
          questionId, target.followUpDepth, false)),
        if probe.Some? && probe.value != "" then p.probesUsed + [probe.value] else p.probesUsed,
        p.askedCount + 1,
        p.answeredCount))
  }

  /** A verdict, or None for an answer that could not be assessed. */
  datatype Assessment = Assessment(sufficiency: Option<Sufficiency>, followUpNeeded: bool, evidenceCount: int)

  function Covered(c: Coverage, s: Sufficiency): Coverage {
    c.(strong := c.strong + if s.STRONG? then 1 else 0,
       adequate := c.adequate + if s.ADEQUATE? then 1 else 0,
       weak := c.weak + if s.WEAK? || s.NO_ANSWER? then 1 else 0,
       last := Some(s))
  }

  /** Notes what an answer was worth. None when no question has been asked in the round. */
  function RecordAssessment(p: Planner, a: Assessment): Option<Planner> {
    var current := CurrentRound(p);
    if current.None? || p.thread.None? then None
    else
      var round, thread := current.value, p.thread.value;
      var coverage :=
        if a.sufficiency.Some? && thread.competencyKey.Some? && thread.competencyKey.value != "" && thread.competencyKey.value in p.coverage then
          p.coverage[thread.competencyKey.value := Covered(p.coverage[thread.competencyKey.value], a.sufficiency.value)]
        else p.coverage;
      var noAnswer := a.sufficiency == Some(NO_ANSWER);
      var canFollowUp := a.followUpNeeded && !noAnswer && thread.depth < round.followUpDepth;
      Some(p.(
        rounds := p.rounds[p.roundIdx := round.(evidence := round.evidence + if a.evidenceCount > 0 then a.evidenceCount else 0)],
        coverage := coverage,
        answeredCount := p.answeredCount + if noAnswer then 0 else 1,
        thread := Some(thread.(pendingFollowUp := canFollowUp))))
  }
}

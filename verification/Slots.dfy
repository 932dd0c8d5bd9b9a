/** The concurrency semaphore of a model: leases by token, each with its expiry. */
module Slots {
  type Leases = map<string, int>

  function Live(leases: Leases, now: int): Leases { map t | t in leases && leases[t] > now :: leases[t] }

  /** Drops the expired leases and takes one if there is room. */
  function Acquired(leases: Leases, limit: nat, leaseMs: nat, now: int, token: string): (Leases, bool) {
    var live := Live(leases, now);
    if |live| < limit then (live[token := now + leaseMs], true) else (live, false)
  }

  function Released(leases: Leases, token: string): Leases { leases - {token} }

  class SlotStore {
    var leases: Leases

    constructor ()
      ensures leases == map[]
    {
      leases := map[];
    }

    method AcquireSlot(limit: nat, leaseMs: nat, now: int, token: string) returns (ok: bool)
      modifies this
      ensures (leases, ok) == Acquired(old(leases), limit, leaseMs, now, token)
    {
      // Each expired lease is deleted in turn.
      var tokens := leases.Keys;
      while tokens != {}
        invariant tokens <= old(leases).Keys
        invariant leases == map t | t in old(leases) && (t in tokens || old(leases)[t] > now) :: old(leases)[t]
        decreases tokens
      {
        var t :| t in tokens;
        if t in leases && leases[t] <= now { leases := leases - {t}; }
        tokens := tokens - {t};
      }
      assert leases == Live(old(leases), now);
      if |leases| >= limit { return false; }
      leases := leases[token := now + leaseMs];
      ok := true;
    }

    method ReleaseSlot(token: string)
      modifies this
      ensures leases == Released(old(leases), token)
    {
      leases := leases - {token};
    }
  }

  // ---- Holders ---------------------------------------------------------------------------------

  datatype Step = Take(token: string, now: int) | Give(token: string, now: int)

  /** The leases in the store, and who holds a slot since when. */
  datatype State = State(leases: Leases, holders: map<string, int>)

  function Next(s: State, limit: nat, leaseMs: nat, step: Step): State {
    match step
    case Take(token, now) =>
      var (leases, ok) := Acquired(s.leases, limit, leaseMs, now, token);
      State(leases, if ok then s.holders[token := now] else s.holders)
    case Give(token, now) => State(Released(s.leases, token), s.holders - {token})
  }

  /** Tokens are new, and every holder is still within its lease when something happens. */
  predicate Prompt(s: State, leaseMs: nat, step: Step) {
    && (step.Take? ==> step.token !in s.leases && step.token !in s.holders)
    && forall h <- s.holders :: step.now < s.holders[h] + leaseMs
  }

  function Run(s: State, limit: nat, leaseMs: nat, steps: seq<Step>): State
    decreases |steps|
  {
    if steps == [] then s else Run(Next(s, limit, leaseMs, steps[0]), limit, leaseMs, steps[1..])
  }

  predicate PromptRun(s: State, limit: nat, leaseMs: nat, steps: seq<Step>)
    decreases |steps|
  {
    steps == [] || (Prompt(s, leaseMs, steps[0]) && PromptRun(Next(s, limit, leaseMs, steps[0]), limit, leaseMs, steps[1..]))
  }

  /** Every holder has its lease, and there are no more leases than the limit. */
  predicate Ok(s: State, limit: nat, leaseMs: nat) {
    |s.leases| <= limit && forall h <- s.holders :: h in s.leases && s.leases[h] == s.holders[h] + leaseMs
  }

  lemma SubsetSize(a: set<string>, b: set<string>)
    requires a <= b
    ensures |a| <= |b|
  {
    if a != {} {
      var x :| x in a;
      SubsetSize(a - {x}, b - {x});
    }
  }

  lemma TakeKeepsOk(s: State, limit: nat, leaseMs: nat, token: string, now: int)
    requires Ok(s, limit, leaseMs) && Prompt(s, leaseMs, Take(token, now))
    ensures Ok(Next(s, limit, leaseMs, Take(token, now)), limit, leaseMs)
  {
    var live := Live(s.leases, now);
    SubsetSize(live.Keys, s.leases.Keys);
    assert live[token := now + leaseMs].Keys == live.Keys + {token};
  }

  lemma GiveKeepsOk(s: State, limit: nat, leaseMs: nat, token: string, now: int)
    requires Ok(s, limit, leaseMs)
    ensures Ok(Next(s, limit, leaseMs, Give(token, now)), limit, leaseMs)
  {
    SubsetSize((s.leases - {token}).Keys, s.leases.Keys);
  }

  lemma StepKeepsOk(s: State, limit: nat, leaseMs: nat, step: Step)
    requires Ok(s, limit, leaseMs) && Prompt(s, leaseMs, step)
    ensures Ok(Next(s, limit, leaseMs, step), limit, leaseMs)
  {
    match step
    case Take(token, now) => TakeKeepsOk(s, limit, leaseMs, token, now);
    case Give(token, now) => GiveKeepsOk(s, limit, leaseMs, token, now);
  }

  /** A slot is given exactly while fewer leases than the limit have not expired; what had expired is gone. */
  lemma GivenIffRoom(leases: Leases, limit: nat, leaseMs: nat, now: int, token: string)
    requires token !in leases
    ensures var (after, given) := Acquired(leases, limit, leaseMs, now, token);
            && (given <==> |set t | t in leases && leases[t] > now| < limit)
            && (token in after <==> given) && (given ==> after[token] == now + leaseMs)
            && (forall t <- leases :: t in after <==> leases[t] > now)
            && (forall t <- after :: t != token ==> t in leases && after[t] == leases[t])
  {
    assert Live(leases, now).Keys == set t | t in leases && leases[t] > now;
  }

  /** Whoever holds a slot has a lease, and nobody else. */
  predicate Matched(s: State) { s.leases.Keys == s.holders.Keys }

  lemma {:induction false} RunKeepsMatched(s: State, limit: nat, leaseMs: nat, steps: seq<Step>)
    requires Ok(s, limit, leaseMs) && Matched(s) && PromptRun(s, limit, leaseMs, steps)
    ensures Ok(Run(s, limit, leaseMs, steps), limit, leaseMs) && Matched(Run(s, limit, leaseMs, steps))
    decreases |steps|
  {
    if steps != [] {
      if steps[0].Take? { assert Live(s.leases, steps[0].now) == s.leases; }
      StepKeepsOk(s, limit, leaseMs, steps[0]);
      RunKeepsMatched(Next(s, limit, leaseMs, steps[0]), limit, leaseMs, steps[1..]);
    }
  }

  /** Among prompt holders no slot is refused that could be given: one more gets one exactly while there are
      fewer than the limit. */
  lemma GivenIffFewer(limit: nat, leaseMs: nat, steps: seq<Step>, token: string, now: int)
    requires PromptRun(State(map[], map[]), limit, leaseMs, steps)
    requires Prompt(Run(State(map[], map[]), limit, leaseMs, steps), leaseMs, Take(token, now))
    ensures var s := Run(State(map[], map[]), limit, leaseMs, steps);
            token in Next(s, limit, leaseMs, Take(token, now)).holders <==> |s.holders| < limit
  {
    RunKeepsMatched(State(map[], map[]), limit, leaseMs, steps);
    var s := Run(State(map[], map[]), limit, leaseMs, steps);
    assert Live(s.leases, now) == s.leases;
    assert |s.leases| == |s.leases.Keys| && |s.holders| == |s.holders.Keys|;
  }

  /** As long as every holder gives its slot back within its lease, there are never more holders than
      the limit, however takes and returns interleave. */
  lemma {:induction false} NeverOverLimit(s: State, limit: nat, leaseMs: nat, steps: seq<Step>)
    requires Ok(s, limit, leaseMs) && PromptRun(s, limit, leaseMs, steps)
    ensures |Run(s, limit, leaseMs, steps).holders| <= limit
    decreases |steps|
  {
    if steps == [] {
      SubsetSize(s.holders.Keys, s.leases.Keys);
    } else {
      StepKeepsOk(s, limit, leaseMs, steps[0]);
      NeverOverLimit(Next(s, limit, leaseMs, steps[0]), limit, leaseMs, steps[1..]);
    }
  }

  lemma NobodyAtFirst(limit: nat, leaseMs: nat)
    ensures Ok(State(map[], map[]), limit, leaseMs)
  {
  }

  /** A holder that stays past its lease is forgotten: with a limit of one, a second holder joins it. */
  lemma LateHolderIsForgotten(leaseMs: nat)
    ensures var s := Run(State(map[], map[]), 1, leaseMs, [Take("a", 0), Take("b", leaseMs)]);
            |s.holders| == 2
  {
    var s0 := State(map[], map[]);
    var s1 := Next(s0, 1, leaseMs, Take("a", 0));
    assert Live(map[], 0) == map[];
    assert s1 == State(map["a" := leaseMs], map["a" := 0]);
    var s2 := Next(s1, 1, leaseMs, Take("b", leaseMs));
    assert Live(s1.leases, leaseMs) == map[];
    assert s2.holders == map["a" := 0, "b" := leaseMs];
    assert s2.holders.Keys == {"a", "b"};
    assert [Take("a", 0), Take("b", leaseMs)][1..] == [Take("b", leaseMs)];
    assert Run(s1, 1, leaseMs, [Take("b", leaseMs)]) == s2;
  }
}

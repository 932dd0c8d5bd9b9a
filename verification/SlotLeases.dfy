/** The slots of a model and the calls made in them: the lease outlasts every series of calls exactly
    when the retries are few, and then the concurrency limit holds. */
module SlotLeases {
  import opened Slots
  import M = ModelCalls

  /** How long each holder's series of calls and backoffs takes, by its token. */
  type Durations = string -> nat

  predicate InOrder(steps: seq<Step>) { forall i, j :: 0 <= i <= j < |steps| ==> steps[i].now <= steps[j].now }

  /** Every token is taken once, and is not in use before. */
  predicate NewTokens(s: State, steps: seq<Step>) {
    && (forall i :: 0 <= i < |steps| && steps[i].Take? ==> steps[i].token !in s.leases && steps[i].token !in s.holders)
    && (forall i, j :: 0 <= i < j < |steps| && steps[i].Take? && steps[j].Take? ==> steps[i].token != steps[j].token)
  }

  /** This holder gives its slot back when its calls are done, or sooner. */
  predicate GivesBack(steps: seq<Step>, token: string, deadline: int) {
    exists j :: 0 <= j < |steps| && steps[j].Give? && steps[j].token == token && steps[j].now <= deadline
  }

  /** Whoever got a slot, at any time in the run, gives it back when its calls are done. */
  ghost predicate Served(s: State, limit: nat, leaseMs: nat, steps: seq<Step>, ms: Durations)
    decreases |steps|
  {
    && (forall h <- s.holders :: GivesBack(steps, h, s.holders[h] + ms(h)))
    && (steps == [] || Served(Next(s, limit, leaseMs, steps[0]), limit, leaseMs, steps[1..], ms))
  }

  lemma TokensStayNew(s: State, limit: nat, leaseMs: nat, steps: seq<Step>)
    requires steps != [] && NewTokens(s, steps)
    ensures NewTokens(Next(s, limit, leaseMs, steps[0]), steps[1..])
  {
    var s', rest := Next(s, limit, leaseMs, steps[0]), steps[1..];
    forall i | 0 <= i < |rest| && rest[i].Take? ensures rest[i].token !in s'.leases && rest[i].token !in s'.holders {
      assert rest[i] == steps[i + 1];
    }
    forall i, j | 0 <= i < j < |rest| && rest[i].Take? && rest[j].Take? ensures rest[i].token != rest[j].token {
      assert rest[i] == steps[i + 1] && rest[j] == steps[j + 1];
    }
  }

  /** Holders that give back when their calls are done are prompt, if the lease outlasts the calls. */
  lemma {:induction false} ServedIsPrompt(s: State, limit: nat, leaseMs: nat, steps: seq<Step>, ms: Durations)
    requires InOrder(steps) && NewTokens(s, steps) && Served(s, limit, leaseMs, steps, ms)
    requires forall t :: ms(t) < leaseMs
    ensures PromptRun(s, limit, leaseMs, steps)
    decreases |steps|
  {
    if steps != [] {
      forall h | h in s.holders ensures steps[0].now < s.holders[h] + leaseMs {
        assert GivesBack(steps, h, s.holders[h] + ms(h));
        var j :| 0 <= j < |steps| && steps[j].Give? && steps[j].token == h && steps[j].now <= s.holders[h] + ms(h);
        assert steps[0].now <= steps[j].now;
      }
      TokensStayNew(s, limit, leaseMs, steps);
      assert InOrder(steps[1..]);
      ServedIsPrompt(Next(s, limit, leaseMs, steps[0]), limit, leaseMs, steps[1..], ms);
    }
  }

  lemma {:induction false} PrefixIsPrompt(s: State, limit: nat, leaseMs: nat, steps: seq<Step>, n: nat)
    requires n <= |steps| && PromptRun(s, limit, leaseMs, steps)
    ensures PromptRun(s, limit, leaseMs, steps[..n])
    decreases n
  {
    if n > 0 {
      assert steps[..n][1..] == steps[1..][..n - 1];
      PrefixIsPrompt(Next(s, limit, leaseMs, steps[0]), limit, leaseMs, steps[1..], n - 1);
    }
  }

  const NOBODY := State(map[], map[])

  /** How long the calls of each holder take, each under its own script of the provider's answers. */
  function CallMs(scripts: string -> M.Script, retries: nat): Durations {
    (t: string) => M.CallTrace(scripts(t), M.DEFAULT_POLICY, retries).ms
  }

  /** With at most four retries, whatever the provider answers and however takes and returns interleave,
      a model never has more callers than its concurrency, at any moment of the run. */
  lemma ConcurrencyHolds(timeoutMs: nat, retries: nat, scripts: string -> M.Script, limit: nat, steps: seq<Step>, n: nat)
    requires retries <= 4 && forall t :: M.TimesOut(scripts(t), timeoutMs)
    requires InOrder(steps) && NewTokens(NOBODY, steps) && n <= |steps|
    requires Served(NOBODY, limit, M.LeaseMs(timeoutMs, retries), steps, CallMs(scripts, retries))
    ensures |Run(NOBODY, limit, M.LeaseMs(timeoutMs, retries), steps[..n]).holders| <= limit
  {
    var leaseMs, ms := M.LeaseMs(timeoutMs, retries), CallMs(scripts, retries);
    M.LeaseFitsIff(timeoutMs, retries);
    forall t ensures ms(t) < leaseMs { assert M.TimesOut(scripts(t), timeoutMs); }
    ServedIsPrompt(NOBODY, limit, leaseMs, steps, ms);
    PrefixIsPrompt(NOBODY, limit, leaseMs, steps, n);
    NobodyAtFirst(limit, leaseMs);
    NeverOverLimit(NOBODY, limit, leaseMs, steps[..n]);
  }

  // ---- Five retries --------------------------------------------------------------------------------

  /** Two holders: the second takes when the first one's lease runs out, each gives back when done. */
  function Overlap(a: string, b: string, leaseMs: int, ms: int): seq<Step> {
    [Take(a, 0)] + ([Take(b, leaseMs)] + ([Give(a, ms)] + [Give(b, leaseMs + ms)]))
  }

  /** With five retries, and for any timeout, some answers of the provider keep a caller past its lease;
      another then joins it although the limit is one, and both give back as soon as they are done. */
  lemma FiveRetriesOverrun(timeoutMs: nat, a: string, b: string) returns (script: M.Script)
    requires a != b
    ensures M.TimesOut(script, timeoutMs)
    ensures var leaseMs, ms := M.LeaseMs(timeoutMs, 5), CallMs(_ => script, 5);
            var steps := Overlap(a, b, leaseMs, ms(a));
            && InOrder(steps) && NewTokens(NOBODY, steps) && Served(NOBODY, 1, leaseMs, steps, ms)
            && |Run(NOBODY, 1, leaseMs, steps[..2]).holders| == 2
  {
    M.LeaseFitsIff(timeoutMs, 5);
    script :| M.TimesOut(script, timeoutMs) && M.CallTrace(script, M.DEFAULT_POLICY, 5).ms >= M.LeaseMs(timeoutMs, 5);
    M.LeaseIs(timeoutMs, 5);
    OverlapRuns(a, b, M.LeaseMs(timeoutMs, 5), CallMs(_ => script, 5));
  }

  /** The states of that run: the first alone, the first past its lease and the second, the second alone. */
  function Alone(a: string, leaseMs: nat): State { State(map[a := leaseMs], map[a := 0]) }

  function Both(a: string, b: string, leaseMs: nat): State { State(map[b := leaseMs + leaseMs], map[a := 0, b := leaseMs]) }

  function Other(b: string, leaseMs: nat): State { State(map[b := leaseMs + leaseMs], map[b := leaseMs]) }

  lemma FirstTakes(a: string, leaseMs: nat)
    ensures Next(NOBODY, 1, leaseMs, Take(a, 0)) == Alone(a, leaseMs)
  {
    assert Live(map[], 0) == map[];
  }

  lemma SecondTakes(a: string, b: string, leaseMs: nat)
    requires a != b
    ensures Next(Alone(a, leaseMs), 1, leaseMs, Take(b, leaseMs)) == Both(a, b, leaseMs)
  {
    assert Live(Alone(a, leaseMs).leases, leaseMs) == map[];
    assert map[a := 0][b := leaseMs] == map[a := 0, b := leaseMs];
  }

  lemma BothGive(a: string, b: string, leaseMs: nat, ms: nat)
    requires a != b
    ensures Next(Both(a, b, leaseMs), 1, leaseMs, Give(a, ms)) == Other(b, leaseMs)
    ensures Next(Other(b, leaseMs), 1, leaseMs, Give(b, leaseMs + ms)) == NOBODY
  {
    assert Both(a, b, leaseMs).leases - {a} == Both(a, b, leaseMs).leases;
    assert Both(a, b, leaseMs).holders - {a} == Other(b, leaseMs).holders;
    assert Other(b, leaseMs).leases - {b} == map[] && Other(b, leaseMs).holders - {b} == map[];
  }

  lemma ServedOn(s: State, s': State, leaseMs: nat, step: Step, rest: seq<Step>, ms: Durations)
    requires Next(s, 1, leaseMs, step) == s' && Served(s', 1, leaseMs, rest, ms)
    requires forall h <- s.holders :: GivesBack([step] + rest, h, s.holders[h] + ms(h))
    ensures Served(s, 1, leaseMs, [step] + rest, ms)
  {
    assert ([step] + rest)[1..] == rest;
  }

  lemma GivesAt(steps: seq<Step>, j: nat, token: string, deadline: int)
    requires j < |steps| && steps[j].Give? && steps[j].token == token && steps[j].now <= deadline
    ensures GivesBack(steps, token, deadline)
  {
  }

  lemma OverlapEnds(a: string, b: string, leaseMs: nat, ms: Durations)
    requires a != b && ms(a) == ms(b)
    ensures Served(Both(a, b, leaseMs), 1, leaseMs, [Give(a, ms(a))] + [Give(b, leaseMs + ms(a))], ms)
  {
    var c, d := Give(a, ms(a)), Give(b, leaseMs + ms(a));
    BothGive(a, b, leaseMs, ms(a));
    GivesAt([d], 0, b, leaseMs + ms(b));
    GivesAt([c] + [d], 1, b, leaseMs + ms(b));
    GivesAt([c] + [d], 0, a, 0 + ms(a));
    assert Served(NOBODY, 1, leaseMs, [], ms);
    assert [d] + [] == [d];
    hide Next, GivesBack, Served;
    ServedOn(Other(b, leaseMs), NOBODY, leaseMs, d, [], ms);
    ServedOn(Both(a, b, leaseMs), Other(b, leaseMs), leaseMs, c, [d], ms);
  }

  lemma AloneServed(a: string, b: string, leaseMs: nat, ms: Durations, rest: seq<Step>)
    requires a != b && |rest| > 0 && rest[0] == Give(a, ms(a)) && Served(Both(a, b, leaseMs), 1, leaseMs, rest, ms)
    ensures Served(Alone(a, leaseMs), 1, leaseMs, [Take(b, leaseMs)] + rest, ms)
  {
    var steps := [Take(b, leaseMs)] + rest;
    assert steps[1] == rest[0];
    hide Next, GivesBack, Served, Both;
    SecondTakes(a, b, leaseMs);
    GivesAt(steps, 1, a, 0 + ms(a));
    ServedOn(Alone(a, leaseMs), Both(a, b, leaseMs), leaseMs, Take(b, leaseMs), rest, ms);
  }

  lemma NobodyServed(a: string, leaseMs: nat, ms: Durations, rest: seq<Step>)
    requires Served(Alone(a, leaseMs), 1, leaseMs, rest, ms)
    ensures Served(NOBODY, 1, leaseMs, [Take(a, 0)] + rest, ms)
  {
    FirstTakes(a, leaseMs);
    hide Next, GivesBack, Served, Alone;
    ServedOn(NOBODY, Alone(a, leaseMs), leaseMs, Take(a, 0), rest, ms);
  }

  lemma OverlapServed(a: string, b: string, leaseMs: nat, ms: Durations)
    requires a != b && ms(a) == ms(b)
    ensures Served(NOBODY, 1, leaseMs, Overlap(a, b, leaseMs, ms(a)), ms)
  {
    var rest := [Give(a, ms(a))] + [Give(b, leaseMs + ms(a))];
    hide Served, Both, Alone;
    OverlapEnds(a, b, leaseMs, ms);
    AloneServed(a, b, leaseMs, ms, rest);
    NobodyServed(a, leaseMs, ms, [Take(b, leaseMs)] + rest);
  }

  lemma OverlapRuns(a: string, b: string, leaseMs: nat, ms: Durations)
    requires a != b && leaseMs > 0 && ms(a) == ms(b) >= leaseMs
    ensures var steps := Overlap(a, b, leaseMs, ms(a));
            && InOrder(steps) && NewTokens(NOBODY, steps) && Served(NOBODY, 1, leaseMs, steps, ms)
            && |Run(NOBODY, 1, leaseMs, steps[..2]).holders| == 2
  {
    hide Next, Served, InOrder, NewTokens, Run, Overlap;
    OverlapServed(a, b, leaseMs, ms);
    OverlapFits(a, b, leaseMs, ms(a));
    TwoHold(a, b, leaseMs);
  }

  lemma OverlapFits(a: string, b: string, leaseMs: nat, ms: nat)
    requires a != b && ms >= leaseMs
    ensures var steps := Overlap(a, b, leaseMs, ms);
            InOrder(steps) && NewTokens(NOBODY, steps) && |steps| == 4 && steps[..2] == [Take(a, 0), Take(b, leaseMs)]
  {
    assert Overlap(a, b, leaseMs, ms) == [Take(a, 0), Take(b, leaseMs), Give(a, ms), Give(b, leaseMs + ms)];
  }

  lemma TwoHold(a: string, b: string, leaseMs: nat)
    requires a != b
    ensures |Run(NOBODY, 1, leaseMs, [Take(a, 0), Take(b, leaseMs)]).holders| == 2
  {
    FirstTakes(a, leaseMs);
    SecondTakes(a, b, leaseMs);
    hide Next;
    assert [Take(a, 0), Take(b, leaseMs)][1..] == [Take(b, leaseMs)];
    assert [Take(b, leaseMs)][1..] == [];
    assert Run(Alone(a, leaseMs), 1, leaseMs, [Take(b, leaseMs)]) == Both(a, b, leaseMs);
    assert Both(a, b, leaseMs).holders.Keys == {a, b};
  }
}

/** Calling a model: retries with backoff, one repair of invalid output, metering, and how long it
    can take. A script says how each provider call goes. */
module ModelCalls {
  import opened Wrappers

  datatype Verdict = SUCCESS | REFUSED | INVALID_OUTPUT

  datatype Reply = Aborted | Failure(retryable: bool) | Answered(verdict: Verdict)

  /** One call: how it ends and how long it takes, its metered cost, the jitter drawn for a backoff
      after it, and whether the caller aborts during that backoff. */
  datatype Call = Call(reply: Reply, ms: nat, costMicros: nat, jitterMs: nat, abortedAfter: bool)

  type Script = nat -> Call

  datatype Ending = Served | Declined(detail: Detail) | AbortedEnd

  datatype Detail = ByError | ByRefusal | BySchema

  datatype RowOutcome = RowAborted | RowFailed | RowAnswered(verdict: Verdict)

  datatype Row = Row(attempt: nat, outcome: RowOutcome, costMicros: nat)

  datatype Policy = Policy(backoffBaseMs: nat, backoffMaxMs: nat)

  const DEFAULT_POLICY := Policy(250, 4000)

  const SLACK_MS := 5000

  // ---- What a series of calls does -------------------------------------------------------------

  function Power2(n: nat): nat { if n == 0 then 1 else 2 * Power2(n - 1) }

  /** The longest backoff after this many failures. */
  function BackoffCap(policy: Policy, failures: nat): nat
    requires failures > 0
  {
    var cap := policy.backoffBaseMs * Power2(failures - 1);
    if cap <= policy.backoffMaxMs then cap else policy.backoffMaxMs
  }

  function Backoff(policy: Policy, failures: nat, jitterMs: nat): nat
    requires failures > 0
  {
    if jitterMs <= BackoffCap(policy, failures) then jitterMs else BackoffCap(policy, failures)
  }

  /** How many calls were made, how long calls and backoffs took, and how it ended. */
  datatype Trace = Trace(calls: nat, ms: nat, ending: Ending)

  function Then(c: Call, pause: nat, rest: Trace): Trace { rest.(ms := c.ms + pause + rest.ms) }

  /** From call `k`, with this many failures so far and a repair done or not. */
  function Play(script: Script, policy: Policy, retries: nat, k: nat, failures: nat, repaired: bool): Trace
    requires failures <= retries
    decreases retries - failures + if repaired then 0 else 1
  {
    var c := script(k);
    match c.reply
    case Aborted => Trace(k + 1, c.ms, AbortedEnd)
    case Failure(retryable) =>
      if !retryable || failures + 1 >= 1 + retries then Trace(k + 1, c.ms, Declined(ByError))
      else
        var pause := Backoff(policy, failures + 1, c.jitterMs);
        if c.abortedAfter then Trace(k + 1, c.ms + pause, AbortedEnd)
        else Then(c, pause, Play(script, policy, retries, k + 1, failures + 1, repaired))
    case Answered(SUCCESS) => Trace(k + 1, c.ms, Served)
    case Answered(REFUSED) => Trace(k + 1, c.ms, Declined(ByRefusal))
    case Answered(INVALID_OUTPUT) =>
      if repaired then Trace(k + 1, c.ms, Declined(BySchema))
      else Then(c, 0, Play(script, policy, retries, k + 1, failures, true))
  }

  function CallTrace(script: Script, policy: Policy, retries: nat): Trace { Play(script, policy, retries, 0, 0, false) }

  /** The usage row of the k-th call; only an answered call costs anything. */
  function RowOf(script: Script, k: nat): Row {
    var c := script(k);
    match c.reply
    case Aborted => Row(k + 1, RowAborted, 0)
    case Failure(_) => Row(k + 1, RowFailed, 0)
    case Answered(v) => Row(k + 1, RowAnswered(v), c.costMicros)
  }

  function Rows(script: Script, n: nat): seq<Row> { if n == 0 then [] else Rows(script, n - 1) + [RowOf(script, n - 1)] }

  function Cost(rows: seq<Row>): nat { if rows == [] then 0 else Cost(rows[..|rows| - 1]) + rows[|rows| - 1].costMicros }

  lemma CostAppend(rows: seq<Row>, r: Row)
    ensures Cost(rows + [r]) == Cost(rows) + r.costMicros
  {
    assert (rows + [r])[..|rows|] == rows;
  }

  /** What the answered calls among the first `n` cost. */
  function AnsweredCost(script: Script, n: nat): nat {
    if n == 0 then 0 else AnsweredCost(script, n - 1) + if script(n - 1).reply.Answered? then script(n - 1).costMicros else 0
  }

  /** There is one row for each call, numbered from one, and together they cost what was answered. */
  lemma {:induction false} RowsAreCalls(script: Script, n: nat)
    ensures |Rows(script, n)| == n && Cost(Rows(script, n)) == AnsweredCost(script, n)
    ensures forall k :: 0 <= k < n ==> Rows(script, n)[k].attempt == k + 1
  {
    if n > 0 {
      RowsAreCalls(script, n - 1);
      CostAppend(Rows(script, n - 1), RowOf(script, n - 1));
    }
  }

  // ---- The loop --------------------------------------------------------------------------------

  datatype Summary = Summary(modelRef: string, served: bool, detail: Option<Detail>)

  function SummaryOf(modelRef: string, e: Ending): seq<Summary> {
    match e
    case Served => [Summary(modelRef, true, None)]
    case Declined(d) => [Summary(modelRef, false, Some(d))]
    case AbortedEnd => []
  }

  class Router {
    const policy: Policy
    /** The usage store. */
    var rows: seq<Row>
    /** The attempt summaries of the call in progress. */
    var attempts: seq<Summary>

    constructor (policy: Policy)
      ensures this.policy == policy && rows == [] && attempts == []
    {
      this.policy := policy;
      rows, attempts := [], [];
    }

    method Record(row: Row)
      modifies this`rows
      ensures rows == old(rows) + [row]
    {
      rows := rows + [row];
    }

    /** Calls one model until it serves, declines or the caller aborts; the cost is that of its rows. */
    method CallModel(modelRef: string, script: Script, retries: nat) returns (ending: Ending, costMicros: nat)
      modifies this
      ensures var t := CallTrace(script, policy, retries);
              && ending == t.ending
              && rows == old(rows) + Rows(script, t.calls)
              && attempts == old(attempts) + SummaryOf(modelRef, t.ending)
              && costMicros == Cost(Rows(script, t.calls))
    {
      ghost var goal := Play(script, policy, retries, 0, 0, false);
      assert goal == CallTrace(script, policy, retries);
      NoRows(old(rows), script);
      hide Play, CallTrace, Rows, Cost, SummaryOf, TurnOf;
      var failures, k: nat, repaired := 0, 0, false;
      var done: Option<Ending> := None;
      costMicros := 0;
      while done.None?
        invariant failures <= retries
        invariant attempts == old(attempts)
        invariant done.None? ==> SameCourse(Play(script, policy, retries, k, failures, repaired), goal)
        invariant done.Some? ==> goal.calls == k && goal.ending == done.value
        invariant rows == old(rows) + Rows(script, k) && costMicros == Cost(Rows(script, k))
        decreases if done.None? then 1 + retries - failures + (if repaired then 0 else 1) else 0
      {
        var c := script(k);
        OneTurn(script, policy, retries, k, failures, repaired);
        TurnIs(c, retries, failures, repaired);
        RowAdded(old(rows), script, k);
        Record(RowOf(script, k));
        costMicros := costMicros + RowOf(script, k).costMicros;
        k := k + 1;
        if c.reply.Aborted? {
          done := Some(AbortedEnd);
        } else if c.reply.Failure? {
          if !c.reply.retryable || failures + 1 >= 1 + retries {
            done := Some(Declined(ByError));
          } else if c.abortedAfter {
            done := Some(AbortedEnd);
          } else {
            failures := failures + 1;
          }
        } else if c.reply.verdict.SUCCESS? {
          done := Some(Served);
        } else if c.reply.verdict.INVALID_OUTPUT? && !repaired {
          repaired := true;
        } else {
          done := Some(Declined(if c.reply.verdict.REFUSED? then ByRefusal else BySchema));
        }
      }
      ending := done.value;
      attempts := attempts + SummaryOf(modelRef, ending);
    }
  }

  datatype Turn = Stops(ending: Ending) | Retries | Repairs

  /** What one call leads to. */
  function TurnOf(c: Call, retries: nat, failures: nat, repaired: bool): Turn {
    match c.reply
    case Aborted => Stops(AbortedEnd)
    case Failure(retryable) =>
      if !retryable || failures + 1 >= 1 + retries then Stops(Declined(ByError))
      else if c.abortedAfter then Stops(AbortedEnd) else Retries
    case Answered(v) =>
      if v.SUCCESS? then Stops(Served)
      else if v.REFUSED? then Stops(Declined(ByRefusal))
      else if repaired then Stops(Declined(BySchema)) else Repairs
  }

  lemma TurnIs(c: Call, retries: nat, failures: nat, repaired: bool)
    ensures var t := TurnOf(c, retries, failures, repaired);
            && (c.reply.Aborted? ==> t == Stops(AbortedEnd))
            && (c.reply.Failure? ==>
                  t == if !c.reply.retryable || failures + 1 >= 1 + retries then Stops(Declined(ByError))
                       else if c.abortedAfter then Stops(AbortedEnd) else Retries)
            && (c.reply.Answered? ==>
                  t == if c.reply.verdict.SUCCESS? then Stops(Served)
                       else if c.reply.verdict.INVALID_OUTPUT? && !repaired then Repairs
                       else Stops(Declined(if c.reply.verdict.REFUSED? then ByRefusal else BySchema)))
  {
  }

  /** One turn of the course: it stops with this call, or goes on from the next. */
  lemma OneTurn(script: Script, policy: Policy, retries: nat, k: nat, failures: nat, repaired: bool)
    requires failures <= retries
    ensures var here := Play(script, policy, retries, k, failures, repaired);
            match TurnOf(script(k), retries, failures, repaired)
            case Stops(e) => here.calls == k + 1 && here.ending == e
            case Retries => failures < retries && SameCourse(here, Play(script, policy, retries, k + 1, failures + 1, repaired))
            case Repairs => !repaired && SameCourse(here, Play(script, policy, retries, k + 1, failures, true))
  {
  }

  lemma NoRows(before: seq<Row>, script: Script)
    ensures before + Rows(script, 0) == before && Cost(Rows(script, 0)) == 0
  {
  }

  /** The same calls and ending, whatever they took. */
  predicate SameCourse(a: Trace, b: Trace) { a.calls == b.calls && a.ending == b.ending }

  lemma RowAdded(before: seq<Row>, script: Script, k: nat)
    ensures before + Rows(script, k) + [RowOf(script, k)] == before + Rows(script, k + 1)
    ensures Cost(Rows(script, k + 1)) == Cost(Rows(script, k)) + RowOf(script, k).costMicros
  {
    assert before + Rows(script, k) + [RowOf(script, k)] == before + (Rows(script, k) + [RowOf(script, k)]);
    CostAppend(Rows(script, k), RowOf(script, k));
  }

  // ---- How many calls, and how long --------------------------------------------------------------

  /** At most two more calls than retries: each failure but the last is a retry, and one more call repairs. */
  lemma {:induction false} CallsFrom(script: Script, policy: Policy, retries: nat, k: nat, failures: nat, repaired: bool)
    requires failures <= retries
    ensures var t := Play(script, policy, retries, k, failures, repaired);
            k < t.calls <= k + retries - failures + (if repaired then 1 else 2)
    decreases retries - failures + if repaired then 0 else 1
  {
    var c := script(k);
    if c.reply.Failure? && c.reply.retryable && failures + 1 <= retries && !c.abortedAfter {
      CallsFrom(script, policy, retries, k + 1, failures + 1, repaired);
    } else if c.reply.Answered? && c.reply.verdict.INVALID_OUTPUT? && !repaired {
      CallsFrom(script, policy, retries, k + 1, failures, true);
    }
  }

  lemma CallsAreBounded(script: Script, policy: Policy, retries: nat)
    ensures 1 <= CallTrace(script, policy, retries).calls <= retries + 2
  {
    CallsFrom(script, policy, retries, 0, 0, false);
  }

  /** All backoffs of failures `from` to `retries` at their longest. */
  function Backoffs(policy: Policy, from: nat, retries: nat): nat
    requires from > 0
    decreases retries + 1 - from
  {
    if from > retries then 0 else BackoffCap(policy, from) + Backoffs(policy, from + 1, retries)
  }

  ghost predicate TimesOut(script: Script, timeoutMs: nat) { forall k: nat :: script(k).ms <= timeoutMs }

  function Budget(timeoutMs: nat, calls: nat): nat { if calls == 0 then 0 else timeoutMs + Budget(timeoutMs, calls - 1) }

  lemma BudgetMonotone(timeoutMs: nat, a: nat, b: nat)
    requires a <= b
    ensures Budget(timeoutMs, a) <= Budget(timeoutMs, b)
  {
  }

  lemma {:induction false} TimeFrom(
    script: Script, policy: Policy, timeoutMs: nat, retries: nat, k: nat, failures: nat, repaired: bool)
    requires failures <= retries && TimesOut(script, timeoutMs)
    ensures Play(script, policy, retries, k, failures, repaired).ms <=
            Budget(timeoutMs, retries - failures + (if repaired then 1 else 2)) + Backoffs(policy, failures + 1, retries)
    decreases retries - failures + if repaired then 0 else 1
  {
    var c := script(k);
    var left := retries - failures + (if repaired then 1 else 2);
    BudgetMonotone(timeoutMs, 1, left);
    if c.reply.Failure? && c.reply.retryable && failures + 1 <= retries {
      if !c.abortedAfter { TimeFrom(script, policy, timeoutMs, retries, k + 1, failures + 1, repaired); }
    } else if c.reply.Answered? && c.reply.verdict.INVALID_OUTPUT? && !repaired {
      TimeFrom(script, policy, timeoutMs, retries, k + 1, failures, true);
    }
  }

  // ---- The lease -------------------------------------------------------------------------------

  function LeaseMs(timeoutMs: nat, retries: nat): nat { Budget(timeoutMs, retries + 2) + SLACK_MS }

  lemma BudgetIs(timeoutMs: nat, calls: nat)
    ensures Budget(timeoutMs, calls) == timeoutMs * calls
  {
  }

  lemma LeaseIs(timeoutMs: nat, retries: nat)
    ensures LeaseMs(timeoutMs, retries) == timeoutMs * (retries + 2) + 5000
  {
    BudgetIs(timeoutMs, retries + 2);
  }

  lemma DefaultCaps()
    ensures BackoffCap(DEFAULT_POLICY, 1) == 250 && BackoffCap(DEFAULT_POLICY, 2) == 500
    ensures BackoffCap(DEFAULT_POLICY, 3) == 1000 && BackoffCap(DEFAULT_POLICY, 4) == 2000
    ensures BackoffCap(DEFAULT_POLICY, 5) == 4000
  {
    assert Power2(1) == 2 && Power2(2) == 4 && Power2(3) == 8 && Power2(4) == 16;
  }

  lemma BackoffsSplit(policy: Policy, from: nat, mid: nat, retries: nat)
    requires 0 < from <= mid <= retries + 1
    ensures Backoffs(policy, from, retries) == Backoffs(policy, from, mid - 1) + Backoffs(policy, mid, retries)
    decreases retries + 1 - from
  {
    if from < mid { BackoffsSplit(policy, from + 1, mid, retries); }
  }

  lemma DefaultBackoffs(retries: nat)
    ensures retries <= 4 ==> Backoffs(DEFAULT_POLICY, 1, retries) <= 3750
    ensures retries >= 5 ==> Backoffs(DEFAULT_POLICY, 1, retries) >= 7750
  {
    DefaultCaps();
    assert Backoffs(DEFAULT_POLICY, 1, 0) == 0;
    BackoffsSplit(DEFAULT_POLICY, 1, 2, 2);
    BackoffsSplit(DEFAULT_POLICY, 1, 2, 3);
    BackoffsSplit(DEFAULT_POLICY, 2, 3, 3);
    BackoffsSplit(DEFAULT_POLICY, 1, 2, 4);
    BackoffsSplit(DEFAULT_POLICY, 2, 3, 4);
    BackoffsSplit(DEFAULT_POLICY, 3, 4, 4);
    BackoffsSplit(DEFAULT_POLICY, 1, 2, 5);
    BackoffsSplit(DEFAULT_POLICY, 2, 3, 5);
    BackoffsSplit(DEFAULT_POLICY, 3, 4, 5);
    BackoffsSplit(DEFAULT_POLICY, 4, 5, 5);
    if retries >= 5 { BackoffsSplit(DEFAULT_POLICY, 1, 6, retries); }
  }

  /** The slowest series of calls there is: an invalid output to repair, then failures to the last. */
  function Slowest(timeoutMs: nat): Script {
    (k: nat) => Call(if k == 0 then Answered(INVALID_OUTPUT) else Failure(true), timeoutMs, 0, 1_000_000, false)
  }

  lemma {:induction false} SlowestTakes(timeoutMs: nat, retries: nat, k: nat, failures: nat)
    requires failures <= retries && k > 0
    ensures Play(Slowest(timeoutMs), DEFAULT_POLICY, retries, k, failures, true).ms ==
            Budget(timeoutMs, retries - failures + 1) + Backoffs(DEFAULT_POLICY, failures + 1, retries)
    decreases retries - failures
  {
    if failures < retries {
      SlowestTakes(timeoutMs, retries, k + 1, failures + 1);
    } else {
      assert Budget(timeoutMs, 1) == timeoutMs;
    }
  }

  /** Under the default policy every series of calls fits the slot's lease, with time to spare,
      exactly when there are at most four retries. */
  lemma LeaseFitsIff(timeoutMs: nat, retries: nat)
    ensures (forall script: Script :: TimesOut(script, timeoutMs) ==>
               CallTrace(script, DEFAULT_POLICY, retries).ms < LeaseMs(timeoutMs, retries)) <==> retries <= 4
  {
    DefaultBackoffs(retries);
    if retries <= 4 {
      forall script: Script | TimesOut(script, timeoutMs)
        ensures CallTrace(script, DEFAULT_POLICY, retries).ms < LeaseMs(timeoutMs, retries)
      {
        TimeFrom(script, DEFAULT_POLICY, timeoutMs, retries, 0, 0, false);
      }
    } else {
      var script := Slowest(timeoutMs);
      SlowestTakes(timeoutMs, retries, 1, 0);
      assert TimesOut(script, timeoutMs);
      assert CallTrace(script, DEFAULT_POLICY, retries).ms >= LeaseMs(timeoutMs, retries);
    }
  }
}

/** How a series of calls to a model ends, and which model of a chain serves: the exact conditions on
    what the providers do. */
module ModelOutcomes {
  import opened ModelCalls
  import Ch = ModelChain
  import St = ModelStream

  // ---- One model ---------------------------------------------------------------------------------

  function FailuresIn(script: Script, n: nat): nat {
    if n == 0 then 0 else FailuresIn(script, n - 1) + if script(n - 1).reply.Failure? then 1 else 0
  }

  function InvalidIn(script: Script, n: nat): nat {
    if n == 0 then 0 else InvalidIn(script, n - 1) + if script(n - 1).reply == Answered(INVALID_OUTPUT) then 1 else 0
  }

  /** The n-th call failed for a while only, and with it there are no more failures than retries. */
  predicate Retryable(script: Script, retries: nat, n: nat) {
    script(n).reply == Failure(true) && FailuresIn(script, n + 1) <= retries
  }

  /** Another call follows: a retry the caller waits for, or the one repair of an invalid output. */
  predicate GoesOn(script: Script, retries: nat, n: nat) {
    || (Retryable(script, retries, n) && !script(n).abortedAfter)
    || (script(n).reply == Answered(INVALID_OUTPUT) && InvalidIn(script, n + 1) <= 1)
  }

  function EndingAt(script: Script, retries: nat, n: nat): Ending {
    match script(n).reply
    case Aborted => AbortedEnd
    case Failure(_) => if Retryable(script, retries, n) then AbortedEnd else Declined(ByError)
    case Answered(SUCCESS) => Served
    case Answered(REFUSED) => Declined(ByRefusal)
    case Answered(INVALID_OUTPUT) => Declined(BySchema)
  }

  lemma {:induction false} CourseFrom(script: Script, policy: Policy, retries: nat, k: nat, repaired: bool)
    requires FailuresIn(script, k) <= retries && InvalidIn(script, k) == if repaired then 1 else 0
    ensures var t := Play(script, policy, retries, k, FailuresIn(script, k), repaired);
            && k < t.calls
            && (forall j :: k <= j < t.calls - 1 ==> GoesOn(script, retries, j))
            && !GoesOn(script, retries, t.calls - 1)
            && t.ending == EndingAt(script, retries, t.calls - 1)
    decreases retries - FailuresIn(script, k) + if repaired then 0 else 1
  {
    var failures := FailuresIn(script, k);
    var t := Play(script, policy, retries, k, failures, repaired);
    if GoesOn(script, retries, k) {
      CourseFrom(script, policy, retries, k + 1, repaired || script(k).reply.Answered?);
      assert forall j :: k + 1 <= j < t.calls - 1 ==> GoesOn(script, retries, j);
    } else {
      assert t.calls == k + 1;
    }
  }

  /** A model is called again exactly while its calls fail for a while only and retries are left, or to
      repair its one invalid output; and how the last call went is how the series ends. */
  lemma CallsGoOnIff(script: Script, policy: Policy, retries: nat)
    ensures var t := CallTrace(script, policy, retries);
            && t.calls > 0
            && (forall j: nat :: j < t.calls ==> (GoesOn(script, retries, j) <==> j < t.calls - 1))
            && t.ending == EndingAt(script, retries, t.calls - 1)
  {
    CourseFrom(script, policy, retries, 0, false);
  }

  /** The pause before a retry: what was drawn for it, but no more than the base doubled with each failure
      before, and never more than the maximum. */
  function PauseAfter(script: Script, policy: Policy, retries: nat, n: nat): nat {
    if !Retryable(script, retries, n) then 0
    else
      var most := policy.backoffBaseMs * Power2(FailuresIn(script, n));
      var cap := if most < policy.backoffMaxMs then most else policy.backoffMaxMs;
      if script(n).jitterMs < cap then script(n).jitterMs else cap
  }

  /** The time that calls `k` to `n - 1` and the pauses after them take. */
  function TimeSpent(script: Script, policy: Policy, retries: nat, k: nat, n: nat): nat
    requires k <= n
    decreases n - k
  {
    if k == n then 0 else script(k).ms + PauseAfter(script, policy, retries, k) + TimeSpent(script, policy, retries, k + 1, n)
  }

  lemma {:induction false} TimeFromIs(script: Script, policy: Policy, retries: nat, k: nat, repaired: bool)
    requires FailuresIn(script, k) <= retries && InvalidIn(script, k) == if repaired then 1 else 0
    ensures var t := Play(script, policy, retries, k, FailuresIn(script, k), repaired);
            k < t.calls && t.ms == TimeSpent(script, policy, retries, k, t.calls)
    decreases retries - FailuresIn(script, k) + if repaired then 0 else 1
  {
    var failures := FailuresIn(script, k);
    var t := Play(script, policy, retries, k, failures, repaired);
    if Retryable(script, retries, k) { assert Backoff(policy, failures + 1, script(k).jitterMs) == PauseAfter(script, policy, retries, k); }
    if GoesOn(script, retries, k) {
      TimeFromIs(script, policy, retries, k + 1, repaired || script(k).reply.Answered?);
    } else {
      assert t.calls == k + 1;
      assert TimeSpent(script, policy, retries, k + 1, k + 1) == 0;
    }
  }

  /** A series of calls takes the time of its calls and of the pauses before its retries. */
  lemma TimeIsSpent(script: Script, policy: Policy, retries: nat)
    ensures var t := CallTrace(script, policy, retries); t.ms == TimeSpent(script, policy, retries, 0, t.calls)
  {
    TimeFromIs(script, policy, retries, 0, false);
  }

  /** The row of a call says how it went. */
  lemma {:induction false} RowSaysHow(script: Script, n: nat, k: nat)
    requires k < n
    ensures |Rows(script, n)| == n
    ensures var outcome := Rows(script, n)[k].outcome;
            match script(k).reply
            case Aborted => outcome.RowAborted?
            case Failure(_) => outcome.RowFailed?
            case Answered(v) => outcome == RowAnswered(v)
  {
    RowsAreCalls(script, n);
    RowsAreCalls(script, n - 1);
    if k < n - 1 { RowSaysHow(script, n - 1, k); }
  }

  // ---- The chain ---------------------------------------------------------------------------------

  predicate Serves(policy: Policy, e: Ch.Entry) { e.gate.Open? && CallTrace(e.script, policy, e.retries).ending.Served? }

  predicate Aborts(policy: Policy, e: Ch.Entry) {
    e.gate.CallerAborted? || (e.gate.Open? && CallTrace(e.script, policy, e.retries).ending.AbortedEnd?)
  }

  /** The n-th entry is the first, from the i-th on, that serves or at which the caller aborts. */
  predicate FirstToEnd(policy: Policy, chain: seq<Ch.Entry>, i: nat, n: nat) {
    && i <= n < |chain| && (Serves(policy, chain[n]) || Aborts(policy, chain[n]))
    && forall k :: i <= k < n ==> !Serves(policy, chain[k]) && !Aborts(policy, chain[k])
  }

  /** The usage rows of the entries from the i-th to before the n-th. */
  function RowsOf(policy: Policy, chain: seq<Ch.Entry>, i: nat, n: nat): seq<Row>
    requires i <= n <= |chain|
    decreases n - i
  {
    if i == n then []
    else (if chain[i].gate.Open? then Rows(chain[i].script, CallTrace(chain[i].script, policy, chain[i].retries).calls) else [])
         + RowsOf(policy, chain, i + 1, n)
  }

  /** The first model that serves is the one that serves the feature, unless the caller aborts before; the
      chain is exhausted exactly when none does either. Every call made on the way has its usage row. */
  lemma {:induction false} FirstServes(policy: Policy, chain: seq<Ch.Entry>, i: nat)
    requires i <= |chain|
    ensures var w := Ch.Walk(policy, chain, i);
            && (w.ending.Exhausted? <==> forall n :: i <= n < |chain| ==> !Serves(policy, chain[n]) && !Aborts(policy, chain[n]))
            && (w.ending.Exhausted? ==> w.rows == RowsOf(policy, chain, i, |chain|))
            && (!w.ending.Exhausted? ==>
                  exists n: nat :: FirstToEnd(policy, chain, i, n)
                    && w.ending == (if Serves(policy, chain[n]) then Ch.ServedBy(n) else Ch.ChainAborted)
                    && w.rows == RowsOf(policy, chain, i, n + 1))
    decreases |chain| - i
  {
    hide CallTrace, Rows, SummaryOf;
    if i < |chain| {
      var w := Ch.Walk(policy, chain, i);
      if Serves(policy, chain[i]) || Aborts(policy, chain[i]) {
        assert RowsOf(policy, chain, i + 1, i + 1) == [];
        assert w.rows == RowsOf(policy, chain, i, i + 1);
        assert FirstToEnd(policy, chain, i, i);
      } else {
        FirstServes(policy, chain, i + 1);
        var rest := Ch.Walk(policy, chain, i + 1);
        if !rest.ending.Exhausted? {
          var n: nat :| FirstToEnd(policy, chain, i + 1, n)
                    && rest.ending == (if Serves(policy, chain[n]) then Ch.ServedBy(n) else Ch.ChainAborted)
                    && rest.rows == RowsOf(policy, chain, i + 1, n + 1);
          assert FirstToEnd(policy, chain, i, n);
        }
      }
    }
  }

  // ---- Streams -----------------------------------------------------------------------------------

  predicate Silent(c: St.StreamCall) { St.Texts(c.deltas) == [] }

  /** The call broke off for a while only, before it sent any text, and `left` retries are left. */
  predicate Resumable(c: St.StreamCall, left: int) { Silent(c) && c.end == St.Broken(true) && left > 0 }

  function StreamEndingAt(c: St.StreamCall, n: nat, left: int): St.StreamEnding {
    match c.end
    case Finished => St.ServedBy(n)
    case CallerAbort => St.StreamAborted
    case _ => if !Silent(c) then St.Interrupted else if Resumable(c, left) then St.StreamAborted else St.NotServed
  }

  /** A stream is called again exactly while its calls break off for a while only, silently, and retries are
      left; and the last call's end is the stream's. So a model that declines before any text was not
      served, and one that stops after some was interrupted. */
  lemma {:induction false} StreamGoesOnIff(script: St.StreamScript, retries: nat, k: nat, failures: nat) returns (last: nat)
    requires failures <= retries
    ensures k <= last <= k + retries - failures
    ensures forall j :: k <= j < last ==> Resumable(script(j), retries - failures - (j - k)) && !script(j).abortedAfter
    ensures Resumable(script(last), retries - failures - (last - k)) ==> script(last).abortedAfter
    ensures var s := St.StreamFrom(script, retries, k, failures);
            s.ending == StreamEndingAt(script(last), last, retries - failures - (last - k)) && s.emitted == St.Texts(script(last).deltas)
    decreases retries - failures
  {
    if Resumable(script(k), retries - failures) && !script(k).abortedAfter {
      last := StreamGoesOnIff(script, retries, k + 1, failures + 1);
    } else {
      last := k;
    }
  }

  /** A model that is called and leaves nothing for the next: it served, was interrupted, or the caller aborted. */
  predicate Ends(e: St.StreamEntry) { e.gate.CallerGone? || (e.gate.Open? && !St.StreamFrom(e.script, e.retries, 0, 0).ending.NotServed?) }

  /** The chain's stream is that of the first model that is not passed over, and none exactly when all are. */
  lemma {:induction false} FirstStreams(chain: seq<St.StreamEntry>, i: nat)
    requires i <= |chain|
    ensures var (s, n) := St.StreamChain(chain, i);
            && i <= n <= |chain|
            && (forall k :: i <= k < n ==> !Ends(chain[k]))
            && (s.ending.NotServed? <==> n == |chain|)
            && (n == |chain| ==> s.emitted == [])
            && (n < |chain| ==>
                  && Ends(chain[n])
                  && s == if chain[n].gate.CallerGone? then St.Streamed([], St.StreamAborted)
                          else St.StreamFrom(chain[n].script, chain[n].retries, 0, 0))
    decreases |chain| - i
  {
    hide St.StreamFrom;
    if i < |chain| && !Ends(chain[i]) { FirstStreams(chain, i + 1); }
  }
}

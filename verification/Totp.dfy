/** One-time passwords: the window of time steps a code is checked against, and replay. The code of
    a step is the MAC's business: `codeAt` gives it for one secret. */
module Totp {
  import opened Wrappers

  const STEP_MS := 30 * 1000

  /** The time step a moment falls in (Dafny's division floors, as `Math.floor` does). */
  function StepOf(atMs: int): int { atMs / STEP_MS }

  predicate SixDigits(code: string) { |code| == 6 && forall c <- code :: '0' <= c <= '9' }

  /** The first step from `step` to `last` whose code is this one. */
  function FirstMatch(codeAt: int -> string, code: string, step: int, last: int): (r: Option<int>)
    ensures r.Some? ==> step <= r.value <= last && codeAt(r.value) == code
    ensures r.Some? ==> forall s :: step <= s < r.value ==> codeAt(s) != code
    ensures r.None? ==> forall s :: step <= s <= last ==> codeAt(s) != code
    decreases last - step + 1
  {
    if step > last then None else if codeAt(step) == code then Some(step) else FirstMatch(codeAt, code, step + 1, last)
  }

  lemma FirstIsUnique(codeAt: int -> string, code: string, step: int, last: int, m: Option<int>)
    requires m.Some? ==> step <= m.value <= last && codeAt(m.value) == code
    requires m.Some? ==> forall s :: step <= s < m.value ==> codeAt(s) != code
    requires m.None? ==> forall s :: step <= s <= last ==> codeAt(s) != code
    ensures m == FirstMatch(codeAt, code, step, last)
  {
  }

  /** The step a code is accepted for: the earliest in the window, unless it was used already. */
  function Verified(codeAt: int -> string, code: string, now: int, window: int, afterStep: Option<int>): Option<int> {
    if !SixDigits(code) then None
    else
      var m := FirstMatch(codeAt, code, now - window, now + window);
      if m.Some? && afterStep.Some? && m.value <= afterStep.value then None else m
  }

  /** Every candidate step is checked, whichever matches. */
  method VerifyTotp(codeAt: int -> string, code: string, atMs: int, window: int, afterStep: Option<int>) returns (r: Option<int>)
    ensures r == Verified(codeAt, code, StepOf(atMs), window, afterStep)
  {
    var now := StepOf(atMs);
    if !SixDigits(code) { return None; }
    var matched: Option<int> := None;
    var step := now - window;
    while step <= now + window
      invariant now - window <= step && (if window < 0 then step == now - window else step <= now + window + 1)
      invariant matched.Some? ==>
                  now - window <= matched.value < step && codeAt(matched.value) == code
                  && forall s :: now - window <= s < matched.value ==> codeAt(s) != code
      invariant matched.None? ==> forall s :: now - window <= s < step ==> codeAt(s) != code
      decreases now + window + 1 - step
    {
      if codeAt(step) == code && matched.None? { matched := Some(step); }
      step := step + 1;
    }
    FirstIsUnique(codeAt, code, now - window, now + window, matched);
    if matched.None? { return None; }
    if afterStep.Some? && matched.value <= afterStep.value { return None; }
    r := matched;
  }

  datatype Attempt = Attempt(code: string, atMs: int)

  /** The steps accepted over a series of attempts, when each accepted step is remembered. */
  function Accepted(codeAt: int -> string, window: int, attempts: seq<Attempt>, afterStep: Option<int>): seq<int> {
    if attempts == [] then []
    else
      var r := Verified(codeAt, attempts[0].code, StepOf(attempts[0].atMs), window, afterStep);
      if r.Some? then [r.value] + Accepted(codeAt, window, attempts[1..], r)
      else Accepted(codeAt, window, attempts[1..], afterStep)
  }

  /** A code is accepted exactly when it is the code of a step in the window and the first such step
      has not been used, nor a later one. */
  lemma AcceptedIff(codeAt: int -> string, code: string, now: int, window: int, afterStep: Option<int>)
    ensures Verified(codeAt, code, now, window, afterStep).Some? <==>
            && |code| == 6 && (forall c <- code :: c in "0123456789")
            && (exists s :: now - window <= s <= now + window && codeAt(s) == code)
            && (afterStep.Some? ==> forall s :: now - window <= s <= now + window && s <= afterStep.value ==> codeAt(s) != code)
  {
    var m := FirstMatch(codeAt, code, now - window, now + window);
    if m.Some? { assert codeAt(m.value) == code; }
  }

  /** Strictly increasing, and beyond the step used before. */
  predicate Increasing(steps: seq<int>, after: Option<int>) {
    && (forall i, j :: 0 <= i < j < |steps| ==> steps[i] < steps[j])
    && (after.Some? ==> forall i :: 0 <= i < |steps| ==> steps[i] > after.value)
  }

  lemma OneMoreStep(first: int, rest: seq<int>, after: Option<int>)
    requires Increasing(rest, Some(first)) && (after.Some? ==> first > after.value)
    ensures Increasing([first] + rest, after)
  {
  }

  /** The step used last. */
  function LastUsed(steps: seq<int>, afterStep: Option<int>): Option<int> { if steps == [] then afterStep else Some(steps[|steps| - 1]) }

  /** A series with one attempt more accepts the same steps, and the attempt's if it is verified after them. */
  lemma {:induction false} OneMoreAttempt(codeAt: int -> string, window: int, attempts: seq<Attempt>, a: Attempt, afterStep: Option<int>)
    ensures var before := Accepted(codeAt, window, attempts, afterStep);
            var r := Verified(codeAt, a.code, StepOf(a.atMs), window, LastUsed(before, afterStep));
            Accepted(codeAt, window, attempts + [a], afterStep) == before + if r.Some? then [r.value] else []
  {
    hide Verified;
    if attempts == [] {
      assert [] + [a] == [a] && [a][1..] == [];
      assert Accepted(codeAt, window, [a], afterStep) ==
             var r := Verified(codeAt, a.code, StepOf(a.atMs), window, afterStep); if r.Some? then [r.value] + [] else [];
    } else {
      var r := Verified(codeAt, attempts[0].code, StepOf(attempts[0].atMs), window, afterStep);
      assert (attempts + [a])[1..] == attempts[1..] + [a];
      OneMoreAttempt(codeAt, window, attempts[1..], a, if r.Some? then r else afterStep);
    }
  }

  /** No step is accepted twice, whatever is tried and whatever the clock says. */
  lemma {:induction false} NoReplay(codeAt: int -> string, window: int, attempts: seq<Attempt>, afterStep: Option<int>)
    ensures Increasing(Accepted(codeAt, window, attempts, afterStep), afterStep)
  {
    if attempts != [] {
      var r := Verified(codeAt, attempts[0].code, StepOf(attempts[0].atMs), window, afterStep);
      if r.Some? {
        NoReplay(codeAt, window, attempts[1..], r);
        OneMoreStep(r.value, Accepted(codeAt, window, attempts[1..], r), afterStep);
      } else {
        NoReplay(codeAt, window, attempts[1..], afterStep);
      }
    }
  }

  /** A code is accepted for half a minute times the window before and after it was made, whatever part
      of its step that was in, as long as it has not been used. */
  lemma AcceptedInTime(codeAt: int -> string, madeMs: int, triedMs: int, window: nat)
    requires SixDigits(codeAt(StepOf(madeMs))) && madeMs - window * 30_000 <= triedMs <= madeMs + window * 30_000
    ensures Verified(codeAt, codeAt(StepOf(madeMs)), StepOf(triedMs), window, None).Some?
  {
    StepsApart(madeMs, triedMs, window);
    AcceptedIff(codeAt, codeAt(StepOf(madeMs)), StepOf(triedMs), window, None);
  }

  /** And it is accepted no sooner than that before its half minute begins, and no later than that after it ends. */
  lemma AcceptedOnlyInTime(codeAt: int -> string, code: string, triedMs: int, window: int, afterStep: Option<int>)
    requires Verified(codeAt, code, StepOf(triedMs), window, afterStep).Some?
    ensures var s := Verified(codeAt, code, StepOf(triedMs), window, afterStep).value;
            codeAt(s) == code && (s - window) * 30_000 <= triedMs < (s + window + 1) * 30_000
  {
    assert triedMs == STEP_MS * StepOf(triedMs) + triedMs % STEP_MS;
  }

  lemma StepsApart(a: int, b: int, window: nat)
    requires a - window * 30_000 <= b <= a + window * 30_000
    ensures StepOf(b) - window <= StepOf(a) <= StepOf(b) + window
  {
    assert STEP_MS == 30_000;
    assert a == STEP_MS * StepOf(a) + a % STEP_MS && b == STEP_MS * StepOf(b) + b % STEP_MS;
  }
}

/** Every interleaving of credit transactions equals a serial run. */
module CreditSystem {
  import opened CreditLedger
  import opened CreditInvariant
  import opened CreditRuns
  import opened CreditTransactions
  import opened CreditSerial

  /** Commit `i` did exactly what its operation does to the state before it, and touched no
      document it is not recorded to have written. */
  ghost predicate SerialAt(owner: string -> Id, sys: System, i: nat)
    requires i < |sys.log| && |sys.committed| == |sys.log| + 1 == |sys.outcomes| + 1 == |sys.writes| + 1
  {
    var s, s' := sys.committed[i], sys.committed[i + 1];
    && KeysOfOwner(owner, sys.log[i])
    && Apply(s, sys.log[i]) == (s', sys.outcomes[i])
    && Frame(owner, sys.log[i], s, s')
    && (s' == s || AccountDoc(sys.log[i].user) in sys.writes[i])
    && (forall k :: |s.ledger| <= k < |s'.ledger| ==> KeyDoc(s'.ledger[k].key) in sys.writes[i])
  }

  ghost predicate SystemOk(owner: string -> Id, sys: System) {
    && |sys.committed| == |sys.log| + 1 == |sys.outcomes| + 1 == |sys.writes| + 1
    && (forall i :: 0 <= i < |sys.log| ==> SerialAt(owner, sys, i))
    && (forall id <- sys.active :: sys.active[id].at < |sys.committed| && KeysOfOwner(owner, sys.active[id].op))
  }

  /** `Unharmed`, for an arbitrary set of documents. */
  ghost predicate Untouched(owner: string -> Id, snap: Store, cur: Store, user: Id, w: set<Doc>) {
    && snap.ledger <= cur.ledger
    && (forall i :: |snap.ledger| <= i < |cur.ledger| ==> OwnedKey(owner, cur.ledger[i]))
    && (AccountDoc(user) in w ==>
          && SameAccount(snap, cur, user)
          && forall i :: |snap.ledger| <= i < |cur.ledger| ==> cur.ledger[i].userId != user)
    && (forall i :: |snap.ledger| <= i < |cur.ledger| ==> KeyDoc(cur.ledger[i].key) !in w)
  }

  lemma UntouchedStep(owner: string -> Id, sys: System, snap: Store, b: nat, user: Id, w: set<Doc>)
    requires SystemOk(owner, sys) && b < |sys.log| && sys.writes[b] * w == {}
    requires Untouched(owner, snap, sys.committed[b], user, w)
    ensures Untouched(owner, snap, sys.committed[b + 1], user, w)
  {
    assert SerialAt(owner, sys, b);
    var s, s' := sys.committed[b], sys.committed[b + 1];
    if s' != s {
      assert forall d <- sys.writes[b] :: d !in sys.writes[b] * w;
      assert AccountDoc(user) in w ==> sys.log[b].user != user;
      forall i | |snap.ledger| <= i < |s'.ledger|
        ensures OwnedKey(owner, s'.ledger[i]) && KeyDoc(s'.ledger[i].key) !in w
        ensures AccountDoc(user) in w ==> s'.ledger[i].userId != user
      {
        if i < |s.ledger| {
          assert s'.ledger[i] == s.ledger[i];
        } else {
          assert Mine(owner, sys.log[b], s'.ledger[i]);
        }
      }
      if AccountDoc(user) in w { assert SameAccount(s, s', user); }
    }
  }

  lemma {:induction false} NoConflictUntouched(owner: string -> Id, sys: System, a: nat, b: nat, user: Id, w: set<Doc>)
    requires SystemOk(owner, sys) && a <= b < |sys.committed|
    requires forall i :: a <= i < b ==> sys.writes[i] * w == {}
    ensures Untouched(owner, sys.committed[a], sys.committed[b], user, w)
    decreases b - a
  {
    if a < b {
      NoConflictUntouched(owner, sys, a, b - 1, user, w);
      UntouchedStep(owner, sys, sys.committed[a], b - 1, user, w);
    }
  }

  /** One commit extends the serial history. */
  lemma CommitExtends(owner: string -> Id, snap: Store, cur: Store, op: Op)
    requires KeysOfOwner(owner, op) && Untouched(owner, snap, cur, op.user, Writes(snap, op)) && !Apply(snap, op).1.Thrown()
    ensures var next := Merge(cur, snap, op);
            && Apply(cur, op) == (next, Apply(snap, op).1)
            && Frame(owner, op, cur, next)
            && (next == cur || AccountDoc(op.user) in Writes(snap, op))
            && (forall k :: |cur.ledger| <= k < |next.ledger| ==> KeyDoc(next.ledger[k].key) in Writes(snap, op))
  {
    assert Unharmed(owner, snap, cur, op);
    CommitIsSerial(owner, snap, cur, op);
    ApplyFrame(owner, cur, op);
    var next := Merge(cur, snap, op);
    if !ReadsOnly(Apply(snap, op).1, op) {
      var added := NewEntries(snap, Apply(snap, op).0);
      forall k | |cur.ledger| <= k < |next.ledger| ensures KeyDoc(next.ledger[k].key) in Writes(snap, op) {
        assert next.ledger[k] == added[k - |cur.ledger|];
        WritesKey(snap, op, next.ledger[k]);
      }
    }
  }

  ghost predicate StepOk(owner: string -> Id, step: Step) { step.Begin? ==> KeysOfOwner(owner, step.op) }

  lemma NextKeepsOk(owner: string -> Id, sys: System, step: Step)
    requires SystemOk(owner, sys) && StepOk(owner, step)
    ensures SystemOk(owner, Next(sys, step))
  {
    var sys' := Next(sys, step);
    if sys'.log != sys.log {
      var t := sys.active[step.id];
      var snap := sys.committed[t.at];
      NoConflictUntouched(owner, sys, t.at, |sys.committed| - 1, t.op.user, Writes(snap, t.op));
      CommitExtends(owner, snap, Latest(sys), t.op);
    }
    forall i | 0 <= i < |sys'.log| ensures SerialAt(owner, sys', i) {
      if i < |sys.log| { assert SerialAt(owner, sys, i); }
    }
  }

  lemma {:induction false} ExecuteKeepsOk(owner: string -> Id, sys: System, steps: seq<Step>)
    requires SystemOk(owner, sys) && forall step <- steps :: StepOk(owner, step)
    ensures SystemOk(owner, Execute(sys, steps))
    ensures Execute(sys, steps).committed[0] == sys.committed[0]
    decreases |steps|
  {
    if steps != [] {
      assert steps[0] in steps && forall step <- steps[1..] :: step in steps;
      NextKeepsOk(owner, sys, steps[0]);
      ExecuteKeepsOk(owner, Next(sys, steps[0]), steps[1..]);
    }
  }

  lemma {:induction false} HistoryIsRun(owner: string -> Id, sys: System, n: nat)
    requires SystemOk(owner, sys) && n <= |sys.log|
    ensures Run(sys.committed[n], sys.log[n..]) == Latest(sys)
    decreases |sys.log| - n
  {
    if n < |sys.log| {
      assert SerialAt(owner, sys, n);
      assert sys.log[n..][1..] == sys.log[n + 1..];
      HistoryIsRun(owner, sys, n + 1);
    }
  }

  /** Any interleaving of any number of callers leaves the store as the serial run of the
      committed operations in commit order leaves it, and each caller was told what the serial
      run would have told it. */
  lemma InterleavingsAreSerial(owner: string -> Id, s: Store, steps: seq<Step>)
    requires forall step <- steps :: StepOk(owner, step)
    ensures var sys := Execute(Initial(s), steps);
            && |sys.committed| == |sys.log| + 1 == |sys.outcomes| + 1
            && Latest(sys) == Run(s, sys.log)
            && forall i :: 0 <= i < |sys.log| ==> Apply(sys.committed[i], sys.log[i]) == (sys.committed[i + 1], sys.outcomes[i])
  {
    ExecuteKeepsOk(owner, Initial(s), steps);
    var sys := Execute(Initial(s), steps);
    HistoryIsRun(owner, sys, 0);
    assert sys.log[0..] == sys.log;
    forall i | 0 <= i < |sys.log| ensures Apply(sys.committed[i], sys.log[i]) == (sys.committed[i + 1], sys.outcomes[i]) {
      assert SerialAt(owner, sys, i);
    }
  }

  /** So whatever the interleaving, an idempotency key is written at most once and the account
      always equals the replay of its ledger. */
  lemma InterleavingsKeepInv(owner: string -> Id, steps: seq<Step>)
    requires forall step <- steps :: StepOk(owner, step)
    requires DisciplinedRun(EMPTY_STORE, owner, Execute(Initial(EMPTY_STORE), steps).log)
    ensures var s := Latest(Execute(Initial(EMPTY_STORE), steps));
            && KeysUnique(s.ledger)
            && forall user :: AccountOf(s, user) == Replay(EntriesOf(s.ledger, user), AccountOf(s, user).version)
  {
    InterleavingsAreSerial(owner, EMPTY_STORE, steps);
    EmptyInv(owner);
    var log := Execute(Initial(EMPTY_STORE), steps).log;
    RunKeepsInv(EMPTY_STORE, owner, log);
    var s := Run(EMPTY_STORE, log);
    forall user ensures AccountOf(s, user) == Replay(EntriesOf(s.ledger, user), AccountOf(s, user).version) {
      assert UserOk(s, user);
    }
  }
}

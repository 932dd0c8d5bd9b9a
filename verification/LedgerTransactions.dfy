/** Credit operations by any number of concurrent callers. Each runs as a transaction on the
    snapshot current when it began; it commits only if no document it writes was written by a
    commit after its snapshot (first committer wins), and merges its writes into the latest
    state. Every interleaving equals the serial run of the committed operations. */
module CreditTransactions {
  import opened Wrappers
  import opened CreditLedger
  import opened CreditInvariant
  import opened CreditRuns

  /** A document a transaction writes: a user's account, or the ledger's entry with a unique key. */
  datatype Doc = AccountDoc(user: Id) | KeyDoc(key: string)

  datatype Txn = Txn(op: Op, at: nat)

  datatype System = System(
    committed: seq<Store>,      // committed states, the initial one first
    writes: seq<set<Doc>>,      // what the i-th commit wrote
    log: seq<Op>,               // the operation of the i-th commit
    outcomes: seq<Outcome>,     // what its caller was told
    active: map<nat, Txn>)      // transactions in flight

  datatype Step = Begin(id: nat, op: Op) | Finish(id: nat)

  function Latest(sys: System): Store
    requires sys.committed != []
  {
    sys.committed[|sys.committed| - 1]
  }

  // ---- What a transaction writes -------------------------------------------------------------

  function NewEntries(s: Store, s': Store): seq<Entry> {
    if |s.ledger| <= |s'.ledger| then s'.ledger[|s.ledger|..] else []
  }

  /** Operations that find their entry already there return before touching the account. */
  predicate ReadsOnly(o: Outcome, op: Op) {
    o.Thrown() || (op.Grant? && o.AlreadyDone?) || (o.ReservedFrom? && !o.created)
  }

  function Writes(snap: Store, op: Op): set<Doc> {
    var r := Apply(snap, op);
    if ReadsOnly(r.1, op) then {}
    else {AccountDoc(op.user)} + set e | e in NewEntries(snap, r.0) :: KeyDoc(e.key)
  }

  /** The latest state with the transaction's writes applied. */
  function Merge(cur: Store, snap: Store, op: Op): Store {
    var r := Apply(snap, op);
    if ReadsOnly(r.1, op) then cur
    else Store(cur.accounts[op.user := AccountOf(r.0, op.user)], cur.ledger + NewEntries(snap, r.0))
  }

  predicate Conflicts(sys: System, at: nat, w: set<Doc>) {
    exists i :: at <= i < |sys.writes| && sys.writes[i] * w != {}
  }

  function Next(sys: System, step: Step): System
    requires sys.committed != []
  {
    match step
    case Begin(id, op) =>
      if id in sys.active then sys
      else sys.(active := sys.active[id := Txn(op, |sys.committed| - 1)])
    case Finish(id) =>
      if id !in sys.active then sys
      else
        var t := sys.active[id];
        var ended := sys.(active := sys.active - {id});
        if t.at >= |sys.committed| then ended
        else
          var snap := sys.committed[t.at];
          var o := Apply(snap, t.op).1;
          if o.Thrown() || Conflicts(sys, t.at, Writes(snap, t.op)) then ended
          else ended.(
            committed := sys.committed + [Merge(Latest(sys), snap, t.op)],
            writes := sys.writes + [Writes(snap, t.op)],
            log := sys.log + [t.op],
            outcomes := sys.outcomes + [o])
  }

  function Execute(sys: System, steps: seq<Step>): (r: System)
    requires sys.committed != []
    ensures r.committed != []
    decreases |steps|
  {
    if steps == [] then sys else Execute(Next(sys, steps[0]), steps[1..])
  }

  function Initial(s: Store): System { System([s], [], [], [], map[]) }

  // ---- Keys belong to owners -----------------------------------------------------------------

  ghost predicate KeysOfOwner(owner: string -> Id, op: Op) {
    match op
    case Grant(_, _, _, key, _, _) => CallerKey(key)
    case Reserve(user, session, _) => owner(session) == user
    case Settle(user, session, _) => owner(session) == user
    case Revoke(_, _, key, _) => CallerKey(key)
    case Deduct(_, _, key, _) => CallerKey(key)
    case Recompute(_) => true
  }

  ghost predicate OwnedKey(owner: string -> Id, e: Entry) {
    forall session: string :: e.key == ReserveKey(session) || e.key == SettleKey(session) ==> e.userId == owner(session)
  }

  lemma CallerKeyIsOwned(owner: string -> Id, e: Entry)
    requires !SessionKey(e.key)
    ensures OwnedKey(owner, e)
  {
    forall session: string ensures e.key != ReserveKey(session) && e.key != SettleKey(session) {
      SessionKeysDiffer(session, session);
    }
  }

  predicate SameAccount(s: Store, t: Store, user: Id) {
    (user in s.accounts <==> user in t.accounts) && AccountOf(s, user) == AccountOf(t, user)
  }

  /** Every entry an operation writes is its user's, under a key its user owns. */
  ghost predicate Mine(owner: string -> Id, op: Op, e: Entry) { e.userId == op.user && OwnedKey(owner, e) }

  /** What an operation leaves alone: other users' accounts, and the ledger so far. */
  ghost predicate Frame(owner: string -> Id, op: Op, s: Store, r: Store) {
    && s.ledger <= r.ledger
    && (forall i :: |s.ledger| <= i < |r.ledger| ==> Mine(owner, op, r.ledger[i]))
    && (forall u :: u != op.user ==> SameAccount(s, r, u))
  }

  lemma PostFrame(owner: string -> Id, op: Op, s0: Store, s: Store, e: Entry)
    requires Frame(owner, op, s0, s) && Mine(owner, op, e)
    ensures Frame(owner, op, s0, Post(s, e))
  {
    var r := Post(s, e);
    forall i | |s0.ledger| <= i < |r.ledger| ensures Mine(owner, op, r.ledger[i]) {
      if i < |s.ledger| { assert r.ledger[i] == s.ledger[i]; } else { assert r.ledger[i] == e; }
    }
    forall u | u != op.user ensures SameAccount(s0, r, u) { assert SameAccount(s0, s, u); }
  }

  lemma TakeFromFrame(owner: string -> Id, op: Op, s0: Store, s: Store, lots: seq<Lot>, left: int, r: Store)
    requires op.Deduct? && CallerKey(op.key) && left >= 0 && Frame(owner, op, s0, s)
    requires TakeFrom(s, op.user, lots, 0, left, PartKeys(op.key)) == Some(r)
    ensures Frame(owner, op, s0, r)
  {
    var keeps := (x: Store, i: nat) => Frame(owner, op, s0, x);
    forall x: Store, i: nat, l: int | i < |lots| && l > 0 && keeps(x, i) && !HasKey(x.ledger, PartKeys(op.key)(i))
      ensures keeps(TakeOne(x, op.user, lots, i, l, PartKeys(op.key)), i + 1)
    {
      var e := WithdrawEntry(op.user, lots[i].lotId, Min(l, lots[i].remaining), PartKey(op.key, i));
      CallerKeyParts(op.key, i);
      CallerKeyIsOwned(owner, e);
      PostFrame(owner, op, s0, x, e);
    }
    TakeFromInduction(keeps, s, op.user, lots, 0, left, PartKeys(op.key), r);
  }

  lemma SessionEntryIsMine(owner: string -> Id, op: Op, session: string, e: Entry)
    requires e.userId == op.user == owner(session) && e.key in {ReserveKey(session), SettleKey(session)}
    ensures Mine(owner, op, e)
  {
    forall other: string | e.key == ReserveKey(other) || e.key == SettleKey(other) ensures e.userId == owner(other) {
      SessionKeysDiffer(session, other);
      SessionKeysDiffer(other, session);
    }
  }

  lemma ApplyFrame(owner: string -> Id, s: Store, op: Op)
    requires KeysOfOwner(owner, op)
    ensures Frame(owner, op, s, Apply(s, op).0)
  {
    var r := Apply(s, op);
    var s1 := Bump(s, op.user);
    assert Frame(owner, op, s, s1);
    match op
    case Deduct(_, _, _, _) =>
      var t := TakeFrom(s1, op.user, UsableLots(AccountOf(s, op.user).lots, op.now), 0, op.credits, PartKeys(op.key));
      if op.credits > 0 && t.Some? {
        TakeFromFrame(owner, op, s, s1, UsableLots(AccountOf(s, op.user).lots, op.now), op.credits, t.value);
      }
    case Recompute(_) =>
    case Grant(_, _, _, key, _, _) =>
      CallerKeyParts(key, 0);
      CallerKeyIsOwned(owner, GrantEntry(op));
      PostFrame(owner, op, s, s1, GrantEntry(op));
    case Revoke(_, lotId, key, max) =>
      var e := WithdrawEntry(op.user, lotId, Revocable(AccountOf(s, op.user), lotId, max), key);
      CallerKeyParts(key, 0);
      CallerKeyIsOwned(owner, e);
      PostFrame(owner, op, s, s1, e);
    case Reserve(_, session, now) =>
      var lots := UsableLots(AccountOf(s, op.user).lots, now);
      if lots != [] {
        var e := ReserveEntry(op.user, session, lots[0].lotId);
        SessionEntryIsMine(owner, op, session, e);
        PostFrame(owner, op, s, s1, e);
      }
    case Settle(_, session, refund) =>
      var reserve := FindEntry(s.ledger, ReserveKey(session));
      if reserve.Some? {
        var e := SettleEntry(op.user, session, refund, reserve.value.lotId);
        SessionEntryIsMine(owner, op, session, e);
        PostFrame(owner, op, s, s1, e);
      }
  }

  // ---- Committing late is as good as running now ---------------------------------------------

  /** No commit after the snapshot touched what the transaction writes. */
  ghost predicate Unharmed(owner: string -> Id, snap: Store, cur: Store, op: Op) {
    && snap.ledger <= cur.ledger
    && (forall i :: |snap.ledger| <= i < |cur.ledger| ==> OwnedKey(owner, cur.ledger[i]))
    && (AccountDoc(op.user) in Writes(snap, op) ==>
          && SameAccount(snap, cur, op.user)
          && forall i :: |snap.ledger| <= i < |cur.ledger| ==> cur.ledger[i].userId != op.user)
    && (forall i :: |snap.ledger| <= i < |cur.ledger| ==> KeyDoc(cur.ledger[i].key) !in Writes(snap, op))
  }

  /** A key has the same entry in the snapshot and now, if the entries since do not carry it. */
  lemma SameEntry(a: seq<Entry>, b: seq<Entry>, key: string)
    requires a <= b && (FindEntry(a, key).Some? || forall i :: |a| <= i < |b| ==> b[i].key != key)
    ensures FindEntry(b, key) == FindEntry(a, key)
    ensures HasKey(b, key) == HasKey(a, key)
  {
    if a == [] {
      assert forall e <- b :: e.key != key;
    } else {
      assert a[0] == b[0];
      assert a[1..] <= b[1..] by { assert forall i :: 0 <= i < |a| - 1 ==> a[1..][i] == a[i + 1] == b[i + 1] == b[1..][i]; }
      if a[0].key != key {
        assert forall i :: |a[1..]| <= i < |b[1..]| ==> b[1..][i] == b[i + 1];
        SameEntry(a[1..], b[1..], key);
      }
      HasKeyFound(a, key);
      HasKeyFound(b, key);
    }
  }

  lemma HasKeyFound(l: seq<Entry>, key: string)
    ensures HasKey(l, key) == FindEntry(l, key).Some?
  {
  }

  /** The user's entries are the same, if those since belong to others. */
  lemma SameEntries(a: seq<Entry>, b: seq<Entry>, user: Id)
    requires a <= b && forall i :: |a| <= i < |b| ==> b[i].userId != user
    ensures EntriesOf(b, user) == EntriesOf(a, user)
    decreases |b|
  {
    if |a| < |b| {
      assert a <= b[..|b| - 1];
      SameEntries(a, b[..|b| - 1], user);
    } else {
      assert a == b;
    }
  }

  lemma WritesKey(snap: Store, op: Op, e: Entry)
    requires !ReadsOnly(Apply(snap, op).1, op) && e in NewEntries(snap, Apply(snap, op).0)
    ensures KeyDoc(e.key) in Writes(snap, op)
  {
  }

  /** Posting the same entry on an equal account, with other entries in between. */
  lemma PostMerges(snap: Store, cur: Store, e: Entry)
    requires SameAccount(snap, cur, e.userId)
    ensures var s, c := Post(Bump(snap, e.userId), e), Post(Bump(cur, e.userId), e);
            c == Store(cur.accounts[e.userId := AccountOf(s, e.userId)], cur.ledger + [e])
    ensures NewEntries(snap, Post(Bump(snap, e.userId), e)) == [e]
  {
    var u := e.userId;
    var c := Post(Bump(cur, u), e);
    assert c.accounts == cur.accounts[u := AccountOf(c, u)];
  }
}

/** Serialisability: a transaction that commits without conflict does to the latest state what
    it did to its snapshot, so every interleaving equals a serial run. */
module CreditSerial {
  import opened Wrappers
  import opened CreditLedger
  import opened CreditRuns
  import opened CreditTransactions

  // ---- One transaction -----------------------------------------------------------------------

  ghost predicate Merges(snap: Store, cur: Store, op: Op) {
    Apply(cur, op) == (Merge(cur, snap, op), Apply(snap, op).1)
  }

  /** A key that no commit since the snapshot took. */
  lemma SessionKeySame(owner: string -> Id, snap: Store, cur: Store, op: Op, session: string, key: string)
    requires Unharmed(owner, snap, cur, op) && op.user == owner(session) && key in {ReserveKey(session), SettleKey(session)}
    requires AccountDoc(op.user) in Writes(snap, op) || HasKey(snap.ledger, key)
    ensures FindEntry(cur.ledger, key) == FindEntry(snap.ledger, key)
  {
    HasKeyFound(snap.ledger, key);
    SameEntry(snap.ledger, cur.ledger, key);
  }

  lemma GrantMerges(owner: string -> Id, snap: Store, cur: Store, op: Op)
    requires op.Grant? && Unharmed(owner, snap, cur, op) && !Apply(snap, op).1.Thrown()
    ensures Merges(snap, cur, op)
  {
    if HasKey(snap.ledger, op.key) {
      HasKeyFound(snap.ledger, op.key);
      SameEntry(snap.ledger, cur.ledger, op.key);
    } else {
      PostMerges(snap, cur, GrantEntry(op));
      WritesKey(snap, op, GrantEntry(op));
      SameEntry(snap.ledger, cur.ledger, op.key);
    }
  }

  lemma ReserveMerges(owner: string -> Id, snap: Store, cur: Store, op: Op)
    requires op.Reserve? && owner(op.session) == op.user && Unharmed(owner, snap, cur, op) && !Apply(snap, op).1.Thrown()
    ensures Merges(snap, cur, op)
  {
    HasKeyFound(snap.ledger, ReserveKey(op.session));
    SessionKeySame(owner, snap, cur, op, op.session, ReserveKey(op.session));
    if !HasKey(snap.ledger, ReserveKey(op.session)) {
      var lots := UsableLots(AccountOf(snap, op.user).lots, op.now);
      PostMerges(snap, cur, ReserveEntry(op.user, op.session, lots[0].lotId));
    }
  }

  lemma BumpMerges(snap: Store, cur: Store, user: Id)
    requires SameAccount(snap, cur, user)
    ensures Bump(cur, user) == Store(cur.accounts[user := AccountOf(Bump(snap, user), user)], cur.ledger + [])
  {
  }

  lemma SettleMerges(owner: string -> Id, snap: Store, cur: Store, op: Op)
    requires op.Settle? && owner(op.session) == op.user && Unharmed(owner, snap, cur, op)
    ensures Merges(snap, cur, op)
  {
    SessionKeySame(owner, snap, cur, op, op.session, SettleKey(op.session));
    SessionKeySame(owner, snap, cur, op, op.session, ReserveKey(op.session));
    var reserve := FindEntry(snap.ledger, ReserveKey(op.session));
    if FindEntry(snap.ledger, SettleKey(op.session)).Some? || reserve.None? {
      BumpMerges(snap, cur, op.user);
      assert NewEntries(snap, Bump(snap, op.user)) == [];
    } else {
      PostMerges(snap, cur, SettleEntry(op.user, op.session, op.refund, reserve.value.lotId));
    }
  }

  lemma RevokeMerges(owner: string -> Id, snap: Store, cur: Store, op: Op)
    requires op.Revoke? && Unharmed(owner, snap, cur, op)
    ensures Merges(snap, cur, op)
  {
    if HasKey(snap.ledger, op.key) {
      HasKeyFound(snap.ledger, op.key);
      SameEntry(snap.ledger, cur.ledger, op.key);
      BumpMerges(snap, cur, op.user);
      assert NewEntries(snap, Bump(snap, op.user)) == [];
    } else {
      var e := WithdrawEntry(op.user, op.lotId, Revocable(AccountOf(snap, op.user), op.lotId, op.max), op.key);
      WithdrawWrites(snap, op, e);
      SameEntry(snap.ledger, cur.ledger, op.key);
      NewWithdrawalMerges(snap, cur, op, e);
    }
  }

  lemma NewWithdrawalMerges(snap: Store, cur: Store, op: Op, e: Entry)
    requires op.Revoke? && SameAccount(snap, cur, op.user) && !HasKey(snap.ledger, op.key) && !HasKey(cur.ledger, op.key)
    requires e == WithdrawEntry(op.user, op.lotId, Revocable(AccountOf(snap, op.user), op.lotId, op.max), op.key)
    requires NewEntries(snap, Apply(snap, op).0) == [e]
    ensures Merges(snap, cur, op)
  {
    if e.amount < 0 {
      PostMerges(snap, cur, e);
      assert Apply(cur, op).0 == Post(Bump(cur, op.user), e);
    } else {
      EmptyWithdrawalMerges(snap, cur, e);
      assert Apply(cur, op).0 == Bump(cur, op.user).(ledger := cur.ledger + [e]);
    }
  }

  lemma EmptyWithdrawalMerges(snap: Store, cur: Store, e: Entry)
    requires SameAccount(snap, cur, e.userId)
    ensures var s := Bump(snap, e.userId);
            Bump(cur, e.userId).(ledger := cur.ledger + [e])
            == Store(cur.accounts[e.userId := AccountOf(s.(ledger := s.ledger + [e]), e.userId)], cur.ledger + [e])
  {
  }

  lemma WithdrawWrites(snap: Store, op: Op, e: Entry)
    requires op.Revoke? && !HasKey(snap.ledger, op.key)
    requires e == WithdrawEntry(op.user, op.lotId, Revocable(AccountOf(snap, op.user), op.lotId, op.max), op.key)
    ensures NewEntries(snap, Apply(snap, op).0) == [e]
    ensures KeyDoc(op.key) in Writes(snap, op)
  {
    assert e in NewEntries(snap, Apply(snap, op).0);
    WritesKey(snap, op, e);
  }

  lemma RecomputeMerges(owner: string -> Id, snap: Store, cur: Store, op: Op)
    requires op.Recompute? && Unharmed(owner, snap, cur, op)
    ensures Merges(snap, cur, op)
  {
    SameEntries(snap.ledger, cur.ledger, op.user);
    assert NewEntries(snap, Apply(snap, op).0) == [];
    assert cur.ledger + [] == cur.ledger;
  }

  // ---- Deductions ----------------------------------------------------------------------------

  /** `c` is `cur` with the writes that lead from `snap` to `s`. */
  ghost predicate Alongside(snap: Store, cur: Store, user: Id, s: Store, c: Store) {
    && snap.ledger <= s.ledger
    && user in s.accounts
    && c == Store(cur.accounts[user := s.accounts[user]], cur.ledger + s.ledger[|snap.ledger|..])
  }

  lemma AlongsideStep(snap: Store, cur: Store, s: Store, c: Store, e: Entry)
    requires Alongside(snap, cur, e.userId, s, c)
    ensures Alongside(snap, cur, e.userId, Post(s, e), Post(c, e))
  {
    var s', c' := Post(s, e), Post(c, e);
    assert c'.accounts == cur.accounts[e.userId := s'.accounts[e.userId]];
    assert c'.ledger == cur.ledger + s'.ledger[|snap.ledger|..];
  }

  lemma AlongsideKey(snap: Store, cur: Store, user: Id, s: Store, c: Store, key: string)
    requires Alongside(snap, cur, user, s, c) && snap.ledger <= cur.ledger && !HasKey(s.ledger, key)
    requires forall i :: |snap.ledger| <= i < |cur.ledger| ==> cur.ledger[i].key != key
    ensures !HasKey(c.ledger, key)
  {
    forall e | e in c.ledger ensures e.key != key {
      var i :| 0 <= i < |c.ledger| && c.ledger[i] == e;
      if i < |snap.ledger| {
        assert s.ledger[i] == e;
      } else if i < |cur.ledger| {
        assert cur.ledger[i] == e;
      } else {
        assert s.ledger[|snap.ledger| + i - |cur.ledger|] == e;
      }
    }
  }

  lemma {:induction false} TakeFromMerges(
    snap: Store, cur: Store, user: Id, s: Store, c: Store, lots: seq<Lot>, i: nat, left: int, keys: nat -> string, r: Store)
    requires Alongside(snap, cur, user, s, c) && snap.ledger <= cur.ledger && i <= |lots|
    requires TakeFrom(s, user, lots, i, left, keys) == Some(r)
    requires forall j, k :: |snap.ledger| <= j < |cur.ledger| && |s.ledger| <= k < |r.ledger| ==> cur.ledger[j].key != r.ledger[k].key
    ensures exists c' :: TakeFrom(c, user, lots, i, left, keys) == Some(c') && Alongside(snap, cur, user, r, c')
    decreases |lots| - i
  {
    if left == 0 || i == |lots| {
      assert TakeFrom(c, user, lots, i, left, keys) == Some(c);
    } else {
      var s', c' := TakeOne(s, user, lots, i, left, keys), TakeOne(c, user, lots, i, left, keys);
      var left' := left - Min(left, lots[i].remaining);
      TakeFromGrows(s', user, lots, i + 1, left', keys);
      assert s'.ledger[|s.ledger|].key == keys(i) && r.ledger[|s.ledger|] == s'.ledger[|s.ledger|];
      AlongsideKey(snap, cur, user, s, c, keys(i));
      AlongsideStep(snap, cur, s, c, WithdrawEntry(user, lots[i].lotId, Min(left, lots[i].remaining), keys(i)));
      TakeFromMerges(snap, cur, user, s', c', lots, i + 1, left', keys, r);
    }
  }

  lemma DeductMerges(owner: string -> Id, snap: Store, cur: Store, op: Op)
    requires op.Deduct? && Unharmed(owner, snap, cur, op) && !Apply(snap, op).1.Thrown()
    ensures Merges(snap, cur, op)
  {
    if HasKey(snap.ledger, op.key) {
      HasKeyFound(snap.ledger, op.key);
      SameEntry(snap.ledger, cur.ledger, op.key);
      BumpMerges(snap, cur, op.user);
      assert NewEntries(snap, Bump(snap, op.user)) == [];
    } else {
      var s1, c1 := Bump(snap, op.user), Bump(cur, op.user);
      var lots := UsableLots(AccountOf(snap, op.user).lots, op.now);
      var r := TakeFrom(s1, op.user, lots, 0, op.credits, PartKeys(op.key)).value;
      BumpMerges(snap, cur, op.user);
      forall j, k | |snap.ledger| <= j < |cur.ledger| && |s1.ledger| <= k < |r.ledger|
        ensures cur.ledger[j].key != r.ledger[k].key
      {
        TakeFromGrows(s1, op.user, lots, 0, op.credits, PartKeys(op.key));
        assert r.ledger[k] == NewEntries(snap, r)[k - |snap.ledger|];
        WritesKey(snap, op, r.ledger[k]);
      }
      TakeFromMerges(snap, cur, op.user, s1, c1, lots, 0, op.credits, PartKeys(op.key), r);
      FirstKeyTaken(snap, cur, op, lots, r);
    }
  }

  /** The first part of a deduction carries the caller's key, so no commit since took it. */
  lemma FirstKeyTaken(snap: Store, cur: Store, op: Op, lots: seq<Lot>, r: Store)
    requires op.Deduct? && op.credits > 0 && snap.ledger <= cur.ledger && !HasKey(snap.ledger, op.key)
    requires lots == UsableLots(AccountOf(snap, op.user).lots, op.now) && SumRemaining(lots) >= op.credits
    requires TakeFrom(Bump(snap, op.user), op.user, lots, 0, op.credits, PartKeys(op.key)) == Some(r)
    requires forall j, k :: |snap.ledger| <= j < |cur.ledger| && |snap.ledger| <= k < |r.ledger| ==> cur.ledger[j].key != r.ledger[k].key
    ensures !HasKey(cur.ledger, op.key)
  {
    var s1 := Bump(snap, op.user);
    var s' := TakeOne(s1, op.user, lots, 0, op.credits, PartKeys(op.key));
    TakeFromGrows(s', op.user, lots, 1, op.credits - Min(op.credits, lots[0].remaining), PartKeys(op.key));
    assert r.ledger[|snap.ledger|] == s'.ledger[|snap.ledger|] && s'.ledger[|snap.ledger|].key == op.key;
    HasKeyFound(cur.ledger, op.key);
    SameEntry(snap.ledger, cur.ledger, op.key);
  }

  /** Committing a transaction merges exactly what running it now would do. */
  lemma CommitIsSerial(owner: string -> Id, snap: Store, cur: Store, op: Op)
    requires KeysOfOwner(owner, op) && Unharmed(owner, snap, cur, op) && !Apply(snap, op).1.Thrown()
    ensures Apply(cur, op) == (Merge(cur, snap, op), Apply(snap, op).1)
  {
    match op
    case Grant(_, _, _, _, _, _) => GrantMerges(owner, snap, cur, op);
    case Reserve(_, _, _) => ReserveMerges(owner, snap, cur, op);
    case Settle(_, _, _) => SettleMerges(owner, snap, cur, op);
    case Revoke(_, _, _, _) => RevokeMerges(owner, snap, cur, op);
    case Deduct(_, _, _, _) => DeductMerges(owner, snap, cur, op);
    case Recompute(_) => RecomputeMerges(owner, snap, cur, op);
  }
}

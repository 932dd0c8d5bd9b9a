/** Every credit operation keeps the invariant, over every run; and what follows from it. */
module CreditRuns {
  import opened Wrappers
  import opened CreditLedger
  import opened CreditInvariant

  // ---- Picking lots --------------------------------------------------------------------------

  ghost predicate SortedByExpiry(lots: seq<Lot>) {
    forall i, j :: 0 <= i < j < |lots| ==> ExpiresNoLater(lots[i], lots[j])
  }

  lemma InsertKeeps(x: Lot, lots: seq<Lot>)
    ensures forall l :: l in InsertByExpiry(x, lots) <==> l == x || l in lots
    ensures SumRemaining(InsertByExpiry(x, lots)) == x.remaining + SumRemaining(lots)
  {
    if lots == [] || ExpiresNoLater(x, lots[0]) {
      assert ([x] + lots)[1..] == lots;
    } else {
      InsertKeeps(x, lots[1..]);
      var r := InsertByExpiry(x, lots[1..]);
      assert lots == [lots[0]] + lots[1..];
      assert ([lots[0]] + r)[1..] == r;
    }
  }

  lemma {:induction false} InsertDistinct(x: Lot, lots: seq<Lot>)
    requires DistinctLots(lots) && !HasLot(lots, x.lotId)
    ensures DistinctLots(InsertByExpiry(x, lots))
  {
    if lots != [] && !ExpiresNoLater(x, lots[0]) {
      InsertDistinct(x, lots[1..]);
      InsertKeeps(x, lots[1..]);
      var r := InsertByExpiry(x, lots[1..]);
      assert forall l <- r :: l.lotId != lots[0].lotId;
    }
  }

  lemma {:induction false} InsertSorted(x: Lot, lots: seq<Lot>)
    requires SortedByExpiry(lots)
    ensures SortedByExpiry(InsertByExpiry(x, lots))
  {
    if lots != [] && !ExpiresNoLater(x, lots[0]) {
      InsertSorted(x, lots[1..]);
      InsertKeeps(x, lots[1..]);
      var r := InsertByExpiry(x, lots[1..]);
      assert forall l <- r :: ExpiresNoLater(lots[0], l);
    }
  }

  /** The usable lots are exactly the lots with credits that have not expired, earliest first. */
  lemma {:induction false} UsableLotsFacts(lots: seq<Lot>, now: int)
    ensures forall l :: l in UsableLots(lots, now) <==> l in lots && Usable(l, now)
    ensures DistinctLots(lots) ==> DistinctLots(UsableLots(lots, now))
    ensures SortedByExpiry(UsableLots(lots, now))
  {
    if lots != [] {
      UsableLotsFacts(lots[1..], now);
      assert lots == [lots[0]] + lots[1..];
      var rest := UsableLots(lots[1..], now);
      if Usable(lots[0], now) {
        InsertKeeps(lots[0], rest);
        InsertSorted(lots[0], rest);
        if DistinctLots(lots) { InsertDistinct(lots[0], rest); }
      }
    }
  }

  lemma InLotsFound(lots: seq<Lot>, l: Lot)
    requires DistinctLots(lots) && l in lots
    ensures HasLot(lots, l.lotId) && FindLot(lots, l.lotId) == Some(l)
  {
    var i :| 0 <= i < |lots| && lots[i] == l;
    FindLotIs(lots, i);
  }

  // ---- Each operation keeps the invariant ----------------------------------------------------

  /** What the callers of the credit functions do: a session's credit moves belong to the
      session's owner, other keys stay out of the session namespace, a lot id is new. */
  ghost predicate Disciplined(s: Store, owner: string -> Id, op: Op) {
    match op
    case Grant(_, _, _, key, _, lotId) => CallerKey(key) && Fresh(s.ledger, lotId)
    case Reserve(user, session, _) => owner(session) == user
    case Settle(user, session, _) => owner(session) == user
    case Revoke(_, _, key, _) => CallerKey(key)
    case Deduct(_, _, key, _) => CallerKey(key)
    case Recompute(_) => true
  }

  lemma VersionsDoNotMatter(s: Store, s': Store, owner: string -> Id)
    requires Inv(s, owner) && s'.ledger == s.ledger
    requires forall user :: AccountOf(s', user) == AccountOf(s, user).(version := AccountOf(s', user).version)
    ensures Inv(s', owner)
  {
    forall u ensures UserOk(s', u) { assert UserOk(s, u); }
    forall u, lotId ensures Conserved(s', u, lotId) { assert Conserved(s, u, lotId); }
  }

  lemma BumpKeepsInv(s: Store, owner: string -> Id, user: Id)
    requires Inv(s, owner)
    ensures Inv(Bump(s, user), owner)
  {
    VersionsDoNotMatter(s, Bump(s, user), owner);
  }

  lemma GrantKeepsInv(s: Store, owner: string -> Id, op: Op)
    requires op.Grant? && Inv(s, owner) && Disciplined(s, owner, op)
    ensures Inv(Apply(s, op).0, owner)
  {
    if op.amount > 0 && !HasKey(s.ledger, op.key) {
      var s1 := Bump(s, op.user);
      BumpKeepsInv(s, owner, op.user);
      CallerKeyParts(op.key, 0);
      PostKeepsInv(s1, owner, GrantEntry(op));
    }
  }

  lemma ReserveKeepsInv(s: Store, owner: string -> Id, op: Op)
    requires op.Reserve? && Inv(s, owner) && Disciplined(s, owner, op)
    ensures Inv(Apply(s, op).0, owner)
  {
    var a := AccountOf(s, op.user);
    var lots := UsableLots(a.lots, op.now);
    if FindEntry(s.ledger, ReserveKey(op.session)).None? && lots != [] {
      var s1 := Bump(s, op.user);
      var e := ReserveEntry(op.user, op.session, lots[0].lotId);
      assert UserOk(s, op.user);
      UsableLotsFacts(a.lots, op.now);
      InLotsFound(a.lots, lots[0]);
      BumpKeepsInv(s, owner, op.user);
      PostKeepsInv(s1, owner, e);
    }
  }

  /** A session's reservation is in the ledger under its owner, on a lot the owner has. */
  lemma ReservationOf(s: Store, owner: string -> Id, session: string)
    requires Inv(s, owner) && HasKey(s.ledger, ReserveKey(session))
    ensures var r := FindEntry(s.ledger, ReserveKey(session));
            && r.Some?
            && r.value == ReserveEntry(owner(session), session, r.value.lotId)
            && HasLot(AccountOf(s, owner(session)).lots, r.value.lotId)
            && RemainingIn(s, owner(session), r.value.lotId) >= 0
  {
    var r := FindEntry(s.ledger, ReserveKey(session));
    var e := r.value;
    assert WellFormedEntry(e, owner);
    SessionKeysDiffer(session, e.refId);
    SessionKeysDiffer(e.refId, session);
    SessionKeysDiffer(session, session);
    assert e.kind.INTERVIEW_RESERVE?;
    assert UserOk(s, owner(session));
  }

  lemma SettleKeepsInv(s: Store, owner: string -> Id, op: Op)
    requires op.Settle? && Inv(s, owner) && Disciplined(s, owner, op)
    ensures Inv(Apply(s, op).0, owner)
  {
    var s1 := Bump(s, op.user);
    BumpKeepsInv(s, owner, op.user);
    if FindEntry(s.ledger, SettleKey(op.session)).None? && FindEntry(s.ledger, ReserveKey(op.session)).Some? {
      ReservationOf(s, owner, op.session);
      var e := SettleEntry(op.user, op.session, op.refund, FindEntry(s.ledger, ReserveKey(op.session)).value.lotId);
      PostKeepsInv(s1, owner, e);
    }
  }

  lemma EmptyPosting(s: Store, owner: string -> Id, e: Entry)
    requires e.amount == 0 && e.reservedDelta == 0 && e.lotSource.None? && e.userId in s.accounts
    requires Inv(Post(s, e), owner)
    ensures Inv(s.(ledger := s.ledger + [e]), owner)
  {
    assert AddToLot(s.accounts[e.userId].lots, e.lotId, 0) == s.accounts[e.userId].lots;
    VersionsDoNotMatter(Post(s, e), s.(ledger := s.ledger + [e]), owner);
  }

  lemma RevokeKeepsInv(s: Store, owner: string -> Id, op: Op)
    requires op.Revoke? && Inv(s, owner) && Disciplined(s, owner, op)
    ensures Inv(Apply(s, op).0, owner)
  {
    var s1 := Bump(s, op.user);
    BumpKeepsInv(s, owner, op.user);
    if !HasKey(s.ledger, op.key) {
      var n := Revocable(AccountOf(s, op.user), op.lotId, op.max);
      assert UserOk(s, op.user);
      CallerKeyParts(op.key, 0);
      var e := WithdrawEntry(op.user, op.lotId, n, op.key);
      PostKeepsInv(s1, owner, e);
      if n == 0 { EmptyPosting(s1, owner, e); }
    }
  }

  /** The lots still to be taken from, as the account has them. */
  ghost predicate Takeable(s: Store, user: Id, lots: seq<Lot>, i: nat) {
    && DistinctLots(lots)
    && forall k :: i <= k < |lots| ==> lots[k].remaining > 0 && FindLot(AccountOf(s, user).lots, lots[k].lotId) == Some(lots[k])
  }

  lemma TakeOneKeepsInv(s: Store, owner: string -> Id, user: Id, lots: seq<Lot>, i: nat, left: int, keys: nat -> string)
    requires Inv(s, owner) && Takeable(s, user, lots, i) && i < |lots| && left >= 0
    requires !SessionKey(keys(i)) && !HasKey(s.ledger, keys(i))
    ensures var s' := TakeOne(s, user, lots, i, left, keys); Inv(s', owner) && Takeable(s', user, lots, i + 1)
  {
    var e := WithdrawEntry(user, lots[i].lotId, Min(left, lots[i].remaining), keys(i));
    FoundHas(AccountOf(s, user).lots, e.lotId);
    PostKeepsInv(s, owner, e);
    forall k | i < k < |lots|
      ensures FindLot(AddToLot(AccountOf(s, user).lots, e.lotId, e.amount), lots[k].lotId) == Some(lots[k])
    {
      FindLotAdd(AccountOf(s, user).lots, e.lotId, e.amount, lots[k].lotId);
    }
  }

  lemma FoundHas(lots: seq<Lot>, lotId: Id)
    requires FindLot(lots, lotId).Some?
    ensures HasLot(lots, lotId)
  {
  }

  /** What every part of a deduction keeps, the whole deduction keeps. */
  lemma {:induction false} TakeFromInduction(
    keeps: (Store, nat) -> bool, s: Store, user: Id, lots: seq<Lot>, i: nat, left: int, keys: nat -> string, r: Store)
    requires i <= |lots| && left >= 0 && keeps(s, i)
    requires forall s: Store, i: nat, left: int | i < |lots| && left > 0 && keeps(s, i) && !HasKey(s.ledger, keys(i)) ::
               keeps(TakeOne(s, user, lots, i, left, keys), i + 1)
    requires TakeFrom(s, user, lots, i, left, keys) == Some(r)
    ensures exists j: nat :: keeps(r, j)
    decreases |lots| - i
  {
    if left > 0 && i < |lots| {
      TakeFromInduction(
        keeps, TakeOne(s, user, lots, i, left, keys), user, lots, i + 1, left - Min(left, lots[i].remaining), keys, r);
    }
  }

  lemma TakeFromKeepsInv(s: Store, owner: string -> Id, user: Id, lots: seq<Lot>, left: int, keys: nat -> string, r: Store)
    requires Inv(s, owner) && left >= 0 && Takeable(s, user, lots, 0) && forall i :: !SessionKey(keys(i))
    requires TakeFrom(s, user, lots, 0, left, keys) == Some(r)
    ensures Inv(r, owner)
  {
    var keeps := (s: Store, i: nat) => Inv(s, owner) && Takeable(s, user, lots, i);
    forall s: Store, i: nat, left: int | i < |lots| && left > 0 && keeps(s, i) && !HasKey(s.ledger, keys(i))
      ensures keeps(TakeOne(s, user, lots, i, left, keys), i + 1)
    {
      TakeOneKeepsInv(s, owner, user, lots, i, left, keys);
    }
    TakeFromInduction(keeps, s, user, lots, 0, left, keys, r);
  }

  function SumFrom(lots: seq<Lot>, i: nat): int
    requires i <= |lots|
    decreases |lots| - i
  {
    if i == |lots| then 0 else lots[i].remaining + SumFrom(lots, i + 1)
  }

  lemma SumFromIs(lots: seq<Lot>, i: nat)
    requires i <= |lots|
    ensures SumFrom(lots, i) == SumRemaining(lots[i..])
    decreases |lots| - i
  {
    if i < |lots| {
      SumFromIs(lots, i + 1);
      assert lots[i..][1..] == lots[i + 1..];
    }
  }

  lemma SumFromPositive(lots: seq<Lot>, i: nat)
    requires i <= |lots| && forall k :: i <= k < |lots| ==> lots[k].remaining > 0
    ensures SumFrom(lots, i) >= 0
    decreases |lots| - i
  {
  }

  /** A deduction takes exactly the credits asked for, as far as the lots go. */
  lemma {:induction false} TakeFromTakes(s: Store, user: Id, lots: seq<Lot>, i: nat, left: int, keys: nat -> string, r: Store)
    requires left >= 0 && i <= |lots| && forall k :: i <= k < |lots| ==> lots[k].remaining > 0
    requires TakeFrom(s, user, lots, i, left, keys) == Some(r)
    ensures AccountOf(r, user).balance == AccountOf(s, user).balance - Min(left, SumFrom(lots, i))
    decreases |lots| - i
  {
    SumFromPositive(lots, i);
    if left == 0 || i == |lots| {
      assert r == s;
    } else {
      var s', left' := TakeOne(s, user, lots, i, left, keys), left - Min(left, lots[i].remaining);
      assert TakeFrom(s', user, lots, i + 1, left', keys) == Some(r);
      SumFromPositive(lots, i + 1);
      TakeFromTakes(s', user, lots, i + 1, left', keys, r);
      assert AccountOf(s', user).balance == AccountOf(s, user).balance - Min(left, lots[i].remaining);
    }
  }

  lemma DeductKeepsInv(s: Store, owner: string -> Id, op: Op)
    requires op.Deduct? && Inv(s, owner) && Disciplined(s, owner, op)
    ensures Inv(Apply(s, op).0, owner)
    ensures Apply(s, op).1.Done? ==>
              AccountOf(Apply(s, op).0, op.user).balance == AccountOf(s, op.user).balance - op.credits
  {
    var s1 := Bump(s, op.user);
    BumpKeepsInv(s, owner, op.user);
    var a := AccountOf(s, op.user);
    var lots := UsableLots(a.lots, op.now);
    assert UserOk(s, op.user);
    UsableLotsFacts(a.lots, op.now);
    forall k | 0 <= k < |lots| ensures lots[k].remaining > 0 && FindLot(a.lots, lots[k].lotId) == Some(lots[k]) {
      assert lots[k] in lots;
      InLotsFound(a.lots, lots[k]);
    }
    if op.credits > 0 {
      forall i: nat ensures !SessionKey(PartKeys(op.key)(i)) { CallerKeyParts(op.key, i); }
      var r := TakeFrom(s1, op.user, lots, 0, op.credits, PartKeys(op.key));
      if r.Some? {
        TakeFromKeepsInv(s1, owner, op.user, lots, op.credits, PartKeys(op.key), r.value);
        TakeFromTakes(s1, op.user, lots, 0, op.credits, PartKeys(op.key), r.value);
      }
      SumFromIs(lots, 0);
      assert lots[0..] == lots;
    }
  }

  /** Recomputing any account leaves it as it is, one version later. */
  lemma RecomputeIsIdentity(s: Store, owner: string -> Id, user: Id)
    requires Inv(s, owner)
    ensures Apply(s, Recompute(user)) == (Bump(s, user), Done)
  {
    assert UserOk(s, user);
  }

  lemma ApplyKeepsInv(s: Store, owner: string -> Id, op: Op)
    requires Inv(s, owner) && Disciplined(s, owner, op)
    ensures Inv(Apply(s, op).0, owner)
  {
    match op
    case Grant(_, _, _, _, _, _) => GrantKeepsInv(s, owner, op);
    case Reserve(_, _, _) => ReserveKeepsInv(s, owner, op);
    case Settle(_, _, _) => SettleKeepsInv(s, owner, op);
    case Revoke(_, _, _, _) => RevokeKeepsInv(s, owner, op);
    case Deduct(_, _, _, _) => DeductKeepsInv(s, owner, op);
    case Recompute(user) =>
      RecomputeIsIdentity(s, owner, user);
      BumpKeepsInv(s, owner, user);
  }

  // ---- Runs ----------------------------------------------------------------------------------

  /** The state after a series of operations. */
  function Run(s: Store, ops: seq<Op>): Store
    decreases |ops|
  {
    if ops == [] then s else Run(Apply(s, ops[0]).0, ops[1..])
  }

  ghost predicate DisciplinedRun(s: Store, owner: string -> Id, ops: seq<Op>)
    decreases |ops|
  {
    ops == [] || (Disciplined(s, owner, ops[0]) && DisciplinedRun(Apply(s, ops[0]).0, owner, ops[1..]))
  }

  lemma {:induction false} RunKeepsInv(s: Store, owner: string -> Id, ops: seq<Op>)
    requires Inv(s, owner) && DisciplinedRun(s, owner, ops)
    ensures Inv(Run(s, ops), owner)
    decreases |ops|
  {
    if ops != [] {
      ApplyKeepsInv(s, owner, ops[0]);
      RunKeepsInv(Apply(s, ops[0]).0, owner, ops[1..]);
    }
  }

  lemma EmptyInv(owner: string -> Id)
    ensures Inv(EMPTY_STORE, owner)
  {
  }

  /** After any run from the empty store, every stored account is the replay of its ledger,
      balance is the sum of its lots, and nothing is negative. */
  lemma AnyRunAgreesWithReplay(owner: string -> Id, ops: seq<Op>, user: Id)
    requires DisciplinedRun(EMPTY_STORE, owner, ops)
    ensures var s := Run(EMPTY_STORE, ops);
            var a := AccountOf(s, user);
            && a == Replay(EntriesOf(s.ledger, user), a.version)
            && a.balance == SumRemaining(a.lots) >= 0
            && a.reserved == |Held(s.ledger, user)|
            && forall l <- a.lots :: l.remaining >= 0
  {
    EmptyInv(owner);
    RunKeepsInv(EMPTY_STORE, owner, ops);
    var s := Run(EMPTY_STORE, ops);
    assert UserOk(s, user);
    SumNonNegative(AccountOf(s, user).lots);
  }

  lemma SumNonNegative(lots: seq<Lot>)
    requires forall l <- lots :: l.remaining >= 0
    ensures SumRemaining(lots) >= 0
  {
    if lots != [] { SumNonNegative(lots[1..]); }
  }

  datatype LotUsage = LotUsage(granted: int, remaining: int, withdrawn: int, used: int)

  /** `lotUsage`: what became of the credits of one lot. */
  function LotUsageOf(s: Store, user: Id, lotId: Id): LotUsage {
    var granted := Granted(s.ledger, user, lotId);
    var withdrawn := WithdrawnFrom(s.ledger, user, lotId);
    var remaining := RemainingIn(s, user, lotId);
    LotUsage(granted, remaining, withdrawn, Max(0, granted - withdrawn - remaining))
  }

  /** The clip in `lotUsage` never bites: the used credits are those consumed plus those held. */
  lemma LotUsageNeverClips(s: Store, owner: string -> Id, user: Id, lotId: Id)
    requires Inv(s, owner)
    ensures var u := LotUsageOf(s, user, lotId);
            && u.used == |HeldOn(s.ledger, user, lotId)| + |ConsumedOn(s.ledger, user, lotId)|
            && u.granted == u.remaining + u.withdrawn + u.used
  {
    assert Conserved(s, user, lotId);
  }

  // ---- Idempotency ---------------------------------------------------------------------------

  function KeyOf(op: Op): Option<string> {
    match op
    case Grant(_, _, _, key, _, _) => Some(key)
    case Reserve(_, session, _) => Some(ReserveKey(session))
    case Settle(_, session, _) => Some(SettleKey(session))
    case Revoke(_, _, key, _) => Some(key)
    case Deduct(_, _, key, _) => Some(key)
    case Recompute(_) => None
  }

  lemma TakeFromGrows(s: Store, user: Id, lots: seq<Lot>, i: nat, left: int, keys: nat -> string)
    requires i <= |lots|
    ensures var r := TakeFrom(s, user, lots, i, left, keys);
            r.Some? ==>
              && s.ledger <= r.value.ledger
              && (left != 0 && i < |lots| ==> HasKey(r.value.ledger, keys(i)))
    decreases |lots| - i
  {
    if left != 0 && i < |lots| && !HasKey(s.ledger, keys(i)) {
      var s' := TakeOne(s, user, lots, i, left, keys);
      TakeFromGrows(s', user, lots, i + 1, left - Min(left, lots[i].remaining), keys);
      assert s'.ledger[|s.ledger|] in s'.ledger;
      var r := TakeFrom(s, user, lots, i, left, keys);
      if r.Some? { KeysStay(s'.ledger, r.value.ledger, keys(i)); }
    }
  }

  lemma KeysStay(ledger: seq<Entry>, ledger': seq<Entry>, key: string)
    requires ledger <= ledger' && HasKey(ledger, key)
    ensures HasKey(ledger', key)
  {
    var e :| e in ledger && e.key == key;
    assert e in ledger';
  }

  /** The ledger is append-only under every operation. */
  lemma ApplyAppends(s: Store, op: Op)
    ensures s.ledger <= Apply(s, op).0.ledger
  {
    if op.Deduct? {
      TakeFromGrows(Bump(s, op.user), op.user, UsableLots(AccountOf(s, op.user).lots, op.now), 0, op.credits, PartKeys(op.key));
    }
  }

  /** An operation that wrote anything to the ledger left its own key there; one that finds its
      key writes no entry and moves no credit. So each business event happens at most once. */
  lemma AtMostOnce(s: Store, op: Op, key: string)
    requires KeyOf(op) == Some(key)
    ensures var s' := Apply(s, op).0;
            && (s'.ledger != s.ledger ==> !HasKey(s.ledger, key) && HasKey(s'.ledger, key))
            && (HasKey(s.ledger, key) ==> s' == s || s' == Bump(s, op.user))
  {
    var s' := Apply(s, op).0;
    if s'.ledger != s.ledger && !op.Deduct? {
      assert s'.ledger[|s.ledger|].key == key;
      assert s'.ledger[|s.ledger|] in s'.ledger;
    }
    if op.Deduct? {
      var lots := UsableLots(AccountOf(s, op.user).lots, op.now);
      TakeFromGrows(Bump(s, op.user), op.user, lots, 0, op.credits, PartKeys(op.key));
    }
  }
}

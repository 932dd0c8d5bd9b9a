/** What one credit operation does to the lots it names, and that it leaves every other lot alone. */
module CreditEffects {
  import opened Wrappers
  import opened CreditLedger
  import opened CreditInvariant
  import opened CreditRuns

  /** The lot's credits change by `d`, those of the user's other lots not at all. */
  ghost predicate OnlyLot(s: Store, s': Store, user: Id, lotId: Id, d: int) {
    forall l: Id :: RemainingIn(s', user, l) == RemainingIn(s, user, l) + if l == lotId then d else 0
  }

  /** Credits are left and the expiry, if any, is still to come. */
  predicate CanPay(l: Lot, now: int) { l.remaining >= 1 && (l.expiresAt.Some? ==> now < l.expiresAt.value) }

  /** A lot of the account that can pay now, and that no other such lot expires before. */
  ghost predicate EarliestUsable(a: Account, lotId: Id, now: int) {
    exists l <- a.lots ::
      && l.lotId == lotId && CanPay(l, now)
      && forall o <- a.lots :: CanPay(o, now) && o.expiresAt.Some? ==> l.expiresAt.Some? && l.expiresAt.value <= o.expiresAt.value
  }

  lemma PostOnLot(s: Store, owner: string -> Id, e: Entry)
    requires Inv(s, owner) && CanPost(s, owner, e)
    ensures OnlyLot(s, Post(s, e), e.userId, e.lotId, e.amount)
  {
    assert UserOk(s, e.userId);
    forall l: Id
      ensures RemainingIn(Post(s, e), e.userId, l) == RemainingIn(s, e.userId, l) + if l == e.lotId then e.amount else 0
    {
      PostRemaining(s, owner, e, e.userId, l);
    }
  }

  /** A first reservation takes one credit from the usable lot that expires earliest; it is refused
      exactly when no lot is usable. */
  lemma ReserveTakesEarliest(s: Store, owner: string -> Id, op: Op)
    requires Inv(s, owner) && op.Reserve? && Disciplined(s, owner, op) && !HasKey(s.ledger, ReserveKey(op.session))
    ensures var (s', out) := Apply(s, op);
            var a, a' := AccountOf(s, op.user), AccountOf(s', op.user);
            && (out.InsufficientCredits? <==> forall l <- a.lots :: !CanPay(l, op.now))
            && (!out.InsufficientCredits? ==>
                  && out.ReservedFrom? && out.created && EarliestUsable(a, out.lot, op.now)
                  && OnlyLot(s, s', op.user, out.lot, -1)
                  && a'.balance == a.balance - 1 && a'.reserved == a.reserved + 1)
  {
    var a := AccountOf(s, op.user);
    UsableLotsFacts(a.lots, op.now);
    var lots := UsableLots(a.lots, op.now);
    if lots != [] {
      var l := lots[0];
      assert l in lots;
      forall o | o in a.lots && CanPay(o, op.now) ensures ExpiresNoLater(l, o) {
        assert o in lots;
      }
      ReservePosts(s, owner, op, l);
    }
  }

  lemma ReservePosts(s: Store, owner: string -> Id, op: Op, l: Lot)
    requires Inv(s, owner) && op.Reserve? && Disciplined(s, owner, op) && !HasKey(s.ledger, ReserveKey(op.session))
    requires l in AccountOf(s, op.user).lots && l.remaining > 0
    ensures OnlyLot(s, Post(Bump(s, op.user), ReserveEntry(op.user, op.session, l.lotId)), op.user, l.lotId, -1)
  {
    BumpKeepsInv(s, owner, op.user);
    var b := Bump(s, op.user);
    assert UserOk(b, op.user);
    InLotsFound(AccountOf(b, op.user).lots, l);
    PostOnLot(b, owner, ReserveEntry(op.user, op.session, l.lotId));
    assert forall k: Id :: RemainingIn(b, op.user, k) == RemainingIn(s, op.user, k);
  }

  /** A new grant is a new lot with the credits, source and expiry asked for. */
  lemma GrantGives(s: Store, owner: string -> Id, op: Op)
    requires Inv(s, owner) && op.Grant? && Disciplined(s, owner, op) && !HasKey(s.ledger, op.key)
    ensures var (s', out) := Apply(s, op);
            if op.amount <= 0 then s' == s && out.InvalidAmount?
            else
              && out.Done?
              && FindLot(AccountOf(s', op.user).lots, op.lotId) == Some(Lot(op.lotId, op.source, op.amount, op.expiresAt))
              && OnlyLot(s, s', op.user, op.lotId, op.amount)
              && AccountOf(s', op.user).balance == AccountOf(s, op.user).balance + op.amount
              && s'.ledger[..|s.ledger|] == s.ledger && |s'.ledger| == |s.ledger| + 1
              && s'.ledger[|s.ledger|].kind ==
                 match op.source case FreeGrant => FREE_GRANT case Purchased => PURCHASE case AdminGrant => ADMIN_ADJUSTMENT
  {
    if op.amount > 0 {
      var b := Bump(s, op.user);
      BumpKeepsInv(s, owner, op.user);
      NewLot(b, owner, op);
      GrantPosts(b, owner, op);
      hide Inv, Post;
      assert forall k: Id :: RemainingIn(b, op.user, k) == RemainingIn(s, op.user, k);
      PostedBalance(b, GrantEntry(op));
    }
  }

  lemma PostedBalance(s: Store, e: Entry)
    ensures AccountOf(Post(s, e), e.userId).balance == AccountOf(s, e.userId).balance + e.amount
  {
  }

  lemma NewLot(s: Store, owner: string -> Id, op: Op)
    requires Inv(s, owner) && op.Grant? && Fresh(s.ledger, op.lotId)
    ensures FindLot(AccountOf(Post(s, GrantEntry(op)), op.user).lots, op.lotId) == Some(Lot(op.lotId, op.source, op.amount, op.expiresAt))
  {
    assert UserOk(s, op.user);
    FreshLot(s, op.user, op.lotId);
    FindLotAppend(AccountOf(s, op.user).lots, Lot(op.lotId, op.source, op.amount, op.expiresAt), op.lotId);
  }

  lemma GrantPosts(s: Store, owner: string -> Id, op: Op)
    requires Inv(s, owner) && op.Grant? && Disciplined(s, owner, op) && !HasKey(s.ledger, op.key) && op.amount > 0
    ensures OnlyLot(s, Post(s, GrantEntry(op)), op.user, op.lotId, op.amount)
  {
    CallerKeyParts(op.key, 0);
    PostOnLot(s, owner, GrantEntry(op));
  }

  /** Settling a reservation frees it, and gives its credit back to its own lot exactly on a refund. */
  lemma SettleGivesBack(s: Store, owner: string -> Id, op: Op)
    requires Inv(s, owner) && op.Settle? && Disciplined(s, owner, op)
    requires HasKey(s.ledger, ReserveKey(op.session)) && !HasKey(s.ledger, SettleKey(op.session))
    ensures var (s', out) := Apply(s, op);
            var a, a' := AccountOf(s, op.user), AccountOf(s', op.user);
            && out == Settled(if op.refund then INTERVIEW_REFUND else INTERVIEW_CONSUME, true)
            && a'.reserved == a.reserved - 1
            && a'.balance == a.balance + (if op.refund then 1 else 0)
            && forall r <- s.ledger :: r.key == ReserveKey(op.session) ==> OnlyLot(s, s', op.user, r.lotId, if op.refund then 1 else 0)
  {
    var b := Bump(s, op.user);
    BumpKeepsInv(s, owner, op.user);
    ReservationOf(s, owner, op.session);
    var r := FindEntry(s.ledger, ReserveKey(op.session)).value;
    PostOnLot(b, owner, SettleEntry(op.user, op.session, op.refund, r.lotId));
    assert forall k: Id :: RemainingIn(b, op.user, k) == RemainingIn(s, op.user, k);
    forall e | e in s.ledger && e.key == ReserveKey(op.session) ensures e == r { SameKeySameEntry(s.ledger, e, r); }
  }

  /** A new revocation takes what is left of the lot, at most the maximum and never less than nothing,
      and leaves its key even when it takes nothing. */
  lemma RevokeTakes(s: Store, owner: string -> Id, op: Op)
    requires Inv(s, owner) && op.Revoke? && Disciplined(s, owner, op) && !HasKey(s.ledger, op.key)
    ensures var (s', out) := Apply(s, op);
            var left := RemainingIn(s, op.user, op.lotId);
            && out.Withdrawn? && 0 <= out.credits <= left
            && (op.max.None? ==> out.credits == left)
            && (op.max.Some? ==> out.credits == left || out.credits == Max(0, op.max.value))
            && (op.max.Some? ==> out.credits <= Max(0, op.max.value))
            && OnlyLot(s, s', op.user, op.lotId, -out.credits)
            && HasKey(s'.ledger, op.key)
  {
    var b, n := Bump(s, op.user), Revocable(AccountOf(s, op.user), op.lotId, op.max);
    BumpKeepsInv(s, owner, op.user);
    assert UserOk(s, op.user);
    CallerKeyParts(op.key, 0);
    var e := WithdrawEntry(op.user, op.lotId, n, op.key);
    PostOnLot(b, owner, e);
    assert forall k: Id :: RemainingIn(b, op.user, k) == RemainingIn(s, op.user, k);
    assert e in (s.ledger + [e]);
  }

  // ---- Deductions ------------------------------------------------------------------------------

  /** A part of a deduction empties its lot unless it is the last part. */
  lemma PartTakes(s: Store, owner: string -> Id, user: Id, lots: seq<Lot>, i: nat, left: int, keys: nat -> string)
    requires Inv(s, owner) && Takeable(s, user, lots, i) && i < |lots| && left >= 0
    requires !SessionKey(keys(i)) && !HasKey(s.ledger, keys(i))
    ensures OnlyLot(s, TakeOne(s, user, lots, i, left, keys), user, lots[i].lotId, -Min(left, lots[i].remaining))
  {
    var e := WithdrawEntry(user, lots[i].lotId, Min(left, lots[i].remaining), keys(i));
    FoundHas(AccountOf(s, user).lots, e.lotId);
    PostOnLot(s, owner, e);
  }

  predicate Listed(lots: seq<Lot>, i: nat, lotId: Id) { exists k :: i <= k < |lots| && lots[k].lotId == lotId }

  /** Lots are emptied in order, and a lot not listed keeps its credits. */
  ghost predicate InTurn(s: Store, r: Store, user: Id, lots: seq<Lot>, i: nat) {
    && (forall l: Id :: RemainingIn(r, user, l) <= RemainingIn(s, user, l))
    && (forall l: Id :: !Listed(lots, i, l) ==> RemainingIn(r, user, l) == RemainingIn(s, user, l))
    && (forall j, k :: i <= j < k < |lots| && RemainingIn(r, user, lots[k].lotId) < lots[k].remaining ==>
          RemainingIn(r, user, lots[j].lotId) == 0)
  }

  lemma {:induction false} TakeFromInTurn(
    s: Store, owner: string -> Id, user: Id, lots: seq<Lot>, i: nat, left: int, keys: nat -> string, r: Store)
    requires Inv(s, owner) && i <= |lots| && left >= 0 && Takeable(s, user, lots, i)
    requires forall k: nat :: !SessionKey(keys(k))
    requires TakeFrom(s, user, lots, i, left, keys) == Some(r)
    ensures InTurn(s, r, user, lots, i)
    decreases |lots| - i
  {
    hide Inv, InTurn, OnlyLot, TakeOne, TakeFrom, HasKey, SessionKey, Takeable;
    if left > 0 && i < |lots| {
      var s1, taken := TakeOne(s, user, lots, i, left, keys), Min(left, lots[i].remaining);
      TakeFromUnfolds(s, user, lots, i, left, keys);
      TakeOneKeepsInv(s, owner, user, lots, i, left, keys);
      PartTakes(s, owner, user, lots, i, left, keys);
      TakeFromInTurn(s1, owner, user, lots, i + 1, left - taken, keys, r);
      if taken == left { TakeFromEnds(s1, user, lots, i + 1, 0, keys); }
      OneMoreTaken(s, s1, r, user, lots, i, taken, left);
    } else {
      TakeFromEnds(s, user, lots, i, left, keys);
      NothingTaken(s, user, lots, i);
    }
  }

  lemma NothingTaken(s: Store, user: Id, lots: seq<Lot>, i: nat)
    requires Takeable(s, user, lots, i)
    ensures InTurn(s, s, user, lots, i)
  {
  }

  lemma OneMoreTaken(s: Store, s1: Store, r: Store, user: Id, lots: seq<Lot>, i: nat, taken: int, left: int)
    requires i < |lots| && Takeable(s, user, lots, i) && taken == Min(left, lots[i].remaining) && left > 0
    requires OnlyLot(s, s1, user, lots[i].lotId, -taken) && InTurn(s1, r, user, lots, i + 1)
    requires taken == left ==> r == s1
    ensures InTurn(s, r, user, lots, i)
  {
    assert !Listed(lots, i + 1, lots[i].lotId);
    assert forall k :: i <= k < |lots| ==> RemainingIn(s, user, lots[k].lotId) == lots[k].remaining;
    hide RemainingIn;
    forall l: Id | !Listed(lots, i, l) ensures RemainingIn(r, user, l) == RemainingIn(s, user, l) {
      assert l != lots[i].lotId;
      assert !Listed(lots, i + 1, l);
    }
    assert RemainingIn(s, user, lots[i].lotId) == lots[i].remaining;
    forall k | i < k < |lots| && RemainingIn(r, user, lots[k].lotId) < lots[k].remaining
      ensures RemainingIn(r, user, lots[i].lotId) == 0
    {
      assert RemainingIn(s, user, lots[k].lotId) == lots[k].remaining;
      assert lots[k].lotId != lots[i].lotId;
    }
  }

  lemma DeductInTurn(s: Store, owner: string -> Id, op: Op)
    requires Inv(s, owner) && op.Deduct? && Disciplined(s, owner, op) && Apply(s, op).1.Done?
    ensures InTurn(s, Apply(s, op).0, op.user, UsableLots(AccountOf(s, op.user).lots, op.now), 0)
  {
    var s1, s', acct := Bump(s, op.user), Apply(s, op).0, AccountOf(s, op.user);
    var lots := UsableLots(acct.lots, op.now);
    BumpKeepsInv(s, owner, op.user);
    assert UserOk(s, op.user);
    UsableLotsFacts(acct.lots, op.now);
    forall k | 0 <= k < |lots| ensures lots[k].remaining > 0 && FindLot(acct.lots, lots[k].lotId) == Some(lots[k]) {
      assert lots[k] in lots;
      InLotsFound(acct.lots, lots[k]);
    }
    forall i: nat ensures !SessionKey(PartKeys(op.key)(i)) { CallerKeyParts(op.key, i); }
    TakeFromInTurn(s1, owner, op.user, lots, 0, op.credits, PartKeys(op.key), s');
    assert forall l: Id :: RemainingIn(s1, op.user, l) == RemainingIn(s, op.user, l);
  }

  /** A deduction takes only from usable lots, and from a lot only when every usable lot that expires
      before it has been emptied. */
  lemma DeductTakesInOrder(s: Store, owner: string -> Id, op: Op, a: Lot, b: Lot)
    requires Inv(s, owner) && op.Deduct? && Disciplined(s, owner, op) && Apply(s, op).1.Done?
    requires a in AccountOf(s, op.user).lots && b in AccountOf(s, op.user).lots
    ensures var s' := Apply(s, op).0;
            && RemainingIn(s', op.user, b.lotId) <= b.remaining
            && (RemainingIn(s', op.user, b.lotId) < b.remaining ==>
                  && CanPay(b, op.now)
                  && (CanPay(a, op.now) && !ExpiresNoLater(b, a) ==> RemainingIn(s', op.user, a.lotId) == 0))
  {
    DeductInTurn(s, owner, op);
    var acct := AccountOf(s, op.user);
    assert UserOk(s, op.user);
    UsableLotsFacts(acct.lots, op.now);
    InLotsFound(acct.lots, a);
    InLotsFound(acct.lots, b);
    hide Inv, Apply, UsableLots;
    TakenInOrder(s, Apply(s, op).0, op.user, acct.lots, UsableLots(acct.lots, op.now), op.now, a, b);
  }

  lemma TakenInOrder(s: Store, s': Store, user: Id, all: seq<Lot>, lots: seq<Lot>, now: int, a: Lot, b: Lot)
    requires InTurn(s, s', user, lots, 0) && SortedByExpiry(lots) && DistinctLots(all)
    requires forall l :: l in lots <==> l in all && Usable(l, now)
    requires a in all && b in all && RemainingIn(s, user, b.lotId) == b.remaining
    ensures RemainingIn(s', user, b.lotId) <= b.remaining
    ensures RemainingIn(s', user, b.lotId) < b.remaining ==>
              CanPay(b, now) && (CanPay(a, now) && !ExpiresNoLater(b, a) ==> RemainingIn(s', user, a.lotId) == 0)
  {
    hide RemainingIn;
    if RemainingIn(s', user, b.lotId) < b.remaining {
      assert Listed(lots, 0, b.lotId);
      var k :| 0 <= k < |lots| && lots[k].lotId == b.lotId;
      assert lots[k] in all;
      assert lots[k] == b;
      if CanPay(a, now) && !ExpiresNoLater(b, a) {
        assert a in lots;
        var j :| 0 <= j < |lots| && lots[j] == a;
        assert j < k;
      }
    }
  }
}

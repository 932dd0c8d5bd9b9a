/** When a lot gains credits: only a refunded reservation gives any back. */
module LotRefills {
  import opened CreditLedger
  import opened CreditInvariant
  import opened CreditRuns
  import opened CreditEffects
  import T = CreditTransactions

  /** The operation settles, with a refund, a reservation this user holds on the lot. */
  predicate GivesBack(s: Store, op: Op, user: Id, lotId: Id) {
    && op.Settle? && op.refund && op.user == user
    && ReserveEntry(user, op.session, lotId) in s.ledger && !HasKey(s.ledger, SettleKey(op.session))
  }

  ghost function Change(s: Store, op: Op, user: Id, lotId: Id): int {
    RemainingIn(Apply(s, op).0, user, lotId) - RemainingIn(s, user, lotId)
  }

  lemma OthersUnchanged(s: Store, owner: string -> Id, op: Op, user: Id, lotId: Id)
    requires Disciplined(s, owner, op) && op.user != user
    ensures Change(s, op, user, lotId) == 0
  {
    T.ApplyFrame(owner, s, op);
    assert T.SameAccount(s, Apply(s, op).0, user);
  }

  lemma NothingDone(s: Store, op: Op, user: Id, lotId: Id)
    requires Apply(s, op).0 == s || Apply(s, op).0 == Bump(s, op.user)
    ensures Change(s, op, user, lotId) == 0
  {
  }

  lemma KeyedChange(s: Store, owner: string -> Id, op: Op, lotId: Id)
    requires Inv(s, owner) && Disciplined(s, owner, op) && (op.Grant? || op.Revoke?) && !Fresh(s.ledger, lotId)
    ensures Change(s, op, op.user, lotId) <= 0
  {
    hide Inv, Apply, RemainingIn;
    if HasKey(s.ledger, op.key) {
      AtMostOnce(s, op, op.key);
      NothingDone(s, op, op.user, lotId);
    } else if op.Grant? {
      GrantGives(s, owner, op);
    } else {
      RevokeTakes(s, owner, op);
    }
  }

  lemma ReserveChange(s: Store, owner: string -> Id, op: Op, lotId: Id)
    requires Inv(s, owner) && Disciplined(s, owner, op) && op.Reserve?
    ensures Change(s, op, op.user, lotId) <= 0
  {
    if HasKey(s.ledger, ReserveKey(op.session)) {
      NothingDone(s, op, op.user, lotId);
    } else {
      ReserveTakesEarliest(s, owner, op);
      hide Inv, RemainingIn;
      if Apply(s, op).1.InsufficientCredits? { NothingDone(s, op, op.user, lotId); }
    }
  }

  lemma DeductChange(s: Store, owner: string -> Id, op: Op, lotId: Id)
    requires Inv(s, owner) && Disciplined(s, owner, op) && op.Deduct?
    ensures Change(s, op, op.user, lotId) <= 0
  {
    if Apply(s, op).1.Done? {
      DeductInTurn(s, owner, op);
    } else {
      NothingDone(s, op, op.user, lotId);
    }
  }

  lemma SettleChange(s: Store, owner: string -> Id, op: Op, lotId: Id)
    requires Inv(s, owner) && Disciplined(s, owner, op) && op.Settle?
    ensures Change(s, op, op.user, lotId) == if GivesBack(s, op, op.user, lotId) then 1 else 0
  {
    if HasKey(s.ledger, ReserveKey(op.session)) && !HasKey(s.ledger, SettleKey(op.session)) {
      SettleGivesBack(s, owner, op);
      ReservationOf(s, owner, op.session);
      var r := FindEntry(s.ledger, ReserveKey(op.session)).value;
      assert r in s.ledger && r == ReserveEntry(op.user, op.session, r.lotId);
      if ReserveEntry(op.user, op.session, lotId) in s.ledger { SameKeySameEntry(s.ledger, r, ReserveEntry(op.user, op.session, lotId)); }
    } else {
      assert ReserveEntry(op.user, op.session, lotId).key == ReserveKey(op.session);
      NothingDone(s, op, op.user, lotId);
    }
  }

  /** A lot in use gains credits if and only if a reservation held on it is refunded, and then one. */
  lemma LotGainsIff(s: Store, owner: string -> Id, op: Op, user: Id, lotId: Id)
    requires Inv(s, owner) && Disciplined(s, owner, op) && !Fresh(s.ledger, lotId)
    ensures Change(s, op, user, lotId) > 0 <==> GivesBack(s, op, user, lotId)
    ensures Change(s, op, user, lotId) <= 1
  {
    if op.user != user {
      OthersUnchanged(s, owner, op, user, lotId);
    } else {
      match op
      case Grant(_, _, _, _, _, _) => KeyedChange(s, owner, op, lotId);
      case Revoke(_, _, _, _) => KeyedChange(s, owner, op, lotId);
      case Reserve(_, _, _) => ReserveChange(s, owner, op, lotId);
      case Settle(_, _, _) => SettleChange(s, owner, op, lotId);
      case Deduct(_, _, _, _) => DeductChange(s, owner, op, lotId);
      case Recompute(_) =>
        RecomputeIsIdentity(s, owner, user);
        NothingDone(s, op, user, lotId);
    }
  }
}

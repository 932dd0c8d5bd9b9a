/** Processed refunds and credit operations keep the invariant too; so every run of steps does. */
module ShopSystem {
  import opened Wrappers
  import opened Purchases
  import opened RefundProtocol
  import opened CouponUses
  import opened DocumentNumbers
  import opened ShopInvariant
  import opened ShopRuns
  import C = CreditLedger
  import CI = CreditInvariant
  import CR = CreditRuns

  // ---- Processed refunds -----------------------------------------------------------------------

  lemma WithdrawKeeps(w: Shop, owner: string -> Id, id: string, p: Purchase, fully: bool, toWithdraw: int, refundId: string)
    requires CI.Inv(w.credits, owner)
    ensures CI.Inv(WithdrawCredits(w, id, p, fully, toWithdraw, refundId).0, owner)
  {
    if p.lot.Some? && (fully || toWithdraw > 0) {
      RefundKeysDiffer(id, refundId, id);
      CR.ApplyKeepsInv(w.credits, owner, C.Revoke(p.user, p.lot.value, RefundKey(id, refundId), if fully then None else Some(toWithdraw)));
    }
  }

  lemma WithdrawElsewhere(w: Shop, id: string, p: Purchase, fully: bool, toWithdraw: int, refundId: string, k: string)
    ensures SameGrant(w.credits.ledger, WithdrawCredits(w, id, p, fully, toWithdraw, refundId).0.ledger, k)
  {
    RefundKeysDiffer(id, refundId, k);
    var l, l' := w.credits.ledger, WithdrawCredits(w, id, p, fully, toWithdraw, refundId).0.ledger;
    if l' != l {
      assert l' == l + [l'[|l|]] && l'[|l|].key == RefundKey(id, refundId);
      AppendedElsewhere(l, l'[|l|], k);
    }
  }

  lemma SettledNotes(pay: Payment, refundId: string, amount: Option<int>, now: int, key: string, withdrawn: int, note: Number)
    requires PaymentOk(PAID, pay) && NotesOk(pay.refunds) && (forall r <- pay.refunds :: r.key != key)
    requires RefundTarget(pay, refundId, amount, now, key).Some?
    ensures var (refunds, i) := RefundTarget(pay, refundId, amount, now, key).value;
            var pay' := Settled(pay, refunds, i, refundId, withdrawn, note);
            && NotesOk(pay'.refunds)
            && NoteAt(pay.refunds, i).None?
            && NoteAt(pay'.refunds, i) == Some(note)
            && forall j: nat :: j != i ==> NoteAt(pay'.refunds, j) == NoteAt(pay.refunds, j)
  {
    var (refunds, i) := RefundTarget(pay, refundId, amount, now, key).value;
    TargetListed(pay, refundId, amount, now, key);
    var refunds' := Settled(pay, refunds, i, refundId, withdrawn, note).refunds;
    forall j | 0 <= j < |refunds'| && j != i ensures refunds'[j] == pay.refunds[j] && pay.refunds[j] in pay.refunds {
      assert refunds[..i] == pay.refunds ==> refunds[j] == refunds[..i][j];
    }
    assert i < |pay.refunds| ==> pay.refunds[i] in pay.refunds;
    forall x | x in refunds' ensures x.note.Some? <==> x.status.Processed? {
      var j :| 0 <= j < |refunds'| && refunds'[j] == x;
    }
  }

  /** A processed refund that applies. */
  predicate Applies(w: Shop, id: string, refundId: string, amount: Option<int>, now: int, key: string) {
    && id in w.purchases && id in w.payments && w.purchases[id].status.PAID?
    && RefundTarget(w.payments[id], refundId, amount, now, key).Some?
  }

  lemma RefundedPayment(w: Shop, id: string, refundId: string, amount: Option<int>, now: int, key: string, fy: int -> int)
    requires Applies(w, id, refundId, amount, now, key) && NewKey(w, id, key) && PurchaseOk(w, id)
    ensures var w' := MarkRefunded(w, id, refundId, amount, now, key, fy).0;
            id in w'.payments && id in w'.purchases && PaysFor(w'.purchases[id], w'.payments[id])
  {
    var pay := w.payments[id];
    var (refunds, i) := RefundTarget(pay, refundId, amount, now, key).value;
    var w' := MarkRefunded(w, id, refundId, amount, now, key, fy).0;
    var fully := pay.refunded + refunds[i].amount >= pay.amount;
    var withdrawn := WithdrawCredits(w, id, w.purchases[id], fully, refunds[i].toWithdraw, refundId).1;
    var note := NextNumber(w.counters, NotesOf(fy(now)));
    RefundedKeepsOk(pay, refundId, amount, now, key, withdrawn, note);
    SettledNotes(pay, refundId, amount, now, key, withdrawn, note);
  }

  lemma RefundedCoupon(w: Shop, id: string, refundId: string, amount: Option<int>, now: int, key: string, fy: int -> int)
    requires Applies(w, id, refundId, amount, now, key) && PurchaseOk(w, id)
    ensures var w' := MarkRefunded(w, id, refundId, amount, now, key, fy).0;
            id in w'.purchases && CouponFits(w'.purchases[id], w'.book.redemptions, id)
  {
    ReleasedCoupon(w.book, id, REDEEMED);
  }

  lemma RefundedCredits(w: Shop, id: string, refundId: string, amount: Option<int>, now: int, key: string, fy: int -> int)
    requires Applies(w, id, refundId, amount, now, key) && PurchaseOk(w, id)
    ensures var w' := MarkRefunded(w, id, refundId, amount, now, key, fy).0;
            id in w'.purchases && CreditsFit(w'.purchases[id], w'.credits.ledger, id)
  {
    hide Settled, ReleaseCoupon, PaysFor, CouponFits;
    var (refunds, i) := RefundTarget(w.payments[id], refundId, amount, now, key).value;
    var fully := w.payments[id].refunded + refunds[i].amount >= w.payments[id].amount;
    WithdrawElsewhere(w, id, w.purchases[id], fully, refunds[i].toWithdraw, refundId, id);
    SameGrantFits(w.purchases[id], w.credits.ledger, MarkRefunded(w, id, refundId, amount, now, key, fy).0.credits.ledger, id);
  }

  lemma RefundedElsewhere(w: Shop, id: string, refundId: string, amount: Option<int>, now: int, key: string, fy: int -> int, k: string)
    requires Applies(w, id, refundId, amount, now, key) && k != id
    ensures var w' := MarkRefunded(w, id, refundId, amount, now, key, fy).0;
            && SameKeyIn(w.payments, w'.payments, k)
            && SameKeyIn(w.book.redemptions, w'.book.redemptions, k)
            && SameGrant(w.credits.ledger, w'.credits.ledger, k)
  {
    var (refunds, i) := RefundTarget(w.payments[id], refundId, amount, now, key).value;
    var fully := w.payments[id].refunded + refunds[i].amount >= w.payments[id].amount;
    WithdrawElsewhere(w, id, w.purchases[id], fully, refunds[i].toWithdraw, refundId, k);
    ReleasedCoupon(w.book, id, REDEEMED);
  }

  lemma RefundedPurchaseOk(w: Shop, id: string, refundId: string, amount: Option<int>, now: int, key: string, fy: int -> int)
    requires Applies(w, id, refundId, amount, now, key) && NewKey(w, id, key) && PurchaseOk(w, id)
    ensures id in MarkRefunded(w, id, refundId, amount, now, key, fy).0.purchases
    ensures PurchaseOk(MarkRefunded(w, id, refundId, amount, now, key, fy).0, id)
  {
    RefundedPayment(w, id, refundId, amount, now, key, fy);
    RefundedCoupon(w, id, refundId, amount, now, key, fy);
    RefundedCredits(w, id, refundId, amount, now, key, fy);
  }

  lemma RefundedOnly(w: Shop, id: string, refundId: string, amount: Option<int>, now: int, key: string, fy: int -> int)
    requires Applies(w, id, refundId, amount, now, key)
    ensures OnlyPurchase(w, MarkRefunded(w, id, refundId, amount, now, key, fy).0, id)
  {
    var w' := MarkRefunded(w, id, refundId, amount, now, key, fy).0;
    forall k: string | k != id
      ensures && SameKeyIn(w.payments, w'.payments, k)
              && SameKeyIn(w.book.redemptions, w'.book.redemptions, k)
              && SameGrant(w.credits.ledger, w'.credits.ledger, k)
    {
      RefundedElsewhere(w, id, refundId, amount, now, key, fy, k);
    }
  }

  lemma RefundedPurchases(w: Shop, id: string, refundId: string, amount: Option<int>, now: int, key: string, fy: int -> int)
    requires PurchasesOk(w) && Applies(w, id, refundId, amount, now, key) && NewKey(w, id, key)
    ensures PurchasesOk(MarkRefunded(w, id, refundId, amount, now, key, fy).0)
  {
    assert PurchaseOk(w, id);
    RefundedPurchaseOk(w, id, refundId, amount, now, key, fy);
    RefundedOnly(w, id, refundId, amount, now, key, fy);
    OnePurchase(w, MarkRefunded(w, id, refundId, amount, now, key, fy).0, id);
  }

  lemma RefundedNumbers(w: Shop, id: string, refundId: string, amount: Option<int>, now: int, key: string, fy: int -> int)
    requires NumbersOk(w) && Applies(w, id, refundId, amount, now, key) && NewKey(w, id, key) && PurchaseOk(w, id)
    ensures NumbersOk(MarkRefunded(w, id, refundId, amount, now, key, fy).0)
  {
    var pay := w.payments[id];
    var (refunds, i) := RefundTarget(pay, refundId, amount, now, key).value;
    var w' := MarkRefunded(w, id, refundId, amount, now, key, fy).0;
    var withdrawn := WithdrawCredits(w, id, w.purchases[id], pay.refunded + refunds[i].amount >= pay.amount, refunds[i].toWithdraw, refundId).1;
    SettledNotes(pay, refundId, amount, now, key, withdrawn, NextNumber(w.counters, NotesOf(fy(now))));
    OneNote(w, w', id, i, NotesOf(fy(now)));
  }

  /** One refund of one payment gets a number. */
  lemma OneNote(w: Shop, w': Shop, id: string, i: nat, series: Series)
    requires NumbersOk(w) && series.NotesOf? && id in w.payments && id in w'.payments && id in w.purchases
    requires w'.counters == Taken(w.counters, NextNumber(w.counters, series))
    requires NoteAt(w.payments[id].refunds, i).None? && NoteAt(w'.payments[id].refunds, i) == Some(NextNumber(w.counters, series))
    requires forall j: nat :: j != i ==> NoteAt(w'.payments[id].refunds, j) == NoteAt(w.payments[id].refunds, j)
    requires w'.purchases.Keys == w.purchases.Keys && forall k <- w.purchases :: w'.purchases[k].invoice == w.purchases[k].invoice
    requires forall k: string :: k != id ==> SameKeyIn(w.payments, w'.payments, k)
    ensures NumbersOk(w')
  {
    var slot := NoteSlot(id, i);
    assert NumberAt(w, slot) == NoteAt(w.payments[id].refunds, i) && NumberAt(w', slot) == NoteAt(w'.payments[id].refunds, i);
    forall other | other != slot ensures NumberAt(w', other) == NumberAt(w, other) {
      if other.NoteSlot? {
        assert other.id != id ==> SameKeyIn(w.payments, w'.payments, other.id);
        if other.id == id {
          assert NumberAt(w', other) == NoteAt(w'.payments[id].refunds, other.index);
          assert NumberAt(w, other) == NoteAt(w.payments[id].refunds, other.index);
        }
      }
    }
    OneNumber(w, w', slot, series);
  }

  lemma RefundedInv(w: Shop, owner: string -> Id, id: string, refundId: string, amount: Option<int>, now: int, key: string, fy: int -> int)
    requires CI.Inv(w.credits, owner) && Applies(w, id, refundId, amount, now, key)
    ensures CI.Inv(MarkRefunded(w, id, refundId, amount, now, key, fy).0.credits, owner)
  {
    var (refunds, i) := RefundTarget(w.payments[id], refundId, amount, now, key).value;
    WithdrawKeeps(w, owner, id, w.purchases[id], w.payments[id].refunded + refunds[i].amount >= w.payments[id].amount, refunds[i].toWithdraw, refundId);
  }

  lemma RefundedBook(w: Shop, id: string, refundId: string, amount: Option<int>, now: int, key: string, fy: int -> int)
    requires BookOk(w.book) && Applies(w, id, refundId, amount, now, key)
    ensures BookOk(MarkRefunded(w, id, refundId, amount, now, key, fy).0.book)
  {
    ReleaseUseKeepsOk(w.book, id, REDEEMED);
  }

  lemma RefundedStepKeepsOk(w: Shop, owner: string -> Id, id: string, refundId: string, amount: Option<int>, now: int, key: string, fy: int -> int)
    requires ShopOk(w, owner) && Applies(w, id, refundId, amount, now, key) && NewKey(w, id, key)
    ensures ShopOk(MarkRefunded(w, id, refundId, amount, now, key, fy).0, owner)
  {
    assert PurchaseOk(w, id);
    RefundedPurchases(w, id, refundId, amount, now, key, fy);
    RefundedNumbers(w, id, refundId, amount, now, key, fy);
    RefundedBook(w, id, refundId, amount, now, key, fy);
    RefundedInv(w, owner, id, refundId, amount, now, key, fy);
  }

  // ---- Document requests -----------------------------------------------------------------------

  /** Every paid purchase has its invoice already, so asking for it changes nothing. */
  lemma InvoiceIsThere(w: Shop, owner: string -> Id, id: string, at: int, fy: int -> int)
    requires ShopOk(w, owner)
    ensures IssueInvoice(w, id, at, fy) == (w, if id in w.purchases then w.purchases[id].invoice else None)
  {
    if id in w.purchases { assert PurchaseOk(w, id); }
  }

  /** Every processed refund has its number already: asking changes nothing and answers it. */
  lemma NoteIsThere(w: Shop, owner: string -> Id, id: string, key: string, at: int, fy: int -> int)
    requires ShopOk(w, owner)
    ensures IssueNote(w, id, key, at, fy).0 == w
    ensures id in w.payments ==>
              var i := FindProcessed(w.payments[id].refunds, key);
              IssueNote(w, id, key, at, fy).1 == (if i.Some? then w.payments[id].refunds[i.value].note else None)
              && (i.Some? ==> IssueNote(w, id, key, at, fy).1.Some?)
  {
    if id in w.payments {
      PaymentOf(w, owner, id);
      var i := FindProcessed(w.payments[id].refunds, key);
      if i.Some? { assert w.payments[id].refunds[i.value] in w.payments[id].refunds; }
    }
  }

  // ---- Credit operations of others ---------------------------------------------------------------

  ghost predicate NoGrants(l: seq<C.Entry>, l': seq<C.Entry>) {
    l <= l' && forall e <- l' :: e in l || !("purchase:" <= e.key)
  }

  lemma ForeignParts(key: string, i: nat)
    requires ForeignKey(key)
    ensures !("purchase:" <= C.PartKey(key, i))
  {
    var rest := if i == 0 then "" else C.Digits(i);
    if "purchase:" <= key + ":" + rest { CI.PrefixBeforeColon("purchase:", key, rest); }
    assert key <= key + ":";
  }

  lemma ForeignAddsNoGrants(st: C.Store, op: C.Op)
    requires Foreign(op)
    ensures NoGrants(st.ledger, C.Apply(st, op).0.ledger)
  {
    if op.Deduct? {
      ForeignDeduct(st, op);
    } else if op.Reserve? || op.Settle? {
      assert C.ReserveKey(op.session)[0] == 'r' && C.SettleKey(op.session)[0] == 's';
    } else if op.Grant? || op.Revoke? {
      ForeignParts(op.key, 0);
    }
  }

  lemma ForeignDeduct(st: C.Store, op: C.Op)
    requires op.Deduct? && Foreign(op)
    ensures NoGrants(st.ledger, C.Apply(st, op).0.ledger)
  {
    var lots, keys := C.UsableLots(C.AccountOf(st, op.user).lots, op.now), C.PartKeys(op.key);
    forall i: nat ensures !("purchase:" <= keys(i)) { ForeignParts(op.key, i); }
    var r := C.TakeFrom(C.Bump(st, op.user), op.user, lots, 0, op.credits, keys);
    if op.credits > 0 && r.Some? {
      CR.TakeFromInduction(
        (s: C.Store, i: nat) => NoGrants(st.ledger, s.ledger),
        C.Bump(st, op.user), op.user, lots, 0, op.credits, keys, r.value);
    }
  }

  lemma MovedPurchases(w: Shop, op: C.Op)
    requires PurchasesOk(w) && Foreign(op)
    ensures PurchasesOk(w.(credits := C.Apply(w.credits, op).0))
  {
    var l, w' := w.credits.ledger, w.(credits := C.Apply(w.credits, op).0);
    ForeignAddsNoGrants(w.credits, op);
    forall k: string ensures SameGrant(l, w'.credits.ledger, k) {
      assert forall e <- l :: e in w'.credits.ledger;
      assert "purchase:" <= PurchaseKey(k);
    }
    forall id | id in w'.purchases ensures PurchaseOk(w', id) {
      assert PurchaseOk(w, id);
      SameGrantFits(w.purchases[id], l, w'.credits.ledger, id);
    }
    forall id: string | C.HasKey(w'.credits.ledger, PurchaseKey(id)) ensures id in w'.purchases {
      assert SameGrant(l, w'.credits.ledger, id);
    }
  }

  // ---- Every step and every run ------------------------------------------------------------------

  lemma MovedKeepsOk(w: Shop, owner: string -> Id, op: C.Op)
    requires ShopOk(w, owner) && Foreign(op) && CR.Disciplined(w.credits, owner, op)
    ensures ShopOk(w.(credits := C.Apply(w.credits, op).0), owner)
  {
    CR.ApplyKeepsInv(w.credits, owner, op);
    MovedPurchases(w, op);
    SameNumbers(w, w.(credits := C.Apply(w.credits, op).0));
  }

  lemma BookKeepsOk(w: Shop, owner: string -> Id, b: Book)
    requires ShopOk(w, owner) && BookOk(b) && b.redemptions == w.book.redemptions
    ensures ShopOk(w.(book := b), owner)
  {
    forall id | id in w.purchases ensures PurchaseOk(w.(book := b), id) { assert PurchaseOk(w, id); }
    SameNumbers(w, w.(book := b));
  }

  lemma BookStepKeepsOk(w: Shop, owner: string -> Id, step: Step, fy: int -> int)
    requires ShopOk(w, owner) && Allowed(w, owner, step) && (step.NewCoupon? || step.CountUses?)
    ensures ShopOk(Next(w, step, fy), owner)
  {
    match step
    case NewCoupon(c, maxUses, limit) =>
      NewCouponKeepsOk(w.book, c, maxUses, limit);
      BookKeepsOk(w, owner, w.book.(coupons := w.book.coupons[c := Coupon(maxUses, limit, 0)]));
    case CountUses(c, user) =>
      EnsureKeepsOk(w.book, c, user);
      BookKeepsOk(w, owner, EnsureCounter(w.book, c, user));
  }

  lemma PaymentStepKeepsOk(w: Shop, owner: string -> Id, step: Step, fy: int -> int)
    requires ShopOk(w, owner) && Allowed(w, owner, step) && (step.Claimed? || step.Released? || step.Accepted? || step.RefundFailed?)
    ensures ShopOk(Next(w, step, fy), owner)
  {
    hide ShopOk, Claim, Release, MarkPending, MarkRefundFailed;
    match step
    case Claimed(id, key, amount, toWithdraw, now) =>
      if id in w.payments && Claim(w.payments[id], key, amount, toWithdraw, now).Some? {
        ClaimedKeepsOk(w, owner, id, key, amount, toWithdraw, now);
      }
    case Released(id, key) =>
      if id in w.payments && Release(w.payments[id], key).Some? { ReleasedKeepsOk(w, owner, id, key); }
    case Accepted(id, key, refundId) => if id in w.payments { AcceptedStepKeepsOk(w, owner, id, key, refundId); }
    case RefundFailed(id, refundId) =>
      if id in w.payments && MarkRefundFailed(w.payments[id], refundId).Some? { RefundFailedStepKeepsOk(w, owner, id, refundId); }
  }

  lemma StepKeepsOk(w: Shop, owner: string -> Id, step: Step, fy: int -> int)
    requires ShopOk(w, owner) && Allowed(w, owner, step)
    ensures ShopOk(Next(w, step, fy), owner)
  {
    hide ShopOk;
    match step
    case NewCoupon(_, _, _) => BookStepKeepsOk(w, owner, step, fy);
    case CountUses(_, _) => BookStepKeepsOk(w, owner, step, fy);
    case Claimed(_, _, _, _, _) => PaymentStepKeepsOk(w, owner, step, fy);
    case Released(_, _) => PaymentStepKeepsOk(w, owner, step, fy);
    case Accepted(_, _, _) => PaymentStepKeepsOk(w, owner, step, fy);
    case RefundFailed(_, _) => PaymentStepKeepsOk(w, owner, step, fy);
    case Ordered(id, p) => if Order(w, id, p).Some? { OrderKeepsOk(w, owner, id, p); }
    case Paid(id, paymentId, now, lot) => if Payable(w, id) { PaidKeepsOk(w, owner, id, paymentId, now, lot, fy); }
    case AttemptFailed(id, fromOrder, paymentId) =>
      if MarkFailed(w, id, fromOrder, paymentId).1 { AttemptFailedKeepsOk(w, owner, id, fromOrder, paymentId); }
    case Expired(id) => if Expire(w, id).1 { ExpireKeepsOk(w, owner, id); }
    case Refunded(id, refundId, amount, now, key) =>
      if Applies(w, id, refundId, amount, now, key) { RefundedStepKeepsOk(w, owner, id, refundId, amount, now, key, fy); }
    case Invoiced(id, at) => InvoiceIsThere(w, owner, id, at, fy);
    case Noted(id, key, at) => NoteIsThere(w, owner, id, key, at, fy);
    case Moved(op) => MovedKeepsOk(w, owner, op);
  }

  ghost predicate AllowedRun(w: Shop, owner: string -> Id, steps: seq<Step>, fy: int -> int)
    decreases |steps|
  {
    steps == [] || (Allowed(w, owner, steps[0]) && AllowedRun(Next(w, steps[0], fy), owner, steps[1..], fy))
  }

  lemma {:induction false} RunKeepsOk(w: Shop, owner: string -> Id, steps: seq<Step>, fy: int -> int)
    requires ShopOk(w, owner) && AllowedRun(w, owner, steps, fy)
    ensures ShopOk(RunShop(w, steps, fy), owner)
    decreases |steps|
  {
    if steps != [] {
      StepKeepsOk(w, owner, steps[0], fy);
      RunKeepsOk(Next(w, steps[0], fy), owner, steps[1..], fy);
    }
  }

  lemma EmptyShopOk(owner: string -> Id)
    ensures ShopOk(EMPTY_SHOP, owner)
  {
    CR.EmptyInv(owner);
  }
}

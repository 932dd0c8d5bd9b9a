/** Every purchase step keeps the invariant, in any order. */
module ShopRuns {
  import opened Wrappers
  import opened Purchases
  import opened RefundProtocol
  import opened CouponUses
  import opened DocumentNumbers
  import opened ShopInvariant
  import C = CreditLedger
  import CI = CreditInvariant
  import CR = CreditRuns

  predicate NewPurchase(p: Purchase) {
    p.status.CREATED? && p.credits > 0 && p.amount >= 0 && p.issuedAt.None? && p.lot.None? && p.invoice.None?
  }

  predicate NewKey(w: Shop, id: string, key: string) {
    id in w.payments ==> forall r <- w.payments[id].refunds :: r.key != key
  }

  /** Credit operations of others leave the keys of purchases alone, also with a `:i` suffix. */
  predicate ForeignKey(key: string) { !("purchase:" <= key + ":") }

  predicate Foreign(op: C.Op) { CR.KeyOf(op).Some? ==> ForeignKey(CR.KeyOf(op).value) }

  /** What callers see to: new ids and keys are new, and credit operations keep to their keys. */
  ghost predicate Allowed(w: Shop, owner: string -> Id, step: Step) {
    match step
    case NewCoupon(c, _, _) => c !in w.book.coupons
    case Ordered(id, p) => id !in w.purchases && NewPurchase(p)
    case Paid(_, _, _, lot) => CI.Fresh(w.credits.ledger, lot)
    case Claimed(id, key, _, _, _) => NewKey(w, id, key)
    case Refunded(id, _, _, _, key) => NewKey(w, id, key)
    case Moved(op) => CR.Disciplined(w.credits, owner, op) && Foreign(op)
    case _ => true
  }

  // ---- Orders --------------------------------------------------------------------------------

  lemma SlotsElsewhere(w: Shop, w': Shop, id: string)
    requires w'.purchases.Keys == w.purchases.Keys + {id} && forall k <- w.purchases :: k != id ==> w'.purchases[k] == w.purchases[k]
    requires forall k: string :: k != id ==> SameKeyIn(w.payments, w'.payments, k)
    ensures forall slot: Slot :: slot.id != id ==> NumberAt(w', slot) == NumberAt(w, slot)
  {
    forall slot: Slot | slot.id != id ensures NumberAt(w', slot) == NumberAt(w, slot) {
      assert SameKeyIn(w.payments, w'.payments, slot.id);
    }
  }

  lemma OrderedOk(w: Shop, id: string, p: Purchase)
    requires id !in w.payments && id !in w.book.redemptions && !C.HasKey(w.credits.ledger, PurchaseKey(id))
    requires NewPurchase(p) && Order(w, id, p).Some?
    ensures PurchaseOk(Order(w, id, p).value, id)
  {
  }

  lemma OrderPurchases(w: Shop, id: string, p: Purchase)
    requires PurchasesOk(w) && id !in w.purchases && NewPurchase(p) && Order(w, id, p).Some?
    ensures PurchasesOk(Order(w, id, p).value)
  {
    OrderedOk(w, id, p);
    var w' := Order(w, id, p).value;
    forall k: string | k != id
      ensures SameKeyIn(w.payments, w'.payments, k) && SameKeyIn(w.book.redemptions, w'.book.redemptions, k)
    {
    }
    OnePurchase(w, w', id);
  }

  lemma OrderKeepsOk(w: Shop, owner: string -> Id, id: string, p: Purchase)
    requires ShopOk(w, owner) && id !in w.purchases && NewPurchase(p) && Order(w, id, p).Some?
    ensures ShopOk(Order(w, id, p).value, owner)
  {
    var w' := Order(w, id, p).value;
    OrderPurchases(w, id, p);
    if p.coupon.Some? { ReserveKeepsOk(w.book, p.coupon.value, p.user, id); }
    OrderNumbers(w, id, p);
  }

  lemma OrderNumbers(w: Shop, id: string, p: Purchase)
    requires PurchasesOk(w) && NumbersOk(w) && id !in w.purchases && NewPurchase(p) && Order(w, id, p).Some?
    ensures NumbersOk(Order(w, id, p).value)
  {
    var w' := Order(w, id, p).value;
    SlotsElsewhere(w, w', id);
    SameNumbers(w, w');
  }

  // ---- Payment outcomes ------------------------------------------------------------------------

  /** Issuing the credits of a purchase that has none: one grant entry more. */
  lemma GrantIssued(st: C.Store, p: Purchase, id: string, now: int, lot: Id)
    requires p.credits > 0 && !C.HasKey(st.ledger, PurchaseKey(id))
    ensures var (credits, out) := C.Apply(st, PurchaseGrant(p, id, now, lot));
            var e := C.GrantEntry(PurchaseGrant(p, id, now, lot));
            && out == C.Done && credits.ledger == st.ledger + [e] && e in credits.ledger
            && C.FindEntry(credits.ledger, PurchaseKey(id)) == Some(e)
  {
    var e := C.GrantEntry(PurchaseGrant(p, id, now, lot));
    var found := C.FindEntry(st.ledger + [e], PurchaseKey(id));
    assert (st.ledger + [e])[|st.ledger|] == e;
    assert found.Some?;
  }

  lemma GrantKeeps(st: C.Store, owner: string -> Id, p: Purchase, id: string, now: int, lot: Id)
    requires CI.Inv(st, owner) && CI.Fresh(st.ledger, lot)
    ensures CI.Inv(C.Apply(st, PurchaseGrant(p, id, now, lot)).0, owner)
  {
    PurchaseKeysDiffer(id, id);
    CR.ApplyKeepsInv(st, owner, PurchaseGrant(p, id, now, lot));
  }

  predicate Payable(w: Shop, id: string) { id in w.purchases && !PaidUp(w.purchases[id].status) }

  lemma MarkPaidIs(w: Shop, id: string, paymentId: Option<string>, now: int, lot: Id, fy: int -> int)
    requires Payable(w, id) && CreditsFit(w.purchases[id], w.credits.ledger, id)
    ensures var p := w.purchases[id];
            var n := NextNumber(w.counters, InvoicesOf(fy(now)));
            MarkPaid(w, id, paymentId, now, lot, fy) ==
            (Shop(
              w.purchases[id := p.(status := PAID, issuedAt := Some(now), lot := Some(lot), invoice := Some(n))],
              SetPayment(w.payments, id, CAPTURED, paymentId),
              RedeemCoupon(w.book, p.coupon, p.user, id),
              Taken(w.counters, n),
              C.Apply(w.credits, PurchaseGrant(p, id, now, lot)).0), true)
  {
    hide SetPayment, RedeemCoupon, C.Apply, C.FindEntry;
    var p := w.purchases[id].(status := PAID, issuedAt := Some(now));
    GrantIssued(w.credits, p, id, now, lot);
    var n := NextNumber(w.counters, InvoicesOf(fy(now)));
    var p' := p.(lot := Some(lot), invoice := Some(n));
    assert w.purchases[id := p.(lot := Some(lot))][id := p'] == w.purchases[id := p'];
  }

  lemma PaidCoupon(p: Purchase, b: Book, id: string, p': Purchase)
    requires CouponFits(p, b.redemptions, id) && !PaidUp(p.status) && p'.status.PAID? && p'.user == p.user && p'.coupon == p.coupon
    ensures CouponFits(p', RedeemCoupon(b, p.coupon, p.user, id).redemptions, id)
    ensures forall k: string :: k != id ==> SameKeyIn(b.redemptions, RedeemCoupon(b, p.coupon, p.user, id).redemptions, k)
  {
  }

  lemma PaidPayment(p: Purchase, pay: Payment, paymentId: Option<string>, p': Purchase)
    requires PaysFor(p, pay) && !PaidUp(p.status) && p'.status.PAID? && p'.amount == p.amount
    ensures PaysFor(p', pay.(status := CAPTURED, paymentId := if paymentId.Some? then paymentId else pay.paymentId))
  {
  }

  lemma PaidCredits(st: C.Store, p: Purchase, id: string, now: int, lot: Id, p': Purchase)
    requires CreditsFit(p, st.ledger, id) && !PaidUp(p.status)
    requires p'.invoice.Some? && p' == p.(status := PAID, issuedAt := Some(now), lot := Some(lot), invoice := p'.invoice)
    ensures CreditsFit(p', C.Apply(st, PurchaseGrant(p, id, now, lot)).0.ledger, id)
  {
    GrantIssued(st, p, id, now, lot);
    assert C.GrantEntry(PurchaseGrant(p, id, now, lot)) == GrantEntry(p', id);
  }

  lemma PaidPurchaseOk(w: Shop, id: string, paymentId: Option<string>, now: int, lot: Id, fy: int -> int)
    requires Payable(w, id) && PurchaseOk(w, id)
    ensures PurchaseOk(MarkPaid(w, id, paymentId, now, lot, fy).0, id)
  {
    MarkPaidIs(w, id, paymentId, now, lot, fy);
    var p, w' := w.purchases[id], MarkPaid(w, id, paymentId, now, lot, fy).0;
    PaidCredits(w.credits, p, id, now, lot, w'.purchases[id]);
    PaidCoupon(p, w.book, id, w'.purchases[id]);
    if id in w.payments { PaidPayment(p, w.payments[id], paymentId, w'.purchases[id]); }
  }

  lemma PaidElsewhere(w: Shop, id: string, paymentId: Option<string>, now: int, lot: Id, fy: int -> int, k: string)
    requires Payable(w, id) && CreditsFit(w.purchases[id], w.credits.ledger, id) && k != id
    ensures var w' := MarkPaid(w, id, paymentId, now, lot, fy).0;
            && SameKeyIn(w.payments, w'.payments, k)
            && SameKeyIn(w.book.redemptions, w'.book.redemptions, k)
            && SameGrant(w.credits.ledger, w'.credits.ledger, k)
  {
    hide MarkPaid, C.Apply;
    MarkPaidIs(w, id, paymentId, now, lot, fy);
    var p := w.purchases[id];
    GrantIssued(w.credits, p, id, now, lot);
    PurchaseKeysDiffer(id, k);
    AppendedElsewhere(w.credits.ledger, C.GrantEntry(PurchaseGrant(p, id, now, lot)), k);
  }

  lemma PaidPurchases(w: Shop, id: string, paymentId: Option<string>, now: int, lot: Id, fy: int -> int)
    requires PurchasesOk(w) && Payable(w, id)
    ensures PurchasesOk(MarkPaid(w, id, paymentId, now, lot, fy).0)
  {
    assert PurchaseOk(w, id);
    MarkPaidIs(w, id, paymentId, now, lot, fy);
    PaidPurchaseOk(w, id, paymentId, now, lot, fy);
    forall k: string | k != id
      ensures var w' := MarkPaid(w, id, paymentId, now, lot, fy).0;
              && SameKeyIn(w.payments, w'.payments, k)
              && SameKeyIn(w.book.redemptions, w'.book.redemptions, k)
              && SameGrant(w.credits.ledger, w'.credits.ledger, k)
    {
      PaidElsewhere(w, id, paymentId, now, lot, fy, k);
    }
    OnePurchase(w, MarkPaid(w, id, paymentId, now, lot, fy).0, id);
  }

  lemma PaidNumbers(w: Shop, id: string, paymentId: Option<string>, now: int, lot: Id, fy: int -> int)
    requires NumbersOk(w) && Payable(w, id) && CreditsFit(w.purchases[id], w.credits.ledger, id)
    ensures NumbersOk(MarkPaid(w, id, paymentId, now, lot, fy).0)
  {
    MarkPaidIs(w, id, paymentId, now, lot, fy);
    var w' := MarkPaid(w, id, paymentId, now, lot, fy).0;
    SlotsElsewhere(w, w', id);
    OneNumber(w, w', InvoiceSlot(id), InvoicesOf(fy(now)));
  }

  lemma PaidKeepsOk(w: Shop, owner: string -> Id, id: string, paymentId: Option<string>, now: int, lot: Id, fy: int -> int)
    requires ShopOk(w, owner) && Payable(w, id) && CI.Fresh(w.credits.ledger, lot)
    ensures ShopOk(MarkPaid(w, id, paymentId, now, lot, fy).0, owner)
  {
    assert PurchaseOk(w, id);
    var p := w.purchases[id];
    MarkPaidIs(w, id, paymentId, now, lot, fy);
    PaidPurchases(w, id, paymentId, now, lot, fy);
    PaidNumbers(w, id, paymentId, now, lot, fy);
    GrantKeeps(w.credits, owner, p, id, now, lot);
    RedeemKeepsOk(w.book, p.coupon, p.user, id);
  }

  lemma ReleasedCoupon(b: Book, id: string, from: RedemptionStatus)
    ensures forall k: string :: k != id ==> SameKeyIn(b.redemptions, ReleaseCoupon(b, id, from).redemptions, k)
    ensures id in b.redemptions <==> id in ReleaseCoupon(b, id, from).redemptions
    ensures id in b.redemptions ==>
              ReleaseCoupon(b, id, from).redemptions[id] ==
              b.redemptions[id].(status := if b.redemptions[id].status == from then RELEASED else b.redemptions[id].status)
  {
  }

  lemma AttemptFailedKeepsOk(w: Shop, owner: string -> Id, id: string, fromOrder: bool, paymentId: Option<string>)
    requires ShopOk(w, owner) && id in w.purchases && w.purchases[id].status.CREATED?
    ensures ShopOk(MarkFailed(w, id, fromOrder, paymentId).0, owner)
  {
    AttemptFailedPurchases(w, id, fromOrder, paymentId);
    ReleaseUseKeepsOk(w.book, id, RESERVED);
    AttemptFailedNumbers(w, id, fromOrder, paymentId);
  }

  lemma AttemptFailedNumbers(w: Shop, id: string, fromOrder: bool, paymentId: Option<string>)
    requires NumbersOk(w) && id in w.purchases && w.purchases[id].status.CREATED?
    ensures NumbersOk(MarkFailed(w, id, fromOrder, paymentId).0)
  {
    QuietNumbers(w, MarkFailed(w, id, fromOrder, paymentId).0, id);
  }

  lemma FailedPayment(p: Purchase, pay: Payment, paymentId: Option<string>)
    requires PaysFor(p, pay) && p.status.CREATED?
    ensures PaysFor(p.(status := FAILED), pay.(status := PayFAILED, paymentId := if paymentId.Some? then paymentId else pay.paymentId))
  {
  }

  lemma AttemptFailedOk(w: Shop, id: string, fromOrder: bool, paymentId: Option<string>)
    requires id in w.purchases && w.purchases[id].status.CREATED? && PurchaseOk(w, id)
    ensures PurchaseOk(MarkFailed(w, id, fromOrder, paymentId).0, id)
  {
    hide PaysFor;
    ReleasedCoupon(w.book, id, RESERVED);
    if id in w.payments { FailedPayment(w.purchases[id], w.payments[id], paymentId); }
  }

  lemma AttemptFailedOnly(w: Shop, id: string, fromOrder: bool, paymentId: Option<string>)
    requires id in w.purchases
    ensures OnlyPurchase(w, MarkFailed(w, id, fromOrder, paymentId).0, id)
  {
    ReleasedCoupon(w.book, id, RESERVED);
  }

  lemma AttemptFailedPurchases(w: Shop, id: string, fromOrder: bool, paymentId: Option<string>)
    requires PurchasesOk(w) && id in w.purchases && w.purchases[id].status.CREATED?
    ensures PurchasesOk(MarkFailed(w, id, fromOrder, paymentId).0)
  {
    hide MarkFailed, PurchaseOk, OnlyPurchase;
    AttemptFailedOk(w, id, fromOrder, paymentId);
    AttemptFailedOnly(w, id, fromOrder, paymentId);
    OnePurchase(w, MarkFailed(w, id, fromOrder, paymentId).0, id);
  }

  /** A step that gives no number and takes none leaves the series as they are. */
  lemma QuietNumbers(w: Shop, w': Shop, id: string)
    requires NumbersOk(w) && id in w.purchases && w'.purchases.Keys == w.purchases.Keys && w'.counters == w.counters
    requires forall k <- w.purchases :: k != id ==> w'.purchases[k] == w.purchases[k]
    requires forall k: string :: k != id ==> SameKeyIn(w.payments, w'.payments, k)
    requires w'.purchases[id].invoice == w.purchases[id].invoice
    requires forall i: nat :: NumberAt(w', NoteSlot(id, i)) == NumberAt(w, NoteSlot(id, i))
    ensures NumbersOk(w')
  {
    SlotsElsewhere(w, w', id);
    forall slot ensures NumberAt(w', slot) == NumberAt(w, slot) {
      if slot.id == id && slot.InvoiceSlot? { assert slot == InvoiceSlot(id); }
      if slot.id == id && slot.NoteSlot? { assert slot == NoteSlot(id, slot.index); }
    }
    SameNumbers(w, w');
  }

  lemma ExpirePurchases(w: Shop, id: string)
    requires PurchasesOk(w) && id in w.purchases && (w.purchases[id].status.CREATED? || w.purchases[id].status.FAILED?)
    ensures PurchasesOk(Expire(w, id).0)
  {
    assert PurchaseOk(w, id);
    ReleasedCoupon(w.book, id, RESERVED);
    OnePurchase(w, Expire(w, id).0, id);
  }

  lemma ExpireNumbers(w: Shop, id: string)
    requires NumbersOk(w) && id in w.purchases && (w.purchases[id].status.CREATED? || w.purchases[id].status.FAILED?)
    ensures NumbersOk(Expire(w, id).0)
  {
    QuietNumbers(w, Expire(w, id).0, id);
  }

  lemma ExpireKeepsOk(w: Shop, owner: string -> Id, id: string)
    requires ShopOk(w, owner) && id in w.purchases && (w.purchases[id].status.CREATED? || w.purchases[id].status.FAILED?)
    ensures ShopOk(Expire(w, id).0, owner)
  {
    ExpirePurchases(w, id);
    ReleaseUseKeepsOk(w.book, id, RESERVED);
    ExpireNumbers(w, id);
  }

  // ---- Steps of the refund protocol --------------------------------------------------------------

  function NoteAt(refunds: seq<Refund>, i: nat): Option<Number> { if i < |refunds| then refunds[i].note else None }

  /** The notes stay where they are, on processed refunds only. */
  ghost predicate SameNotes(a: seq<Refund>, b: seq<Refund>) {
    NotesOk(b) && forall i: nat :: NoteAt(b, i) == NoteAt(a, i)
  }

  lemma EntryChanged(refunds: seq<Refund>, i: nat, r: Refund)
    requires NotesOk(refunds) && i < |refunds|
    requires r.note == refunds[i].note && (r.status.Processed? <==> refunds[i].status.Processed?)
    ensures SameNotes(refunds, refunds[i := r])
  {
    var b := refunds[i := r];
    assert refunds[i] in refunds;
    forall x | x in b ensures x.note.Some? <==> x.status.Processed? {
      var j :| 0 <= j < |b| && b[j] == x;
      assert refunds[j] in refunds;
    }
  }

  lemma EntryAdded(refunds: seq<Refund>, r: Refund)
    requires NotesOk(refunds) && r.note.None? && !r.status.Processed?
    ensures SameNotes(refunds, refunds + [r])
  {
  }

  lemma PaymentPurchases(w: Shop, id: string, pay: Payment)
    requires PurchasesOk(w) && id in w.payments && id in w.purchases && PaysFor(w.purchases[id], pay)
    ensures PurchasesOk(w.(payments := w.payments[id := pay]))
  {
    hide PaysFor, CouponFits, CreditsFit;
    assert PurchaseOk(w, id);
    OnePurchase(w, w.(payments := w.payments[id := pay]), id);
  }

  lemma PaymentNumbers(w: Shop, id: string, pay: Payment)
    requires NumbersOk(w) && id in w.payments && id in w.purchases && SameNotes(w.payments[id].refunds, pay.refunds)
    ensures NumbersOk(w.(payments := w.payments[id := pay]))
  {
    var w' := w.(payments := w.payments[id := pay]);
    forall i: nat ensures NumberAt(w', NoteSlot(id, i)) == NumberAt(w, NoteSlot(id, i)) {
      assert NoteAt(pay.refunds, i) == NoteAt(w.payments[id].refunds, i);
    }
    QuietNumbers(w, w', id);
  }

  /** A step that changes one payment within the protocol. */
  lemma PaymentKeepsOk(w: Shop, owner: string -> Id, id: string, pay: Payment)
    requires ShopOk(w, owner) && id in w.payments && id in w.purchases
    requires pay.amount == w.payments[id].amount && PaymentOk(w.purchases[id].status, pay) && SameNotes(w.payments[id].refunds, pay.refunds)
    ensures ShopOk(w.(payments := w.payments[id := pay]), owner)
  {
    assert PurchaseOk(w, id);
    PaymentPurchases(w, id, pay);
    PaymentNumbers(w, id, pay);
  }

  lemma PaymentOf(w: Shop, owner: string -> Id, id: string)
    requires ShopOk(w, owner) && id in w.payments
    ensures id in w.purchases && PaysFor(w.purchases[id], w.payments[id])
  {
    assert PurchaseOk(w, id);
  }

  lemma ClaimedKeepsOk(w: Shop, owner: string -> Id, id: string, key: string, amount: int, toWithdraw: int, now: int)
    requires ShopOk(w, owner) && id in w.payments && NewKey(w, id, key) && Claim(w.payments[id], key, amount, toWithdraw, now).Some?
    ensures ShopOk(w.(payments := w.payments[id := Claim(w.payments[id], key, amount, toWithdraw, now).value]), owner)
  {
    PaymentOf(w, owner, id);
    var pay := w.payments[id];
    ClaimKeepsOk(w.purchases[id].status, pay, key, amount, toWithdraw, now);
    EntryAdded(pay.refunds, Refund(key, None, amount, Requested, toWithdraw, 0, now, None));
    PaymentKeepsOk(w, owner, id, Claim(pay, key, amount, toWithdraw, now).value);
  }

  lemma ReleasedKeepsOk(w: Shop, owner: string -> Id, id: string, key: string)
    requires ShopOk(w, owner) && id in w.payments && Release(w.payments[id], key).Some?
    ensures ShopOk(w.(payments := w.payments[id := Release(w.payments[id], key).value]), owner)
  {
    PaymentOf(w, owner, id);
    var pay := w.payments[id];
    ReleaseKeepsOk(w.purchases[id].status, pay, key);
    var i := FindRequested(pay.refunds, key).value;
    EntryChanged(pay.refunds, i, pay.refunds[i].(status := Failed));
    PaymentKeepsOk(w, owner, id, Release(pay, key).value);
  }

  lemma AcceptedNotes(pay: Payment, key: string, refundId: string)
    requires NotesOk(pay.refunds)
    ensures SameNotes(pay.refunds, MarkPending(pay, key, refundId).0.refunds)
  {
    var i, j := FindRequested(pay.refunds, key), FindKey(pay.refunds, key);
    if pay.status.REFUND_REQUESTED? && i.Some? {
      EntryChanged(pay.refunds, i.value, pay.refunds[i.value].(id := Some(refundId), status := Pending));
    } else if j.Some? {
      EntryChanged(pay.refunds, j.value, pay.refunds[j.value].(id := Some(refundId)));
    }
  }

  lemma AcceptedStepKeepsOk(w: Shop, owner: string -> Id, id: string, key: string, refundId: string)
    requires ShopOk(w, owner) && id in w.payments
    ensures ShopOk(w.(payments := w.payments[id := MarkPending(w.payments[id], key, refundId).0]), owner)
  {
    PaymentOf(w, owner, id);
    var pay := w.payments[id];
    AcceptKeepsOk(w.purchases[id].status, pay, key, refundId);
    AcceptedNotes(pay, key, refundId);
    PaymentKeepsOk(w, owner, id, MarkPending(pay, key, refundId).0);
  }

  lemma FailedNotes(pay: Payment, refundId: string)
    requires NotesOk(pay.refunds) && MarkRefundFailed(pay, refundId).Some?
    ensures SameNotes(pay.refunds, MarkRefundFailed(pay, refundId).value.refunds)
  {
    var i := FindId(pay.refunds, refundId);
    var j := if i.Some? then i else FindLost(pay.refunds, None);
    if j.Some? {
      EntryChanged(pay.refunds, j.value, pay.refunds[j.value].(id := Some(refundId), status := Failed));
    }
  }

  lemma RefundFailedStepKeepsOk(w: Shop, owner: string -> Id, id: string, refundId: string)
    requires ShopOk(w, owner) && id in w.payments && MarkRefundFailed(w.payments[id], refundId).Some?
    ensures ShopOk(w.(payments := w.payments[id := MarkRefundFailed(w.payments[id], refundId).value]), owner)
  {
    PaymentOf(w, owner, id);
    var pay := w.payments[id];
    RefundFailedKeepsOk(w.purchases[id].status, pay, refundId);
    FailedNotes(pay, refundId);
    PaymentKeepsOk(w, owner, id, MarkRefundFailed(pay, refundId).value);
  }
}

/** What every purchase looks like in every reachable state: its payment, coupon use, credits and
    invoice agree with its status. */
module ShopInvariant {
  import opened Purchases
  import opened RefundProtocol
  import opened CouponUses
  import opened DocumentNumbers
  import C = CreditLedger
  import CI = CreditInvariant

  predicate PaidUp(s: PurchaseStatus) { s.PAID? || s.REFUNDED? }

  /** A refund has a credit note once it is processed, and not before. */
  ghost predicate NotesOk(refunds: seq<Refund>) {
    forall r <- refunds :: r.note.Some? <==> r.status.Processed?
  }

  ghost predicate PaysFor(p: Purchase, pay: Payment) {
    pay.amount == p.amount && PaymentOk(p.status, pay) && NotesOk(pay.refunds)
  }

  /** The redemption follows the purchase. */
  predicate Follows(r: RedemptionStatus, s: PurchaseStatus) {
    match s
    case CREATED => r.RESERVED?
    case FAILED => r.RESERVED? || r.RELEASED?
    case EXPIRED => r.RELEASED?
    case PAID => r.REDEEMED?
    case REFUNDED => r.RELEASED?
  }

  ghost predicate CouponFits(p: Purchase, redemptions: map<string, Redemption>, id: string) {
    if p.coupon.None? then id !in redemptions
    else id in redemptions && redemptions[id].coupon == p.coupon.value && redemptions[id].user == p.user
         && Follows(redemptions[id].status, p.status)
  }

  function GrantEntry(p: Purchase, id: string): C.Entry
    requires p.issuedAt.Some? && p.lot.Some?
  {
    C.GrantEntry(PurchaseGrant(p, id, p.issuedAt.value, p.lot.value))
  }

  ghost predicate CreditsFit(p: Purchase, ledger: seq<C.Entry>, id: string) {
    && p.credits > 0
    && if PaidUp(p.status) then p.issuedAt.Some? && p.lot.Some? && p.invoice.Some? && GrantEntry(p, id) in ledger
       else p.lot.None? && p.invoice.None? && !C.HasKey(ledger, PurchaseKey(id))
  }

  ghost predicate PurchaseOk(w: Shop, id: string)
    requires id in w.purchases
  {
    var p := w.purchases[id];
    && (id in w.payments <==> p.amount > 0)
    && (id in w.payments ==> PaysFor(p, w.payments[id]))
    && (id !in w.payments ==> !p.status.REFUNDED?)
    && CouponFits(p, w.book.redemptions, id)
    && CreditsFit(p, w.credits.ledger, id)
  }

  /** Payments, redemptions and grants all belong to purchases, and agree with them. */
  ghost predicate PurchasesOk(w: Shop) {
    && (forall id <- w.purchases :: PurchaseOk(w, id))
    && (forall id <- w.payments :: id in w.purchases)
    && (forall id <- w.book.redemptions :: id in w.purchases)
    && (forall id: string :: C.HasKey(w.credits.ledger, PurchaseKey(id)) ==> id in w.purchases)
  }

  ghost predicate ShopOk(w: Shop, owner: string -> Id) {
    CI.Inv(w.credits, owner) && BookOk(w.book) && NumbersOk(w) && PurchasesOk(w)
  }

  /** No entry of this purchase's grant comes or goes. */
  ghost predicate SameGrant(l: seq<C.Entry>, l': seq<C.Entry>, id: string) {
    forall e: C.Entry :: e.key == PurchaseKey(id) ==> (e in l <==> e in l')
  }

  ghost predicate SameKeyIn<V(!new)>(a: map<string, V>, b: map<string, V>, k: string) {
    (k in a <==> k in b) && (k in a ==> a[k] == b[k])
  }

  lemma SameGrantFits(p: Purchase, l: seq<C.Entry>, l': seq<C.Entry>, id: string)
    requires SameGrant(l, l', id) && CreditsFit(p, l, id)
    ensures CreditsFit(p, l', id)
  {
  }

  /** Nothing changes but purchase `id` and what belongs to it. */
  ghost predicate OnlyPurchase(w: Shop, w': Shop, id: string) {
    && w'.purchases.Keys == w.purchases.Keys + {id}
    && (forall k <- w.purchases :: k != id ==> w'.purchases[k] == w.purchases[k])
    && (forall k: string :: k != id ==>
          && SameKeyIn(w.payments, w'.payments, k)
          && SameKeyIn(w.book.redemptions, w'.book.redemptions, k)
          && SameGrant(w.credits.ledger, w'.credits.ledger, k))
  }

  lemma OnePurchase(w: Shop, w': Shop, id: string)
    requires PurchasesOk(w) && OnlyPurchase(w, w', id) && PurchaseOk(w', id)
    ensures PurchasesOk(w')
  {
    forall k | k in w'.purchases ensures PurchaseOk(w', k) {
      if k != id {
        assert SameKeyIn(w.payments, w'.payments, k);
        assert PurchaseOk(w, k);
        SameGrantFits(w.purchases[k], w.credits.ledger, w'.credits.ledger, k);
      }
    }
    forall k | k in w'.payments ensures k in w'.purchases { assert k != id ==> SameKeyIn(w.payments, w'.payments, k); }
    forall k | k in w'.book.redemptions ensures k in w'.purchases { assert k != id ==> SameKeyIn(w.book.redemptions, w'.book.redemptions, k); }
    forall k: string | C.HasKey(w'.credits.ledger, PurchaseKey(k)) ensures k in w'.purchases {
      if k != id {
        assert SameGrant(w.credits.ledger, w'.credits.ledger, k);
        var e :| e in w'.credits.ledger && e.key == PurchaseKey(k);
        assert e in w.credits.ledger;
      }
    }
  }

  // ---- Keys ----------------------------------------------------------------------------------

  lemma PurchaseKeysDiffer(a: string, b: string)
    ensures PurchaseKey(a) == PurchaseKey(b) ==> a == b
    ensures CI.CallerKey(PurchaseKey(a))
  {
    assert PurchaseKey(a)[9..] == a && PurchaseKey(b)[9..] == b;
    assert (PurchaseKey(a) + ":")[0] == 'p';
  }

  lemma RefundKeysDiffer(id: string, refundId: string, other: string)
    ensures RefundKey(id, refundId) != PurchaseKey(other)
    ensures CI.CallerKey(RefundKey(id, refundId))
  {
    assert RefundKey(id, refundId)[0] == 'r' && PurchaseKey(other)[0] == 'p';
    assert (RefundKey(id, refundId) + ":")[2] == 'f';
  }

  lemma AppendedElsewhere(l: seq<C.Entry>, e: C.Entry, id: string)
    requires e.key != PurchaseKey(id)
    ensures SameGrant(l, l + [e], id)
  {
  }
}

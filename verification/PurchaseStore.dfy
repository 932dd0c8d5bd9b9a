/** Purchases as they run against the database: conditional updates of the purchase, payment, coupon
    and counter records in place, one transaction each. */
module PurchaseStore {
  import opened Wrappers
  import opened Purchases
  import C = CreditLedger
  import CreditStore
  import R = RefundRequests

  class PurchaseStore {
    const credits: CreditStore.CreditStore
    var purchases: map<string, Purchase>
    var payments: map<string, Payment>
    var coupons: map<Id, Coupon>
    var held: map<(Id, Id), int>
    var redemptions: map<string, Redemption>
    var counters: map<Series, nat>

    function CouponBook(): Book
      reads this
    {
      Book(coupons, held, redemptions)
    }

    function State(): Shop
      reads this, credits
    {
      Shop(purchases, payments, CouponBook(), counters, credits.State())
    }

    constructor (credits: CreditStore.CreditStore)
      ensures this.credits == credits
      ensures purchases == map[] && payments == map[] && CouponBook() == Book(map[], map[], map[]) && counters == map[]
    {
      this.credits := credits;
      purchases, payments, coupons, held, redemptions, counters := map[], map[], map[], map[], map[], map[];
    }

    // ---- Coupon uses -------------------------------------------------------------------------

    method EnsureCouponCounter(coupon: Id, user: Id)
      modifies this`held
      ensures CouponBook() == EnsureCounter(old(CouponBook()), coupon, user)
    {
      if (coupon, user) in held { return; }
      var uses := set p | p in redemptions && Counts(redemptions[p], coupon, user);
      held := held[(coupon, user) := |uses|];
    }

    /** Takes one use; a limit that is reached rolls the order back. */
    method TakeCouponUse(coupon: Id, user: Id, purchase: string) returns (ok: bool)
      modifies this`coupons, this`held, this`redemptions
      ensures ReserveCoupon(old(CouponBook()), coupon, user, purchase) == if ok then Some(CouponBook()) else None
      ensures !ok ==> CouponBook() == old(CouponBook())
    {
      if coupon !in coupons { return false; }
      var c := coupons[coupon];
      if c.maxUses.Some? && c.used >= c.maxUses.value { return false; }
      var before := coupons;
      coupons := coupons[coupon := c.(used := c.used + 1)];
      if (coupon, user) !in held || held[(coupon, user)] >= c.perUserLimit {
        coupons := before;
        return false;
      }
      held := held[(coupon, user) := held[(coupon, user)] + 1];
      redemptions := redemptions[purchase := Redemption(coupon, user, RESERVED)];
      ok := true;
    }

    method GiveBackCouponUse(purchase: string, from: RedemptionStatus)
      modifies this`coupons, this`held, this`redemptions
      ensures CouponBook() == ReleaseCoupon(old(CouponBook()), purchase, from)
    {
      if purchase !in redemptions || redemptions[purchase].status != from { return; }
      var r := redemptions[purchase];
      redemptions := redemptions[purchase := r.(status := RELEASED)];
      if (r.coupon, r.user) in held && held[(r.coupon, r.user)] > 0 {
        held := held[(r.coupon, r.user) := held[(r.coupon, r.user)] - 1];
      }
      if r.coupon in coupons && coupons[r.coupon].used > 0 {
        coupons := coupons[r.coupon := coupons[r.coupon].(used := coupons[r.coupon].used - 1)];
      }
    }

    method RedeemCouponUse(coupon: Option<Id>, user: Id, purchase: string)
      modifies this`coupons, this`held, this`redemptions
      ensures CouponBook() == RedeemCoupon(old(CouponBook()), coupon, user, purchase)
    {
      if coupon.None? { return; }
      if purchase in redemptions && redemptions[purchase].status.RESERVED? {
        redemptions := redemptions[purchase := redemptions[purchase].(status := REDEEMED)];
        return;
      }
      if purchase in redemptions && !redemptions[purchase].status.RELEASED? { return; }
      if coupon.value in coupons {
        coupons := coupons[coupon.value := coupons[coupon.value].(used := coupons[coupon.value].used + 1)];
      }
      var k := (coupon.value, user);
      var uses := if k in held then held[k] else 0;
      held := held[k := uses + 1];
      if purchase in redemptions {
        redemptions := redemptions[purchase := redemptions[purchase].(status := REDEEMED)];
      } else {
        redemptions := redemptions[purchase := Redemption(coupon.value, user, REDEEMED)];
      }
    }

    // ---- Document numbers --------------------------------------------------------------------

    method TakeNumber(series: Series) returns (n: Number)
      modifies this`counters
      ensures n == NextNumber(old(counters), series) && counters == Taken(old(counters), n)
    {
      var last := if series in counters then counters[series] else 0;
      counters := counters[series := last + 1];
      n := Number(series, last + 1);
    }

    method IssueInvoiceNumber(id: string, at: int, fy: int -> int) returns (n: Option<Number>)
      modifies this`purchases, this`counters
      ensures State() == IssueInvoice(old(State()), id, at, fy).0 && n == IssueInvoice(old(State()), id, at, fy).1
    {
      if id !in purchases { return None; }
      var p := purchases[id];
      if p.invoice.Some? { return p.invoice; }
      if !p.status.PAID? && !p.status.REFUNDED? { return None; }
      var number := TakeNumber(InvoicesOf(fy(p.issuedAt.GetOr(at))));
      purchases := purchases[id := p.(invoice := Some(number))];
      n := Some(number);
    }

    method IssueCreditNoteNumber(id: string, key: string, at: int, fy: int -> int) returns (n: Option<Number>)
      modifies this`payments, this`counters
      ensures State() == IssueNote(old(State()), id, key, at, fy).0 && n == IssueNote(old(State()), id, key, at, fy).1
    {
      if id !in payments { return None; }
      var pay := payments[id];
      var i := FindProcessed(pay.refunds, key);
      if i.None? { return None; }
      if pay.refunds[i.value].note.Some? { return pay.refunds[i.value].note; }
      var number := TakeNumber(NotesOf(fy(at)));
      var refunds := pay.refunds;
      var j := 0;
      while j < |refunds|
        invariant 0 <= j <= |refunds| == |pay.refunds|
        invariant forall k :: 0 <= k < |refunds| ==>
                    refunds[k] == if k < j && pay.refunds[k].key == key && pay.refunds[k].note.None?
                                  then pay.refunds[k].(note := Some(number)) else pay.refunds[k]
      {
        if refunds[j].key == key && refunds[j].note.None? {
          refunds := refunds[j := refunds[j].(note := Some(number))];
        }
        j := j + 1;
      }
      payments := payments[id := pay.(refunds := refunds)];
      n := Some(number);
      assert refunds == IssueNote(old(State()), id, key, at, fy).0.payments[id].refunds;
    }

    // ---- Orders and payment outcomes -----------------------------------------------------------

    method CreateOrder(id: string, p: Purchase) returns (ok: bool)
      modifies this
      ensures credits.State() == old(credits.State())
      ensures Order(old(State()), id, p) == if ok then Some(State()) else None
      ensures !ok ==> State() == old(State())
    {
      ok := true;
      if p.coupon.Some? { ok := TakeCouponUse(p.coupon.value, p.user, id); }
      if !ok { return; }
      purchases := purchases[id := p];
      if p.amount > 0 {
        payments := payments[id := Payment(None, p.amount, PayCREATED, [], 0, false)];
      }
    }

    method UpdatePaymentStatus(id: string, status: PaymentStatus, paymentId: Option<string>)
      modifies this`payments
      ensures payments == SetPayment(old(payments), id, status, paymentId)
    {
      if id !in payments { return; }
      var pay := payments[id].(status := status);
      if paymentId.Some? { pay := pay.(paymentId := paymentId); }
      payments := payments[id := pay];
    }

    method MarkPurchasePaid(id: string, paymentId: Option<string>, now: int, lot: Id, fy: int -> int) returns (issued: bool)
      modifies this, credits
      ensures State() == MarkPaid(old(State()), id, paymentId, now, lot, fy).0
      ensures issued == MarkPaid(old(State()), id, paymentId, now, lot, fy).1
    {
      if id !in purchases || purchases[id].status.PAID? || purchases[id].status.REFUNDED? { return false; }
      var before, ledgerBefore := purchases, credits.State();
      var p := purchases[id].(status := PAID, issuedAt := Some(now));
      purchases := purchases[id := p];
      var granted := credits.GrantCredits(PurchaseGrant(p, id, now, lot));
      var entry := C.FindEntry(credits.ledger, PurchaseKey(id));
      if granted.Thrown() || entry.None? {
        purchases, credits.accounts, credits.ledger := before, ledgerBefore.accounts, ledgerBefore.ledger;
        return false;
      }
      purchases := purchases[id := p.(lot := Some(entry.value.lotId))];
      assert purchases == before[id := p.(lot := Some(entry.value.lotId))];
      RedeemCouponUse(p.coupon, p.user, id);
      var _ := IssueInvoiceNumber(id, now, fy);
      UpdatePaymentStatus(id, CAPTURED, paymentId);
      issued := true;
    }

    method MarkPurchaseFailed(id: string, fromOrder: bool, paymentId: Option<string>) returns (changed: bool)
      modifies this
      ensures credits.State() == old(credits.State())
      ensures State() == MarkFailed(old(State()), id, fromOrder, paymentId).0
      ensures changed == MarkFailed(old(State()), id, fromOrder, paymentId).1
    {
      if id !in purchases || !purchases[id].status.CREATED? { return false; }
      purchases := purchases[id := purchases[id].(status := FAILED)];
      if fromOrder { GiveBackCouponUse(id, RESERVED); }
      UpdatePaymentStatus(id, PayFAILED, paymentId);
      changed := true;
    }

    method ExpirePurchase(id: string) returns (changed: bool)
      modifies this
      ensures credits.State() == old(credits.State())
      ensures State() == Expire(old(State()), id).0 && changed == Expire(old(State()), id).1
    {
      if id !in purchases || !(purchases[id].status.CREATED? || purchases[id].status.FAILED?) { return false; }
      purchases := purchases[id := purchases[id].(status := EXPIRED)];
      GiveBackCouponUse(id, RESERVED);
      changed := true;
    }

    // ---- Refunds -----------------------------------------------------------------------------

    method ClaimRefund(id: string, key: string, amount: int, toWithdraw: int, now: int) returns (ok: bool)
      modifies this`payments
      ensures State() == Next(old(State()), Claimed(id, key, amount, toWithdraw, now), x => x)
      ensures ok == (id in old(payments) && Claim(old(payments)[id], key, amount, toWithdraw, now).Some?)
    {
      if id !in payments { return false; }
      var pay := payments[id];
      if !pay.status.CAPTURED? || pay.paymentId.None? || pay.refunded + amount > pay.amount { return false; }
      var entry := Refund(key, None, amount, Requested, toWithdraw, 0, now, None);
      payments := payments[id := pay.(status := REFUND_REQUESTED, refundFailed := false, refunds := pay.refunds + [entry])];
      ok := true;
    }

    method ReleaseRefundClaim(id: string, key: string) returns (ok: bool)
      modifies this`payments
      ensures State() == Next(old(State()), Released(id, key), x => x)
      ensures ok == (id in old(payments) && Release(old(payments)[id], key).Some?)
    {
      if id !in payments { return false; }
      var pay := payments[id];
      var i := FindRequested(pay.refunds, key);
      if !pay.status.REFUND_REQUESTED? || i.None? { return false; }
      payments := payments[id := pay.(status := CAPTURED, refunds := pay.refunds[i.value := pay.refunds[i.value].(status := Failed)])];
      ok := true;
    }

    method MarkRefundPending(id: string, key: string, refundId: string) returns (ok: bool)
      modifies this`payments
      ensures State() == Next(old(State()), Accepted(id, key, refundId), x => x)
      ensures ok == (id in old(payments) && MarkPending(old(payments)[id], key, refundId).1)
    {
      if id !in payments { return false; }
      var pay := payments[id];
      var i := FindRequested(pay.refunds, key);
      if pay.status.REFUND_REQUESTED? && i.Some? {
        var entry := pay.refunds[i.value].(id := Some(refundId), status := Pending);
        payments := payments[id := pay.(status := REFUND_PENDING, refunds := pay.refunds[i.value := entry])];
        return true;
      }
      var j := FindKey(pay.refunds, key);
      if j.Some? {
        payments := payments[id := pay.(refunds := pay.refunds[j.value := pay.refunds[j.value].(id := Some(refundId))])];
      }
      ok := false;
    }

    method Withdraw(id: string, p: Purchase, fully: bool, toWithdraw: int, refundId: string) returns (n: int)
      modifies credits
      ensures WithdrawCredits(old(State()), id, p, fully, toWithdraw, refundId) == (credits.State(), n)
    {
      if p.lot.None? || !(fully || toWithdraw > 0) { return 0; }
      var out := credits.RevokeLotCredits(C.Revoke(p.user, p.lot.value, RefundKey(id, refundId), if fully then None else Some(toWithdraw)));
      n := if out.Withdrawn? then out.credits else 0;
    }

    /** The entry a processed refund belongs to, in a copy of the entries that may have one more. */
    method PickEntry(pay: Payment, refundId: string, amount: Option<int>, now: int, key: string)
      returns (ok: bool, refunds: seq<Refund>, i: nat)
      ensures RefundTarget(pay, refundId, amount, now, key) == if ok then Some((refunds, i)) else None
      ensures ok ==> i < |refunds|
    {
      ok, refunds, i := true, pay.refunds, 0;
      var found := FindId(refunds, refundId);
      if found.None? { found := FindLost(refunds, amount); }
      if found.Some? {
        ok, i := !refunds[found.value].status.Processed?, found.value;
        return;
      }
      var amountMinor := amount.GetOr(pay.amount - pay.refunded);
      if amountMinor <= 0 { return false, refunds, 0; }
      i := |refunds|;
      refunds := refunds + [Refund(key, Some(refundId), amountMinor, Pending, 0, 0, now, None)];
    }

    method MarkPurchaseRefunded(id: string, refundId: string, amount: Option<int>, now: int, key: string, fy: int -> int)
      returns (result: RefundResult)
      modifies this, credits
      ensures State() == MarkRefunded(old(State()), id, refundId, amount, now, key, fy).0
      ensures result == MarkRefunded(old(State()), id, refundId, amount, now, key, fy).1
    {
      if id !in purchases || id !in payments || !purchases[id].status.PAID? { return NOT_REFUNDED; }
      var p, pay := purchases[id], payments[id];
      var ok, refunds, i := PickEntry(pay, refundId, amount, now, key);
      if !ok { return NOT_REFUNDED; }
      var fully := pay.refunded + refunds[i].amount >= pay.amount;
      var withdrawn := Withdraw(id, p, fully, refunds[i].toWithdraw, refundId);
      var note := TakeNumber(NotesOf(fy(now)));
      var settled := SettleEntry(pay, refunds, i, refundId, withdrawn, note);
      payments := payments[id := settled];
      if fully {
        purchases := purchases[id := p.(status := REFUNDED)];
        GiveBackCouponUse(id, REDEEMED);
      }
      result := RefundResult(true, fully, withdrawn);
    }

    method SettleEntry(pay: Payment, refunds: seq<Refund>, i: nat, refundId: string, withdrawn: int, note: Number)
      returns (settled: Payment)
      requires i < |refunds|
      ensures settled == Settled(pay, refunds, i, refundId, withdrawn, note)
    {
      var refunded := pay.refunded + refunds[i].amount;
      var entry := refunds[i].(id := Some(refundId), status := Processed, withdrawn := withdrawn, note := Some(note));
      var entries := refunds[i := entry];
      var status := pay.status;
      if refunded >= pay.amount {
        status := PayREFUNDED;
      } else if !SomeOpen(entries) && (pay.status.REFUND_PENDING? || pay.status.REFUND_REQUESTED?) {
        status := CAPTURED;
      }
      settled := pay.(refunds := entries, refunded := refunded, status := status);
    }

    method ReportRefundFailed(id: string, refundId: string) returns (amount: Option<int>)
      modifies this`payments
      ensures State() == Next(old(State()), RefundFailed(id, refundId), x => x)
      ensures amount.Some? == (id in old(payments) && MarkRefundFailed(old(payments)[id], refundId).Some?)
    {
      if id !in payments { return None; }
      var pay := payments[id];
      var refunds := pay.refunds;
      var found := FindId(refunds, refundId);
      if found.None? { found := FindLost(refunds, None); }
      if found.Some? {
        var entry := refunds[found.value];
        if !Open(entry) { return None; }
        refunds := refunds[found.value := entry.(id := Some(refundId), status := Failed)];
        amount := Some(entry.amount);
      } else {
        amount := Some(0);
      }
      var status := pay.status;
      if !SomeOpen(refunds) && (pay.status.REFUND_PENDING? || pay.status.REFUND_REQUESTED?) { status := CAPTURED; }
      payments := payments[id := pay.(refunds := refunds, refundFailed := true, status := status)];
    }

    /** An admin's refund: nothing is asked of the gateway without the claim. */
    method RequestRefund(q: R.Request, reply: R.Reply, spare: string, fy: int -> int)
      returns (claimed: bool, result: RefundResult)
      modifies this, credits
      ensures claimed == (q.id in old(payments) && Claim(old(payments)[q.id], q.key, q.amount, q.toWithdraw, q.claimedAt).Some?)
      ensures State() == if claimed then RunShop(old(State()), [R.ClaimStep(q)] + R.ReplySteps(q, reply, spare), fy) else old(State())
    {
      hide Next;
      result := NOT_REFUNDED;
      ghost var before := State();
      claimed := ClaimRefund(q.id, q.key, q.amount, q.toWithdraw, q.claimedAt);
      R.NoYear(before, R.ClaimStep(q), x => x, fy);
      if !claimed {
        R.NotClaimed(before, q, fy);
        return;
      }
      result := CarryOutReply(q, reply, spare, fy);
      assert ([R.ClaimStep(q)] + R.ReplySteps(q, reply, spare))[1..] == R.ReplySteps(q, reply, spare);
    }

    method CarryOutReply(q: R.Request, reply: R.Reply, spare: string, fy: int -> int) returns (result: RefundResult)
      modifies this, credits
      ensures State() == RunShop(old(State()), R.ReplySteps(q, reply, spare), fy)
    {
      hide Next;
      result := NOT_REFUNDED;
      ghost var before := State();
      if reply.Unreachable? {
        var _ := ReleaseRefundClaim(q.id, q.key);
        R.NoYear(before, Released(q.id, q.key), x => x, fy);
        R.OneStep(before, Released(q.id, q.key), fy);
        return;
      }
      var _ := MarkRefundPending(q.id, q.key, reply.id);
      R.NoYear(before, Accepted(q.id, q.key, reply.id), x => x, fy);
      R.OneStep(before, Accepted(q.id, q.key, reply.id), fy);
      ghost var accepted := State();
      if reply.Made? {
        result := MarkPurchaseRefunded(q.id, reply.id, None, q.repliedAt, spare, fy);
        R.RefundStep(accepted, q, reply.id, spare, fy);
        R.TwoSteps(before, Accepted(q.id, q.key, reply.id), Refunded(q.id, reply.id, None, q.repliedAt, spare), fy);
      } else if reply.Refused? {
        var _ := ReportRefundFailed(q.id, reply.id);
        R.NoYear(accepted, RefundFailed(q.id, reply.id), x => x, fy);
        R.TwoSteps(before, Accepted(q.id, q.key, reply.id), RefundFailed(q.id, reply.id), fy);
      }
    }
  }
}

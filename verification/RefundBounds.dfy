/** How much can be refunded, and what single steps of the purchase protocol do for the customer. */
module RefundBounds {
  import opened Wrappers
  import opened Purchases
  import opened RefundProtocol
  import opened CouponUses
  import opened ShopInvariant
  import opened ShopRuns
  import opened ShopSystem
  import C = CreditLedger

  // ---- Never more than was paid ------------------------------------------------------------------

  /** What was refunded, together with any refund under way, is at most what was paid. */
  ghost predicate Room(pay: Payment) {
    && pay.refunded <= pay.amount
    && forall r <- pay.refunds :: Open(r) ==> pay.refunded + r.amount <= pay.amount
  }

  lemma ClaimKeepsRoom(pay: Payment, key: string, amount: int, toWithdraw: int, now: int)
    requires Room(pay) && Claim(pay, key, amount, toWithdraw, now).Some?
    ensures Room(Claim(pay, key, amount, toWithdraw, now).value)
  {
  }

  /** Closing an entry, naming it or moving it along changes no amount. */
  lemma ChangeKeepsRoom(pay: Payment, pay': Payment, i: nat)
    requires Room(pay) && i < |pay.refunds| && pay'.amount == pay.amount && pay'.refunded == pay.refunded
    requires |pay'.refunds| == |pay.refunds| && forall j :: 0 <= j < |pay.refunds| && j != i ==> pay'.refunds[j] == pay.refunds[j]
    requires pay'.refunds[i].amount == pay.refunds[i].amount && (Open(pay'.refunds[i]) ==> Open(pay.refunds[i]))
    ensures Room(pay')
  {
    forall r | r in pay'.refunds && Open(r) ensures pay'.refunded + r.amount <= pay'.amount {
      var j :| 0 <= j < |pay'.refunds| && pay'.refunds[j] == r;
      assert pay.refunds[j] in pay.refunds;
    }
  }

  /** A processed refund keeps within what was paid exactly when there is room for it beside whatever
      else is under way; for one that was under way itself there always is. */
  lemma RefundKeepsRoomIff(pay: Payment, refundId: string, amount: Option<int>, now: int, key: string, withdrawn: int, note: Number)
    requires PaymentOk(PAID, pay) && Room(pay) && RefundTarget(pay, refundId, amount, now, key).Some?
    ensures var (refunds, i) := RefundTarget(pay, refundId, amount, now, key).value;
            && (Room(Settled(pay, refunds, i, refundId, withdrawn, note)) <==>
                && pay.refunded + refunds[i].amount <= pay.amount
                && forall j :: 0 <= j < |refunds| && j != i && Open(refunds[j]) ==>
                     pay.refunded + refunds[i].amount + refunds[j].amount <= pay.amount)
            && (i < |pay.refunds| && Open(pay.refunds[i]) ==> Room(Settled(pay, refunds, i, refundId, withdrawn, note)))
  {
    var (refunds, i) := RefundTarget(pay, refundId, amount, now, key).value;
    var pay' := Settled(pay, refunds, i, refundId, withdrawn, note);
    forall j | 0 <= j < |refunds| && j != i ensures pay'.refunds[j] == refunds[j] && pay'.refunds[j] in pay'.refunds {
    }
    if i < |pay.refunds| && Open(pay.refunds[i]) {
      assert pay.refunds[i] in pay.refunds;
      assert forall j :: 0 <= j < |refunds| && j != i ==> !Open(refunds[j]);
    }
    if forall j :: 0 <= j < |refunds| && j != i && Open(refunds[j]) ==> pay'.refunded + refunds[j].amount <= pay.amount {
      forall r | r in pay'.refunds && Open(r) ensures pay'.refunded + r.amount <= pay.amount {
        var j :| 0 <= j < |pay'.refunds| && pay'.refunds[j] == r;
      }
    }
  }

  ghost predicate AllRoom(w: Shop) { forall id <- w.payments :: Room(w.payments[id]) }

  /** A refund that is applied now fits: with what was refunded before, and with any other that is
      under way, it is at most what was paid. */
  ghost predicate Fits(w: Shop, step: Step) {
    step.Refunded? && Applies(w, step.id, step.refundId, step.reported, step.now, step.key) ==>
      var pay := w.payments[step.id];
      var (refunds, i) := RefundTarget(pay, step.refundId, step.reported, step.now, step.key).value;
      && i < |refunds|
      && pay.refunded + refunds[i].amount <= pay.amount
      && forall j :: 0 <= j < |refunds| && j != i && Open(refunds[j]) ==> pay.refunded + refunds[i].amount + refunds[j].amount <= pay.amount
  }

  /** One payment changes, and the new one has room. */
  lemma OneRoom(w: Shop, w': Shop, id: string)
    requires AllRoom(w) && (id in w'.payments ==> Room(w'.payments[id]))
    requires forall k <- w'.payments :: k != id ==> k in w.payments && w'.payments[k] == w.payments[k]
    ensures AllRoom(w')
  {
  }

  lemma SetPaymentKeepsRoom(payments: map<string, Payment>, id: string, status: PaymentStatus, paymentId: Option<string>)
    requires forall k <- payments :: Room(payments[k])
    ensures forall k <- SetPayment(payments, id, status, paymentId) :: Room(SetPayment(payments, id, status, paymentId)[k])
  {
  }

  lemma TargetInRange(pay: Payment, refundId: string, amount: Option<int>, now: int, key: string)
    ensures var target := RefundTarget(pay, refundId, amount, now, key); target.Some? ==> target.value.1 < |target.value.0|
  {
  }

  /** What a processed refund does to the payments. */
  lemma RefundedPayments(w: Shop, id: string, refundId: string, amount: Option<int>, now: int, key: string, fy: int -> int)
    ensures var w' := MarkRefunded(w, id, refundId, amount, now, key, fy).0;
            if Applies(w, id, refundId, amount, now, key) then
              var (refunds, i) := RefundTarget(w.payments[id], refundId, amount, now, key).value;
              i < |refunds| && exists withdrawn, note ::
                w'.payments == w.payments[id := Settled(w.payments[id], refunds, i, refundId, withdrawn, note)]
            else w'.payments == w.payments
  {
    TargetInRange(if id in w.payments then w.payments[id] else Payment(None, 0, PayCREATED, [], 0, false), refundId, amount, now, key);
    hide RefundTarget, Settled, WithdrawCredits, ReleaseCoupon, Taken;
  }

  lemma SettledRoom(w: Shop, payments: map<string, Payment>, id: string, pay': Payment)
    requires AllRoom(w) && payments == w.payments[id := pay']
    ensures (forall k <- payments :: Room(payments[k])) <==> Room(pay')
  {
    assert id in payments && payments[id] == pay';
  }

  lemma RefundedStepRoomIff(
    w: Shop, owner: string -> C.Id, id: string, refundId: string, reported: Option<int>, now: int, key: string, fy: int -> int)
    requires ShopOk(w, owner) && AllRoom(w)
    ensures AllRoom(MarkRefunded(w, id, refundId, reported, now, key, fy).0) <==> Fits(w, Refunded(id, refundId, reported, now, key))
  {
    hide ShopOk, MarkRefunded, Settled, RefundTarget, PaymentOk, Room, NotesOk;
    var payments := MarkRefunded(w, id, refundId, reported, now, key, fy).0.payments;
    RefundedPayments(w, id, refundId, reported, now, key, fy);
    if Applies(w, id, refundId, reported, now, key) {
      PaymentOf(w, owner, id);
      var pay := w.payments[id];
      TargetInRange(pay, refundId, reported, now, key);
      var (refunds, i) := RefundTarget(pay, refundId, reported, now, key).value;
      var withdrawn, note :| payments == w.payments[id := Settled(pay, refunds, i, refundId, withdrawn, note)];
      RefundKeepsRoomIff(pay, refundId, reported, now, key, withdrawn, note);
      SettledRoom(w, payments, id, Settled(pay, refunds, i, refundId, withdrawn, note));
    }
  }

  lemma ReleaseKeepsRoom(pay: Payment, key: string)
    requires Room(pay) && Release(pay, key).Some?
    ensures Room(Release(pay, key).value)
  {
    ChangeKeepsRoom(pay, Release(pay, key).value, FindRequested(pay.refunds, key).value);
  }

  lemma AnswerKeepsRoom(pay: Payment, key: string, refundId: string)
    requires Room(pay)
    ensures Room(MarkPending(pay, key, refundId).0)
  {
    var i, j := FindRequested(pay.refunds, key), FindKey(pay.refunds, key);
    if pay.status.REFUND_REQUESTED? && i.Some? {
      ChangeKeepsRoom(pay, MarkPending(pay, key, refundId).0, i.value);
    } else if j.Some? {
      ChangeKeepsRoom(pay, MarkPending(pay, key, refundId).0, j.value);
    }
  }

  lemma FailureKeepsRoom(pay: Payment, refundId: string)
    requires Room(pay) && MarkRefundFailed(pay, refundId).Some?
    ensures Room(MarkRefundFailed(pay, refundId).value)
  {
    var i := FindId(pay.refunds, refundId);
    var j := if i.Some? then i else FindLost(pay.refunds, None);
    if j.Some? { ChangeKeepsRoom(pay, MarkRefundFailed(pay, refundId).value, j.value); }
  }

  lemma PaymentStepKeepsRoom(w: Shop, step: Step, fy: int -> int)
    requires AllRoom(w) && (step.Claimed? || step.Released? || step.Accepted? || step.RefundFailed?)
    ensures AllRoom(Next(w, step, fy))
  {
    hide Room, Claim, Release, MarkPending, MarkRefundFailed;
    if step.id in w.payments {
      var pay := w.payments[step.id];
      match step
      case Claimed(_, key, amount, toWithdraw, now) =>
        if Claim(pay, key, amount, toWithdraw, now).Some? { ClaimKeepsRoom(pay, key, amount, toWithdraw, now); }
      case Released(_, key) => if Release(pay, key).Some? { ReleaseKeepsRoom(pay, key); }
      case Accepted(_, key, refundId) => AnswerKeepsRoom(pay, key, refundId);
      case RefundFailed(_, refundId) => if MarkRefundFailed(pay, refundId).Some? { FailureKeepsRoom(pay, refundId); }
    }
  }

  lemma NotedKeepsRoom(w: Shop, id: string, key: string, at: int, fy: int -> int)
    requires AllRoom(w)
    ensures AllRoom(IssueNote(w, id, key, at, fy).0)
  {
    var w' := IssueNote(w, id, key, at, fy).0;
    if w' != w {
      var pay, pay' := w.payments[id], w'.payments[id];
      forall r | r in pay'.refunds && Open(r) ensures pay'.refunded + r.amount <= pay'.amount {
        var j :| 0 <= j < |pay'.refunds| && pay'.refunds[j] == r;
        assert pay.refunds[j] in pay.refunds;
      }
      OneRoom(w, w', id);
    }
  }

  lemma PaidKeepsRoom(w: Shop, id: string, paymentId: Option<string>, now: int, lot: C.Id, fy: int -> int)
    requires AllRoom(w)
    ensures AllRoom(MarkPaid(w, id, paymentId, now, lot, fy).0)
  {
    hide RedeemCoupon, SetPayment, Room;
    SetPaymentKeepsRoom(w.payments, id, CAPTURED, paymentId);
  }

  lemma OtherKeepsRoom(w: Shop, owner: string -> C.Id, step: Step, fy: int -> int)
    requires ShopOk(w, owner) && AllRoom(w) && Allowed(w, owner, step)
    requires step.NewCoupon? || step.CountUses? || step.Ordered? || step.AttemptFailed? || step.Expired? || step.Invoiced? || step.Moved?
    ensures AllRoom(Next(w, step, fy))
  {
    hide ShopOk, SetPayment, ReleaseCoupon, ReserveCoupon, EnsureCounter;
    if step.AttemptFailed? { SetPaymentKeepsRoom(w.payments, step.id, PayFAILED, step.paymentId); }
  }

  lemma StepKeepsRoomIff(w: Shop, owner: string -> C.Id, step: Step, fy: int -> int)
    requires ShopOk(w, owner) && AllRoom(w) && Allowed(w, owner, step)
    ensures AllRoom(Next(w, step, fy)) <==> Fits(w, step)
  {
    hide ShopOk, AllRoom;
    match step
    case Refunded(id, refundId, reported, now, key) => RefundedStepRoomIff(w, owner, id, refundId, reported, now, key, fy);
    case Claimed(_, _, _, _, _) => PaymentStepKeepsRoom(w, step, fy);
    case Released(_, _) => PaymentStepKeepsRoom(w, step, fy);
    case Accepted(_, _, _) => PaymentStepKeepsRoom(w, step, fy);
    case RefundFailed(_, _) => PaymentStepKeepsRoom(w, step, fy);
    case Noted(id, key, at) => NotedKeepsRoom(w, id, key, at, fy);
    case Paid(id, paymentId, now, lot) => PaidKeepsRoom(w, id, paymentId, now, lot, fy);
    case _ => OtherKeepsRoom(w, owner, step, fy);
  }

  /** Every refund applied along the run fits when it is applied. */
  ghost predicate FittingRun(w: Shop, steps: seq<Step>, fy: int -> int)
    decreases |steps|
  {
    steps == [] || (Fits(w, steps[0]) && FittingRun(Next(w, steps[0], fy), steps[1..], fy))
  }

  /** No state of the run refunds more than was paid, or has a refund under way that would. */
  ghost predicate AlwaysRoom(w: Shop, steps: seq<Step>, fy: int -> int)
    decreases |steps|
  {
    AllRoom(w) && (steps == [] || AlwaysRoom(Next(w, steps[0], fy), steps[1..], fy))
  }

  lemma {:induction false} RunKeepsRoomIff(w: Shop, owner: string -> C.Id, steps: seq<Step>, fy: int -> int)
    requires ShopOk(w, owner) && AllRoom(w) && AllowedRun(w, owner, steps, fy)
    ensures AlwaysRoom(w, steps, fy) <==> FittingRun(w, steps, fy)
    decreases |steps|
  {
    hide ShopOk, AllRoom, Fits;
    if steps != [] {
      StepKeepsOk(w, owner, steps[0], fy);
      StepKeepsRoomIff(w, owner, steps[0], fy);
      if Fits(w, steps[0]) { RunKeepsRoomIff(Next(w, steps[0], fy), owner, steps[1..], fy); }
    }
  }

  /** A run never refunds more than was paid, and never lets a claim be made that could, if and only if
      every refund it applies fits when it is applied. */
  lemma NeverMoreThanPaidIff(owner: string -> C.Id, steps: seq<Step>, fy: int -> int)
    requires AllowedRun(EMPTY_SHOP, owner, steps, fy)
    ensures AlwaysRoom(EMPTY_SHOP, steps, fy) <==> FittingRun(EMPTY_SHOP, steps, fy)
  {
    EmptyShopOk(owner);
    RunKeepsRoomIff(EMPTY_SHOP, owner, steps, fy);
  }

  // ---- Single steps ------------------------------------------------------------------------------

  /** A refund reported without an amount that matches no entry is for all that is left. */
  lemma UnknownAmountIsTheRest(pay: Payment, refundId: string, now: int, key: string, withdrawn: int, note: Number)
    requires PaymentOk(PAID, pay) && FindId(pay.refunds, refundId).None? && FindLost(pay.refunds, None).None?
    ensures var target := RefundTarget(pay, refundId, None, now, key);
            && target.Some?
            && var pay' := Settled(pay, target.value.0, target.value.1, refundId, withdrawn, note);
               pay'.refunded == pay.amount && pay'.status.PayREFUNDED?
  {
  }

  /** A failed refund is noted and gives no money back: totals stay, what was open under that id or as
      a lost claim is open no longer, and the payment is captured again when nothing else is open. */
  lemma FailedRefundIsNoted(pay: Payment, refundId: string)
    requires PaymentOk(PAID, pay) && MarkRefundFailed(pay, refundId).Some?
    ensures var pay' := MarkRefundFailed(pay, refundId).value;
            && pay'.refundFailed && pay'.refunded == pay.refunded && |pay'.refunds| == |pay.refunds|
            && (SomeOpen(pay'.refunds) ==> SomeOpen(pay.refunds) && pay'.status == pay.status)
            && (!SomeOpen(pay'.refunds) ==> pay'.status.CAPTURED?)
            && forall r <- pay'.refunds :: Open(r) ==> r.id != Some(refundId)
  {
    var i := FindId(pay.refunds, refundId);
    var j := if i.Some? then i else FindLost(pay.refunds, None);
    if j.Some? {
      CloseEntry(pay.refunds, j.value, pay.refunds[j.value].(id := Some(refundId), status := Failed));
    }
    RefundFailedKeepsOk(PAID, pay, refundId);
  }

  /** A use released and taken again, or kept all along, is one use. */
  lemma OneUse(b: Book, coupon: Id, user: Id, id: string, release: bool)
    requires BookOk(b) && id in b.redemptions && b.redemptions[id] == Redemption(coupon, user, RESERVED)
    ensures var b1 := if release then ReleaseCoupon(b, id, RESERVED) else b;
            var b2 := RedeemCoupon(b1, Some(coupon), user, id);
            && id in b1.redemptions && coupon in b1.coupons && id in b2.redemptions && coupon in b2.coupons && coupon in b.coupons
            && b1.redemptions[id].status == (if release then RELEASED else RESERVED)
            && b1.coupons[coupon].used == b.coupons[coupon].used - (if release then 1 else 0)
            && b2.redemptions[id].status == REDEEMED
            && b2.coupons[coupon].used == b.coupons[coupon].used
  {
    CountedIsPositive(b, id);
  }

  /** A failed attempt keeps the order's coupon use for another try; only the order's own failure
      releases it. Either way a payment that arrives afterwards ends with exactly one use. */
  lemma FailedAttemptKeepsUse(
    w: Shop, owner: string -> C.Id, id: string, fromOrder: bool, paymentId: Option<string>, now: int, lot: C.Id, fy: int -> int)
    requires ShopOk(w, owner) && id in w.purchases && w.purchases[id].status.CREATED? && w.purchases[id].coupon.Some?
    ensures var coupon := w.purchases[id].coupon.value;
            var b, b1 := w.book, MarkFailed(w, id, fromOrder, paymentId).0.book;
            var b2 := MarkPaid(MarkFailed(w, id, fromOrder, paymentId).0, id, paymentId, now, lot, fy).0.book;
            && coupon in b.coupons && id in b1.redemptions && coupon in b1.coupons && id in b2.redemptions && coupon in b2.coupons
            && b1.redemptions[id].status == (if fromOrder then RELEASED else RESERVED)
            && b1.coupons[coupon].used == b.coupons[coupon].used - (if fromOrder then 1 else 0)
            && b2.redemptions[id].status == REDEEMED
            && b2.coupons[coupon].used == b.coupons[coupon].used
  {
    var p, w1 := w.purchases[id], MarkFailed(w, id, fromOrder, paymentId).0;
    assert PurchaseOk(w, id);
    OneUse(w.book, p.coupon.value, p.user, id, fromOrder);
    PaidBook(w1, id, paymentId, now, lot, fy);
  }

  lemma PaidBook(w: Shop, id: string, paymentId: Option<string>, now: int, lot: C.Id, fy: int -> int)
    requires Payable(w, id) && CreditsFit(w.purchases[id], w.credits.ledger, id)
    ensures MarkPaid(w, id, paymentId, now, lot, fy).0.book == RedeemCoupon(w.book, w.purchases[id].coupon, w.purchases[id].user, id)
  {
    MarkPaidIs(w, id, paymentId, now, lot, fy);
  }
}

/** When a step of the shop takes effect, in every reachable shop, and what it does then. */
module ShopOutcomes {
  import opened Wrappers
  import opened Purchases
  import opened RefundProtocol
  import opened CouponUses
  import opened DocumentNumbers
  import opened ShopInvariant
  import opened ShopRuns
  import opened ShopSystem
  import opened RefundBounds
  import opened ShopTheorems
  import C = CreditLedger
  import CI = CreditInvariant

  lemma PaymentIsOk(w: Shop, owner: string -> Id, fy: int -> int, id: string)
    requires Reachable(w, owner, fy) && id in w.payments
    ensures id in w.purchases && w.payments[id].amount == w.purchases[id].amount
    ensures PaymentOk(w.purchases[id].status, w.payments[id])
  {
    ReachableOk(w, owner, fy);
    PaymentOf(w, owner, id);
  }

  // ---- Refund claims ---------------------------------------------------------------------------

  lemma OpenIff(pay: Payment)
    requires PaymentOk(PAID, pay)
    ensures pay.status.CAPTURED? <==> forall r <- pay.refunds :: !Open(r)
  {
    if !pay.status.CAPTURED? { assert SomeOpen(pay.refunds); }
  }

  lemma ClaimIff(status: PurchaseStatus, pay: Payment, key: string, amount: int, toWithdraw: int, now: int)
    requires PaymentOk(status, pay)
    ensures Claim(pay, key, amount, toWithdraw, now).Some? <==>
            && status.PAID? && pay.paymentId.Some? && (forall r <- pay.refunds :: !Open(r))
            && amount <= pay.amount - ProcessedTotal(pay.refunds)
    ensures Claim(pay, key, amount, toWithdraw, now).Some? ==> Claim(pay, key, amount, toWithdraw, now).value != pay
  {
    if status.PAID? { OpenIff(pay); }
  }

  /** A claim is given exactly when the purchase is paid under a known payment id, no refund of it is open,
      and the amount is at most what was paid less the processed refunds; all of that included. */
  lemma ClaimGivenIff(w: Shop, owner: string -> Id, fy: int -> int, step: Step)
    requires Reachable(w, owner, fy) && step.Claimed?
    ensures var w' := Next(w, step, fy);
            && (w' != w <==>
                  && step.id in w.purchases && step.id in w.payments && w.purchases[step.id].status.PAID?
                  && w.payments[step.id].paymentId.Some?
                  && (forall r <- w.payments[step.id].refunds :: !Open(r))
                  && step.amount <= w.purchases[step.id].amount - ProcessedTotal(w.payments[step.id].refunds))
            && (w' != w ==>
                  && step.id in w.payments
                  && w' == w.(payments := w.payments[step.id := w.payments[step.id].(
                         status := REFUND_REQUESTED, refundFailed := false,
                         refunds := w.payments[step.id].refunds
                                    + [Refund(step.key, None, step.amount, Requested, step.toWithdraw, 0, step.now, None)])]))
  {
    hide Reachable;
    if step.id in w.payments {
      PaymentIsOk(w, owner, fy, step.id);
      ClaimIff(w.purchases[step.id].status, w.payments[step.id], step.key, step.amount, step.toWithdraw, step.now);
      hide PaymentOk;
      if Next(w, step, fy) == w { assert Next(w, step, fy).payments[step.id] == w.payments[step.id]; }
    }
  }

  lemma ReleaseIff(status: PurchaseStatus, pay: Payment, key: string)
    requires PaymentOk(status, pay)
    ensures Release(pay, key).Some? <==> status.PAID? && exists r <- pay.refunds :: r.key == key && r.status.Requested?
    ensures Release(pay, key).Some? ==>
              exists i :: 0 <= i < |pay.refunds| && pay.refunds[i].key == key && pay.refunds[i].status.Requested?
                && Release(pay, key).value ==
                   pay.(status := CAPTURED, refunds := pay.refunds[i := pay.refunds[i].(status := Failed)])
  {
    if status.PAID? && exists r <- pay.refunds :: r.key == key && r.status.Requested? {
      var r :| r in pay.refunds && r.key == key && r.status.Requested?;
      assert Has(pay.refunds, Requested);
    }
  }

  /** A claim is given back exactly when it is still requested and the purchase paid: then its entry has
      failed, and the payment is captured again. */
  lemma ReleaseGivenIff(w: Shop, owner: string -> Id, fy: int -> int, step: Step)
    requires Reachable(w, owner, fy) && step.Released?
    ensures var w' := Next(w, step, fy);
            && (w' != w <==>
                  && step.id in w.purchases && step.id in w.payments && w.purchases[step.id].status.PAID?
                  && exists r <- w.payments[step.id].refunds :: r.key == step.key && r.status.Requested?)
            && (w' != w ==>
                  && step.id in w.payments
                  && var pay := w.payments[step.id];
                     exists i :: 0 <= i < |pay.refunds| && pay.refunds[i].key == step.key && pay.refunds[i].status.Requested?
                       && w' == w.(payments := w.payments[step.id :=
                            pay.(status := CAPTURED, refunds := pay.refunds[i := pay.refunds[i].(status := Failed)])]))
  {
    hide Reachable;
    if step.id in w.payments {
      PaymentIsOk(w, owner, fy, step.id);
      ReleaseIff(w.purchases[step.id].status, w.payments[step.id], step.key);
      hide PaymentOk;
      var pay, pay' := w.payments[step.id], Release(w.payments[step.id], step.key);
      if pay'.Some? {
        var i :| 0 <= i < |pay.refunds| && pay.refunds[i].key == step.key && pay.refunds[i].status.Requested?
          && pay'.value == pay.(status := CAPTURED, refunds := pay.refunds[i := pay.refunds[i].(status := Failed)]);
        assert pay'.value.refunds[i] != pay.refunds[i];
        assert Next(w, step, fy).payments[step.id] != pay;
      }
    }
  }

  // ---- The gateway's answers -------------------------------------------------------------------

  /** A claim whose answer was lost, of this amount if one is given. */
  predicate Lost(r: Refund, amount: Option<int>) {
    r.id.None? && r.status.Requested? && (amount.Some? ==> r.amount == amount.value)
  }

  /** The first entry with this id. */
  predicate FirstWith(refunds: seq<Refund>, i: nat, refundId: string) {
    && i < |refunds| && refunds[i].id == Some(refundId)
    && forall j :: 0 <= j < i ==> refunds[j].id != Some(refundId)
  }

  predicate Known(refunds: seq<Refund>, refundId: string) { exists r <- refunds :: r.id == Some(refundId) }

  lemma {:induction false} FindIdIsFirst(refunds: seq<Refund>, refundId: string)
    ensures FindId(refunds, refundId).Some? <==> Known(refunds, refundId)
    ensures FindId(refunds, refundId).Some? ==> FirstWith(refunds, FindId(refunds, refundId).value, refundId)
  {
    if refunds != [] && refunds[0].id != Some(refundId) {
      FindIdIsFirst(refunds[1..], refundId);
      assert forall j :: 0 < j < |refunds| ==> refunds[j] == refunds[1..][j - 1];
    }
  }

  lemma {:induction false} FindLostIff(refunds: seq<Refund>, amount: Option<int>)
    ensures FindLost(refunds, amount).Some? <==> exists r <- refunds :: Lost(r, amount)
    ensures FindLost(refunds, amount).Some? ==> Lost(refunds[FindLost(refunds, amount).value], amount)
  {
    if refunds != [] && !Lost(refunds[0], amount) {
      FindLostIff(refunds[1..], amount);
      assert forall j :: 0 < j < |refunds| ==> refunds[j] == refunds[1..][j - 1];
    }
  }

  /** What a processed refund adds to the total, if it counts: the amount of the entry with its id, else of
      the lost claim it answers, else what was reported, or all that is left. */
  ghost predicate Adds(pay: Payment, refundId: string, amount: Option<int>, n: int) {
    if Known(pay.refunds, refundId) then
      exists i: nat :: FirstWith(pay.refunds, i, refundId) && n == pay.refunds[i].amount
    else if exists r <- pay.refunds :: Lost(r, amount) then
      exists r <- pay.refunds :: Lost(r, amount) && n == r.amount
    else n == amount.GetOr(pay.amount - ProcessedTotal(pay.refunds))
  }

  /** It counts unless the entry with its id was processed already, or it is for nothing and nothing is known of it. */
  ghost predicate CountsNow(pay: Payment, refundId: string, amount: Option<int>) {
    if Known(pay.refunds, refundId) then
      exists i: nat :: FirstWith(pay.refunds, i, refundId) && !pay.refunds[i].status.Processed?
    else (exists r <- pay.refunds :: Lost(r, amount)) || amount.None? || amount.value > 0
  }

  lemma FirstIsOne(refunds: seq<Refund>, i: nat, j: nat, refundId: string)
    requires FirstWith(refunds, i, refundId) && FirstWith(refunds, j, refundId)
    ensures i == j
  {
  }

  lemma TargetIff(pay: Payment, refundId: string, amount: Option<int>, now: int, key: string)
    requires PaymentOk(PAID, pay)
    ensures RefundTarget(pay, refundId, amount, now, key).Some? <==> CountsNow(pay, refundId, amount)
    ensures RefundTarget(pay, refundId, amount, now, key).Some? ==>
              var (refunds, i) := RefundTarget(pay, refundId, amount, now, key).value;
              i < |refunds| && Adds(pay, refundId, amount, refunds[i].amount)
  {
    FindIdIsFirst(pay.refunds, refundId);
    FindLostIff(pay.refunds, amount);
    var i := FindId(pay.refunds, refundId);
    if i.Some? {
      forall j: nat | FirstWith(pay.refunds, j, refundId) ensures j == i.value { FirstIsOne(pay.refunds, i.value, j, refundId); }
    }
  }

  /** What a processed refund does to the purchase and the total of its payment. */
  lemma RefundDoes(w: Shop, id: string, refundId: string, amount: Option<int>, now: int, key: string, fy: int -> int)
    ensures var (w', result) := MarkRefunded(w, id, refundId, amount, now, key, fy);
            && (result.refunded <==> Applies(w, id, refundId, amount, now, key))
            && (!result.refunded ==> w' == w)
            && (result.refunded ==>
                  var (refunds, i) := RefundTarget(w.payments[id], refundId, amount, now, key).value;
                  && i < |refunds| && id in w'.payments && id in w'.purchases
                  && w'.payments[id].refunded == w.payments[id].refunded + refunds[i].amount
                  && w'.purchases[id] == w.purchases[id].(status := if result.fully then REFUNDED else PAID)
                  && (result.fully <==> w'.payments[id].refunded >= w.payments[id].amount))
  {
    if Applies(w, id, refundId, amount, now, key) { TargetInRange(w.payments[id], refundId, amount, now, key); }
    hide RefundTarget, ReleaseCoupon, WithdrawCredits, SomeOpen, Taken;
  }

  /** A processed refund counts exactly when the purchase is paid and `CountsNow` holds, and then adds what
      `Adds` says; the purchase becomes refunded exactly when the total then reaches what was paid. */
  lemma RefundCountsIff(w: Shop, owner: string -> Id, fy: int -> int, step: Step)
    requires Reachable(w, owner, fy) && Allowed(w, owner, step) && step.Refunded?
    ensures var (w', result) := MarkRefunded(w, step.id, step.refundId, step.reported, step.now, step.key, fy);
            && w' == Next(w, step, fy)
            && (result.refunded <==>
                  && step.id in w.purchases && step.id in w.payments && w.purchases[step.id].status.PAID?
                  && CountsNow(w.payments[step.id], step.refundId, step.reported))
            && (!result.refunded ==> w' == w)
            && (result.refunded ==>
                  && step.id in w'.payments && step.id in w'.purchases
                  && Adds(w.payments[step.id], step.refundId, step.reported, w'.payments[step.id].refunded - w.payments[step.id].refunded)
                  && w'.purchases[step.id] == w.purchases[step.id].(status := if result.fully then REFUNDED else PAID)
                  && (result.fully <==> w'.payments[step.id].refunded >= w.purchases[step.id].amount))
  {
    hide Reachable, Allowed, MarkRefunded, RefundTarget, PaymentOk, Adds, CountsNow;
    RefundDoes(w, step.id, step.refundId, step.reported, step.now, step.key, fy);
    if step.id in w.payments {
      PaymentIsOk(w, owner, fy, step.id);
      if w.purchases[step.id].status.PAID? {
        TargetIff(w.payments[step.id], step.refundId, step.reported, step.now, step.key);
      }
    }
  }

  /** The entry with this key takes the gateway's id, and is pending from now on if it was still requested. */
  predicate Answered(a: Refund, b: Refund, key: string, refundId: string, paid: bool) {
    b == if a.key != key then a
         else a.(id := Some(refundId), status := if paid && a.status.Requested? then Pending else a.status)
  }

  lemma KeyAt(refunds: seq<Refund>, i: nat, key: string)
    requires KeysDistinct(refunds) && i < |refunds| && refunds[i].key == key
    ensures FindKey(refunds, key) == Some(i)
    ensures refunds[i].status.Requested? ==> FindRequested(refunds, key) == Some(i)
  {
    KeyFound(refunds, key);
  }

  lemma {:induction false} KeyFound(refunds: seq<Refund>, key: string)
    ensures FindKey(refunds, key).None? <==> forall r <- refunds :: r.key != key
  {
    if refunds != [] { KeyFound(refunds[1..], key); }
  }

  lemma AnswerAt(status: PurchaseStatus, pay: Payment, i: nat, refundId: string)
    requires PaymentOk(status, pay) && i < |pay.refunds|
    ensures var r := pay.refunds[i];
            var taken := status.PAID? && r.status.Requested?;
            MarkPending(pay, r.key, refundId).0 ==
            pay.(refunds := pay.refunds[i := r.(id := Some(refundId), status := if taken then Pending else r.status)],
                 status := if taken then REFUND_PENDING else pay.status)
  {
    var r := pay.refunds[i];
    KeyAt(pay.refunds, i, r.key);
    if status.PAID? && r.status.Requested? { assert Has(pay.refunds, Requested); }
  }

  lemma AnswerIs(status: PurchaseStatus, pay: Payment, key: string, refundId: string)
    requires PaymentOk(status, pay)
    ensures var pay' := MarkPending(pay, key, refundId).0;
            && |pay'.refunds| == |pay.refunds|
            && (forall i :: 0 <= i < |pay.refunds| ==> Answered(pay.refunds[i], pay'.refunds[i], key, refundId, status.PAID?))
            && pay' == pay.(refunds := pay'.refunds, status := pay'.status)
            && pay'.status == (if status.PAID? && exists r <- pay.refunds :: r.key == key && r.status.Requested? then REFUND_PENDING else pay.status)
  {
    hide PaymentOk, MarkPending;
    if i :| 0 <= i < |pay.refunds| && pay.refunds[i].key == key {
      AnswerAt(status, pay, i, refundId);
      OthersDiffer(status, pay, i);
      assert pay.refunds[i] in pay.refunds;
    } else {
      UnknownKey(pay, key, refundId);
    }
  }

  lemma UnknownKey(pay: Payment, key: string, refundId: string)
    requires forall i :: 0 <= i < |pay.refunds| ==> pay.refunds[i].key != key
    ensures MarkPending(pay, key, refundId).0 == pay
  {
    KeyFound(pay.refunds, key);
  }

  lemma OthersDiffer(status: PurchaseStatus, pay: Payment, i: nat)
    requires PaymentOk(status, pay) && i < |pay.refunds|
    ensures forall j :: 0 <= j < |pay.refunds| && j != i ==> pay.refunds[j].key != pay.refunds[i].key
    ensures forall r <- pay.refunds :: r.key == pay.refunds[i].key ==> r == pay.refunds[i]
  {
  }

  /** An answer of the gateway names its entry, and none other; a claim still requested of a paid purchase
      is pending from then on, and so is the payment. */
  lemma AnswerIsNoted(w: Shop, owner: string -> Id, fy: int -> int, step: Step)
    requires Reachable(w, owner, fy) && step.Accepted? && step.id in w.payments
    ensures var w' := Next(w, step, fy);
            && step.id in w.purchases && step.id in w'.payments
            && var pay, pay' := w.payments[step.id], w'.payments[step.id];
               var paid := w.purchases[step.id].status.PAID?;
               && w' == w.(payments := w.payments[step.id := pay.(refunds := pay'.refunds, status := pay'.status)])
               && |pay'.refunds| == |pay.refunds|
               && (forall i :: 0 <= i < |pay.refunds| ==> Answered(pay.refunds[i], pay'.refunds[i], step.key, step.refundId, paid))
               && pay'.status == if paid && exists r <- pay.refunds :: r.key == step.key && r.status.Requested? then REFUND_PENDING else pay.status
  {
    hide Reachable, PaymentOk, MarkPending, Answered;
    PaymentIsOk(w, owner, fy, step.id);
    AnswerIs(w.purchases[step.id].status, w.payments[step.id], step.key, step.refundId);
  }

  /** A failure is noted unless the first entry with the refund's id is closed: on that entry, else on the
      claim whose answer was lost, else as a flag alone. */
  lemma FailureNotedIff(pay: Payment, refundId: string)
    ensures MarkRefundFailed(pay, refundId).None? <==>
            exists i: nat :: FirstWith(pay.refunds, i, refundId) && !Open(pay.refunds[i])
    ensures MarkRefundFailed(pay, refundId).Some? ==>
              var pay' := MarkRefundFailed(pay, refundId).value;
              && pay'.refundFailed
              && if Known(pay.refunds, refundId) || exists r <- pay.refunds :: Lost(r, None) then
                   exists i: nat :: i < |pay.refunds| && Open(pay.refunds[i])
                     && (if Known(pay.refunds, refundId) then FirstWith(pay.refunds, i, refundId) else Lost(pay.refunds[i], None))
                     && pay'.refunds == pay.refunds[i := pay.refunds[i].(id := Some(refundId), status := Failed)]
                 else pay'.refunds == pay.refunds
  {
    FindIdIsFirst(pay.refunds, refundId);
    FindLostIff(pay.refunds, None);
    var i := FindId(pay.refunds, refundId);
    if i.Some? {
      forall j: nat | FirstWith(pay.refunds, j, refundId) ensures j == i.value { FirstIsOne(pay.refunds, i.value, j, refundId); }
    }
  }

  // ---- Orders and statuses ---------------------------------------------------------------------

  /** There is a use left of the coupon, for anyone and for this user. */
  ghost predicate UseLeft(w: Shop, coupon: Id, user: Id) {
    && coupon in w.book.coupons && (coupon, user) in w.book.held
    && var c := w.book.coupons[coupon];
       && (c.maxUses.Some? ==> |UsesOf(w.book.redemptions, coupon)| < c.maxUses.value)
       && |UsesBy(w.book.redemptions, coupon, user)| < c.perUserLimit
  }

  /** An order is taken exactly when it needs no coupon or its coupon has a use left, counted in the
      redemptions; then the purchase, its reserved use and its payment are there. */
  lemma OrderTakenIff(w: Shop, owner: string -> Id, fy: int -> int, step: Step)
    requires Reachable(w, owner, fy) && Allowed(w, owner, step) && step.Ordered?
    ensures var w', p := Next(w, step, fy), step.purchase;
            && (step.id in w'.purchases <==> p.coupon.None? || UseLeft(w, p.coupon.value, p.user))
            && (step.id !in w'.purchases ==> w' == w)
            && (step.id in w'.purchases ==>
                  && w'.purchases[step.id] == p
                  && (step.id in w'.payments <==> p.amount > 0)
                  && (step.id in w'.payments ==> w'.payments[step.id] == Payment(None, p.amount, PayCREATED, [], 0, false))
                  && (p.coupon.Some? ==>
                        step.id in w'.book.redemptions && w'.book.redemptions[step.id] == Redemption(p.coupon.value, p.user, RESERVED)))
  {
    ReachableOk(w, owner, fy);
    BookCounts(w, owner);
    hide Reachable, UsesOf, UsesBy;
  }

  lemma BookCounts(w: Shop, owner: string -> Id)
    requires ShopOk(w, owner)
    ensures forall c <- w.book.coupons :: w.book.coupons[c].used == |UsesOf(w.book.redemptions, c)|
    ensures forall c, u :: (c, u) in w.book.held ==> w.book.held[(c, u)] == |UsesBy(w.book.redemptions, c, u)|
  {
  }

  /** The refund completes the purchase: it counts, and with it all that was paid is refunded. */
  ghost predicate Completes(w: Shop, step: Step) {
    && step.Refunded? && step.id in w.purchases && step.id in w.payments && w.purchases[step.id].status.PAID?
    && CountsNow(w.payments[step.id], step.refundId, step.reported)
    && exists n :: Adds(w.payments[step.id], step.refundId, step.reported, n)
         && ProcessedTotal(w.payments[step.id].refunds) + n >= w.purchases[step.id].amount
  }

  /** How a purchase moves on: an unpaid one is paid whatever became of it, one without an outcome fails,
      one that is not paid expires, and a paid one ends when all was refunded. */
  ghost function StatusAfter(w: Shop, step: Step, s: PurchaseStatus): PurchaseStatus {
    match step
    case Paid(_, _, _, _) => if s.CREATED? || s.FAILED? || s.EXPIRED? then PAID else s
    case AttemptFailed(_, _, _) => if s.CREATED? then FAILED else s
    case Expired(_) => if s.CREATED? || s.FAILED? then EXPIRED else s
    case Refunded(_, _, _, _, _) => if Completes(w, step) then REFUNDED else s
    case _ => s
  }

  predicate Concerns(step: Step, id: string) { !step.NewCoupon? && !step.CountUses? && !step.Moved? && step.id == id }

  /** In a reachable shop the statuses of purchases change exactly so. */
  lemma StatusMovesIff(w: Shop, owner: string -> Id, fy: int -> int, step: Step, id: string)
    requires Reachable(w, owner, fy) && Allowed(w, owner, step) && id in w.purchases
    ensures id in Next(w, step, fy).purchases
    ensures Next(w, step, fy).purchases[id].status ==
            if Concerns(step, id) then StatusAfter(w, step, w.purchases[id].status) else w.purchases[id].status
  {
    hide Reachable, Completes;
    match step
    case Paid(_, _, _, _) => PaidMoves(w, owner, fy, step, id);
    case Refunded(_, _, _, _, _) => RefundMoves(w, owner, fy, step, id);
    case _ => OtherMoves(w, owner, fy, step, id);
  }

  lemma PaidMoves(w: Shop, owner: string -> Id, fy: int -> int, step: Step, id: string)
    requires Reachable(w, owner, fy) && step.Paid? && id in w.purchases
    ensures id in Next(w, step, fy).purchases
    ensures Next(w, step, fy).purchases[id].status == if step.id == id && !PaidUp(w.purchases[id].status) then PAID else w.purchases[id].status
  {
    ReachableOk(w, owner, fy);
    if Payable(w, step.id) {
      assert PurchaseOk(w, step.id);
      MarkPaidIs(w, step.id, step.paymentId, step.now, step.lot, fy);
      hide MarkPaid, ShopOk, PurchaseOk;
    }
  }

  lemma RefundMoves(w: Shop, owner: string -> Id, fy: int -> int, step: Step, id: string)
    requires Reachable(w, owner, fy) && Allowed(w, owner, step) && step.Refunded? && id in w.purchases
    ensures id in Next(w, step, fy).purchases
    ensures Next(w, step, fy).purchases[id].status == if step.id == id && Completes(w, step) then REFUNDED else w.purchases[id].status
  {
    hide Reachable, Allowed, CountsNow, Adds, PaymentOk;
    RefundCountsIff(w, owner, fy, step);
    RefundedOnlyPurchase(w, step.id, step.refundId, step.reported, step.now, step.key, fy, id);
    hide MarkRefunded;
    if id == step.id && id in w.payments {
      PaymentIsOk(w, owner, fy, id);
      if w.purchases[id].status.PAID? && CountsNow(w.payments[id], step.refundId, step.reported) {
        TotalIs(w.purchases[id].status, w.payments[id]);
        OneAmount(w.payments[id], step.refundId, step.reported);
      }
    }
  }

  lemma TotalIs(status: PurchaseStatus, pay: Payment)
    requires PaymentOk(status, pay)
    ensures pay.refunded == ProcessedTotal(pay.refunds)
  {
  }

  lemma RefundedOnlyPurchase(w: Shop, id: string, refundId: string, amount: Option<int>, now: int, key: string, fy: int -> int, k: string)
    requires k in w.purchases
    ensures var w' := MarkRefunded(w, id, refundId, amount, now, key, fy).0;
            k in w'.purchases && (k != id ==> w'.purchases[k] == w.purchases[k])
  {
  }

  lemma OneAmount(pay: Payment, refundId: string, amount: Option<int>)
    requires PaymentOk(PAID, pay)
    ensures forall n, m :: Adds(pay, refundId, amount, n) && Adds(pay, refundId, amount, m) ==> n == m
  {
    forall n, m | Adds(pay, refundId, amount, n) && Adds(pay, refundId, amount, m) ensures n == m {
      if Known(pay.refunds, refundId) {
        var i: nat :| FirstWith(pay.refunds, i, refundId) && n == pay.refunds[i].amount;
        var j: nat :| FirstWith(pay.refunds, j, refundId) && m == pay.refunds[j].amount;
        FirstIsOne(pay.refunds, i, j, refundId);
      } else if exists r <- pay.refunds :: Lost(r, amount) {
        var r :| r in pay.refunds && Lost(r, amount) && n == r.amount;
        var q :| q in pay.refunds && Lost(q, amount) && m == q.amount;
        assert Open(r) && Open(q);
      }
    }
  }

  lemma OtherMoves(w: Shop, owner: string -> Id, fy: int -> int, step: Step, id: string)
    requires Allowed(w, owner, step) && !step.Paid? && !step.Refunded? && id in w.purchases
    ensures id in Next(w, step, fy).purchases
    ensures Next(w, step, fy).purchases[id].status ==
            if Concerns(step, id) then StatusAfter(w, step, w.purchases[id].status) else w.purchases[id].status
  {
  }

  /** A payment that counts is kept with its id, and its purchase has an invoice numbered one past the last
      of the year of the payment. */
  lemma PaidIsInvoiced(w: Shop, owner: string -> Id, fy: int -> int, step: Step)
    requires Reachable(w, owner, fy) && step.Paid? && Payable(w, step.id)
    ensures var w' := Next(w, step, fy);
            var series := InvoicesOf(fy(step.now));
            && step.id in w'.purchases
            && w'.purchases[step.id].issuedAt == Some(step.now)
            && w'.purchases[step.id].invoice == Some(Number(series, CounterOf(w, series) + 1))
            && CounterOf(w', series) == CounterOf(w, series) + 1
            && (step.id in w.payments ==>
                  && step.id in w'.payments && w'.payments[step.id].status.CAPTURED?
                  && (step.paymentId.Some? ==> w'.payments[step.id].paymentId == step.paymentId))
  {
    hide Reachable, MarkPaid, CreditsFit, RedeemCoupon, C.Apply;
    PurchaseFits(w, owner, fy, step.id);
    MarkPaidIs(w, step.id, step.paymentId, step.now, step.lot, fy);
  }

  lemma PurchaseFits(w: Shop, owner: string -> Id, fy: int -> int, id: string)
    requires Reachable(w, owner, fy) && id in w.purchases
    ensures CreditsFit(w.purchases[id], w.credits.ledger, id)
  {
    ReachableOk(w, owner, fy);
    assert PurchaseOk(w, id);
  }

  /** A failed attempt is kept with its payment's id, and gives the order's coupon use back exactly when it
      was the order that failed. */
  lemma FailureReleasesIff(w: Shop, owner: string -> Id, fy: int -> int, step: Step)
    requires Reachable(w, owner, fy) && step.AttemptFailed? && step.id in w.purchases && w.purchases[step.id].status.CREATED?
    ensures var w' := Next(w, step, fy);
            && (step.id in w.payments ==>
                  && step.id in w'.payments && w'.payments[step.id].status.PayFAILED?
                  && (step.paymentId.Some? ==> w'.payments[step.id].paymentId == step.paymentId))
            && (w.purchases[step.id].coupon.Some? ==>
                  && step.id in w.book.redemptions && step.id in w'.book.redemptions
                  && w'.book.redemptions[step.id].status == if step.fromOrder then RELEASED else RESERVED)
  {
    ReachableOk(w, owner, fy);
    assert PurchaseOk(w, step.id);
  }

  /** A refund that counts is on record: its entry processed, under its id, with what it withdrew and a note
      numbered one past the last of its year. Without completing the purchase it withdraws what was
      chosen for it, as far as the lot goes, unless a refund of this id has withdrawn before. */
  ghost predicate Recorded(w: Shop, w': Shop, step: Step, withdrawn: int, fy: int -> int)
    requires step.Refunded? && step.id in w.payments && step.id in w.purchases
  {
    && step.id in w'.payments
    && exists i: nat :: i < |w'.payments[step.id].refunds|
         && var r := w'.payments[step.id].refunds[i];
            var series := NotesOf(fy(step.now));
            && r.id == Some(step.refundId) && r.status.Processed? && r.withdrawn == withdrawn
            && r.note == Some(Number(series, CounterOf(w, series) + 1))
            && (w'.payments[step.id].refunded < w.payments[step.id].amount ==>
                  withdrawn == ChosenOf(w, step, r.toWithdraw))
  }

  /** What a partial refund withdraws when this much was chosen. */
  ghost function ChosenOf(w: Shop, step: Step, chosen: int): int
    requires step.Refunded? && step.id in w.purchases
  {
    var p := w.purchases[step.id];
    var left := if p.lot.Some? then CI.RemainingIn(w.credits, p.user, p.lot.value) else 0;
    if chosen <= 0 || C.HasKey(w.credits.ledger, RefundKey(step.id, step.refundId)) then 0
    else if chosen < left then chosen else left
  }

  lemma RefundIsRecorded(w: Shop, owner: string -> Id, fy: int -> int, step: Step)
    requires Reachable(w, owner, fy) && Allowed(w, owner, step) && step.Refunded?
    requires Applies(w, step.id, step.refundId, step.reported, step.now, step.key)
    ensures var (w', result) := MarkRefunded(w, step.id, step.refundId, step.reported, step.now, step.key, fy);
            Recorded(w, w', step, result.withdrawn, fy)
  {
    hide Reachable, Allowed, MarkRefunded, RefundTarget, Recorded, ChosenOf;
    var (refunds, i) := RefundTarget(w.payments[step.id], step.refundId, step.reported, step.now, step.key).value;
    TargetInRange(w.payments[step.id], step.refundId, step.reported, step.now, step.key);
    LotLeft(w, owner, fy, step.id);
    WithdrawsChosen(w, step, w.purchases[step.id], refunds[i].toWithdraw);
    RefundRecords(w, step, fy);
  }

  lemma RefundRecords(w: Shop, step: Step, fy: int -> int)
    requires step.Refunded? && Applies(w, step.id, step.refundId, step.reported, step.now, step.key)
    requires RefundTarget(w.payments[step.id], step.refundId, step.reported, step.now, step.key).value.1
             < |RefundTarget(w.payments[step.id], step.refundId, step.reported, step.now, step.key).value.0|
    requires var (refunds, i) := RefundTarget(w.payments[step.id], step.refundId, step.reported, step.now, step.key).value;
             WithdrawCredits(w, step.id, w.purchases[step.id], false, refunds[i].toWithdraw, step.refundId).1
             == ChosenOf(w, step, refunds[i].toWithdraw)
    ensures var (w', result) := MarkRefunded(w, step.id, step.refundId, step.reported, step.now, step.key, fy);
            Recorded(w, w', step, result.withdrawn, fy)
  {
    hide RefundTarget, WithdrawCredits, ChosenOf, ReleaseCoupon, SomeOpen;
    var w' := MarkRefunded(w, step.id, step.refundId, step.reported, step.now, step.key, fy).0;
    var (refunds, i) := RefundTarget(w.payments[step.id], step.refundId, step.reported, step.now, step.key).value;
    assert w'.payments[step.id].refunds[i].id == Some(step.refundId);
  }

  lemma LotLeft(w: Shop, owner: string -> Id, fy: int -> int, id: string)
    requires Reachable(w, owner, fy) && id in w.purchases && w.purchases[id].status.PAID?
    ensures w.purchases[id].lot.Some?
    ensures CI.RemainingIn(w.credits, w.purchases[id].user, w.purchases[id].lot.value) >= 0
  {
    ReachableOk(w, owner, fy);
    assert PurchaseOk(w, id);
    assert CI.UserOk(w.credits, w.purchases[id].user);
  }

  lemma WithdrawsChosen(w: Shop, step: Step, p: Purchase, chosen: int)
    requires step.Refunded? && step.id in w.purchases && w.purchases[step.id] == p
    requires p.lot.Some? ==> CI.RemainingIn(w.credits, p.user, p.lot.value) >= 0
    ensures WithdrawCredits(w, step.id, p, false, chosen, step.refundId).1 == ChosenOf(w, step, chosen)
  {
  }

  // ---- Numbers given later -----------------------------------------------------------------------

  lemma {:induction false} ProcessedAt(refunds: seq<Refund>, i: nat)
    requires KeysDistinct(refunds) && i < |refunds| && refunds[i].status.Processed?
    ensures FindProcessed(refunds, refunds[i].key) == Some(i)
  {
    if i > 0 {
      assert refunds[1..][i - 1] == refunds[i];
      assert KeysDistinct(refunds[1..]);
      ProcessedAt(refunds[1..], i - 1);
    }
  }

  /** Records from before numbers were kept get theirs when asked for, one past the last of the series: a paid
      purchase in the year of its payment, a processed refund in the year of the asking. */
  lemma NumberedLater(w: Shop, id: string, i: nat, at: int, fy: int -> int)
    requires id in w.purchases && PaidUp(w.purchases[id].status) && w.purchases[id].invoice.None?
    requires id in w.payments && KeysDistinct(w.payments[id].refunds) && i < |w.payments[id].refunds|
    requires w.payments[id].refunds[i].status.Processed? && w.payments[id].refunds[i].note.None?
    ensures var series := InvoicesOf(fy(w.purchases[id].issuedAt.GetOr(at)));
            var n := Number(series, CounterOf(w, series) + 1);
            IssueInvoice(w, id, at, fy) ==
            (w.(counters := w.counters[series := n.no], purchases := w.purchases[id := w.purchases[id].(invoice := Some(n))]), Some(n))
    ensures var pay, series := w.payments[id], NotesOf(fy(at));
            var n := Number(series, CounterOf(w, series) + 1);
            IssueNote(w, id, pay.refunds[i].key, at, fy) ==
            (w.(counters := w.counters[series := n.no],
                payments := w.payments[id := pay.(refunds := pay.refunds[i := pay.refunds[i].(note := Some(n))])]), Some(n))
  {
    var pay, series := w.payments[id], NotesOf(fy(at));
    var n := Number(series, CounterOf(w, series) + 1);
    ProcessedAt(pay.refunds, i);
    assert IssueNote(w, id, pay.refunds[i].key, at, fy).0.payments[id].refunds == pay.refunds[i := pay.refunds[i].(note := Some(n))];
  }
}

/** What holds of purchases, coupons, refunds and documents after any run of steps. */
module ShopTheorems {
  import opened Wrappers
  import opened Purchases
  import opened RefundProtocol
  import opened CouponUses
  import opened DocumentNumbers
  import opened ShopInvariant
  import opened ShopRuns
  import opened ShopSystem
  import C = CreditLedger
  import CI = CreditInvariant
  import CR = CreditRuns
  import G = LotRefills

  ghost predicate Reachable(w: Shop, owner: string -> Id, fy: int -> int) {
    exists steps: seq<Step> :: AllowedRun(EMPTY_SHOP, owner, steps, fy) && w == RunShop(EMPTY_SHOP, steps, fy)
  }

  lemma ReachableOk(w: Shop, owner: string -> Id, fy: int -> int)
    requires Reachable(w, owner, fy)
    ensures ShopOk(w, owner)
  {
    var steps: seq<Step> :| AllowedRun(EMPTY_SHOP, owner, steps, fy) && w == RunShop(EMPTY_SHOP, steps, fy);
    EmptyShopOk(owner);
    RunKeepsOk(EMPTY_SHOP, owner, steps, fy);
  }

  // ---- Refunds ---------------------------------------------------------------------------------

  /** The refund record of every paid purchase agrees with its statuses. */
  lemma RefundsAgree(w: Shop, owner: string -> Id, fy: int -> int, id: string)
    requires Reachable(w, owner, fy) && id in w.payments && id in w.purchases && PaidUp(w.purchases[id].status)
    ensures var p, pay := w.purchases[id], w.payments[id];
            && pay.refunded == ProcessedTotal(pay.refunds)
            && (p.status.REFUNDED? <==> pay.status.PayREFUNDED?)
            && (p.status.REFUNDED? <==> pay.refunded >= p.amount)
            && (!p.status.REFUNDED? ==> (SomeOpen(pay.refunds) <==> pay.status.REFUND_REQUESTED? || pay.status.REFUND_PENDING?))
            && forall i, j :: 0 <= i < j < |pay.refunds| ==> !(Open(pay.refunds[i]) && Open(pay.refunds[j]))
  {
    ReachableOk(w, owner, fy);
    PaymentOf(w, owner, id);
    RefundStateAgrees(w.purchases[id].status, w.payments[id]);
  }

  // ---- Credits ---------------------------------------------------------------------------------

  const DAY := 86_400_000

  /** The entry credits the buyer with what was bought, on the purchase's lot, for the plan's days from
      the payment on. */
  predicate IssuedFor(e: C.Entry, p: Purchase) {
    && e.userId == p.user && e.amount == p.credits && p.lot == Some(e.lotId) && e.lotSource == Some(C.Purchased)
    && p.issuedAt.Some?
    && e.expiresAt == if p.validityDays == 0 then None else Some(p.issuedAt.value + p.validityDays * DAY)
  }

  lemma GrantIsIssued(p: Purchase, id: string)
    requires p.issuedAt.Some? && p.lot.Some?
    ensures IssuedFor(GrantEntry(p, id), p)
  {
  }

  /** A purchase's plan credits are in the ledger exactly when it was paid, once, and for what was bought. */
  lemma CreditsIssuedOnce(w: Shop, owner: string -> Id, fy: int -> int, id: string)
    requires Reachable(w, owner, fy) && id in w.purchases
    ensures var l, p := w.credits.ledger, w.purchases[id];
            && (C.HasKey(l, PurchaseKey(id)) <==> PaidUp(p.status))
            && (forall e <- l :: e.key == PurchaseKey(id) ==> IssuedFor(e, p))
            && (forall i, j :: 0 <= i < j < |l| ==> !(l[i].key == PurchaseKey(id) && l[j].key == PurchaseKey(id)))
  {
    hide C.HasKey, IssuedFor;
    ReachableOk(w, owner, fy);
    LedgerFits(w, owner, id);
    hide ShopOk, Reachable;
    IssuedEntries(w.credits.ledger, owner, w.purchases[id], id);
  }

  lemma LedgerFits(w: Shop, owner: string -> Id, id: string)
    requires ShopOk(w, owner) && id in w.purchases
    ensures CI.LedgerOk(w.credits.ledger, owner) && CreditsFit(w.purchases[id], w.credits.ledger, id)
  {
    assert PurchaseOk(w, id);
  }

  lemma IssuedEntries(l: seq<C.Entry>, owner: string -> Id, p: Purchase, id: string)
    requires CI.LedgerOk(l, owner) && CreditsFit(p, l, id)
    ensures C.HasKey(l, PurchaseKey(id)) <==> PaidUp(p.status)
    ensures forall e <- l :: e.key == PurchaseKey(id) ==> IssuedFor(e, p)
    ensures forall i, j :: 0 <= i < j < |l| ==> !(l[i].key == PurchaseKey(id) && l[j].key == PurchaseKey(id))
  {
    if PaidUp(p.status) {
      var g := GrantEntry(p, id);
      assert g in l && g.key == PurchaseKey(id);
      GrantIsIssued(p, id);
      forall e | e in l && e.key == PurchaseKey(id) ensures e == g { CI.SameKeySameEntry(l, e, g); }
    }
  }

  predicate PaidIn(w: Shop, id: string) { id in w.purchases && PaidUp(w.purchases[id].status) }

  predicate RefundedIn(w: Shop, id: string) { id in w.purchases && w.purchases[id].status.REFUNDED? }

  lemma PaidStepKeepsPaid(w: Shop, other: string, paymentId: Option<string>, now: int, lot: Id, fy: int -> int, id: string)
    requires PaidIn(w, id)
    ensures var w' := MarkPaid(w, other, paymentId, now, lot, fy).0; PaidIn(w', id) && (RefundedIn(w, id) ==> RefundedIn(w', id))
  {
    hide C.Apply, RedeemCoupon, SetPayment;
  }

  lemma RefundedStepKeepsPaid(w: Shop, step: Step, fy: int -> int, id: string)
    requires step.Refunded? && PaidIn(w, id)
    ensures PaidIn(Next(w, step, fy), id) && (RefundedIn(w, id) ==> RefundedIn(Next(w, step, fy), id))
  {
    TargetListedIn(w, step);
    hide RefundTarget, Settled, WithdrawCredits, ReleaseCoupon;
  }

  /** Whatever happens, a paid purchase stays paid or is refunded, and a refunded one stays refunded. */
  lemma PaidStaysPaid(w: Shop, owner: string -> Id, step: Step, fy: int -> int, id: string)
    requires Allowed(w, owner, step) && PaidIn(w, id)
    ensures PaidIn(Next(w, step, fy), id) && (RefundedIn(w, id) ==> RefundedIn(Next(w, step, fy), id))
  {
    hide C.Apply, ReleaseCoupon, ReserveCoupon, SetPayment, MarkPending, Claim, Release, MarkRefundFailed;
    match step
    case Paid(other, paymentId, now, lot) => PaidStepKeepsPaid(w, other, paymentId, now, lot, fy, id);
    case Refunded(_, _, _, _, _) => RefundedStepKeepsPaid(w, step, fy, id);
    case _ =>
  }

  /** A full refund leaves nothing in the purchase's lot and reports what it took, if and only if no
      earlier refund of the same id has withdrawn already or there was nothing left anyway. */
  lemma FullRefundEmptiesLotIff(w: Shop, owner: string -> Id, fy: int -> int, id: string, refundId: string, amount: Option<int>, now: int, key: string)
    requires Reachable(w, owner, fy) && Applies(w, id, refundId, amount, now, key)
    ensures var (w', r) := MarkRefunded(w, id, refundId, amount, now, key, fy);
            var p := w.purchases[id];
            var withdrawn := C.HasKey(w.credits.ledger, RefundKey(id, refundId));
            p.lot.Some? && (r.fully ==>
              && (CI.RemainingIn(w'.credits, p.user, p.lot.value) == 0 <==> !withdrawn || CI.RemainingIn(w.credits, p.user, p.lot.value) == 0)
              && r.withdrawn == if withdrawn then 0 else CI.RemainingIn(w.credits, p.user, p.lot.value))
  {
    ReachableOk(w, owner, fy);
    assert PurchaseOk(w, id);
    var p := w.purchases[id];
    RevokeAll(w.credits, owner, C.Revoke(p.user, p.lot.value, RefundKey(id, refundId), None));
  }

  lemma RevokeAll(st: C.Store, owner: string -> Id, op: C.Op)
    requires CI.Inv(st, owner) && op.Revoke? && op.max.None?
    ensures var known, left := C.HasKey(st.ledger, op.key), CI.RemainingIn(st, op.user, op.lotId);
            && CI.RemainingIn(C.Apply(st, op).0, op.user, op.lotId) == (if known then left else 0)
            && C.Apply(st, op).1 == C.Withdrawn(if known then 0 else left)
  {
    var lots := C.AccountOf(st, op.user).lots;
    assert CI.UserOk(st, op.user);
    CI.FindLotAdd(lots, op.lotId, -C.Revocable(C.AccountOf(st, op.user), op.lotId, None), op.lotId);
  }

  /** The credit operation a step carries out, if any. */
  function CreditStep(w: Shop, step: Step): Option<C.Op> {
    match step
    case Moved(op) => Some(op)
    case Paid(id, _, now, lot) => if Payable(w, id) then Some(PurchaseGrant(w.purchases[id], id, now, lot)) else None
    case Refunded(id, refundId, reported, now, key) =>
      if !Applies(w, id, refundId, reported, now, key) || w.purchases[id].lot.None? then None
      else
        var pay, p := w.payments[id], w.purchases[id];
        var (refunds, i) := RefundTarget(pay, refundId, reported, now, key).value;
        var fully := pay.refunded + refunds[i].amount >= pay.amount;
        if fully || refunds[i].toWithdraw > 0
        then Some(C.Revoke(p.user, p.lot.value, RefundKey(id, refundId), if fully then None else Some(refunds[i].toWithdraw)))
        else None
    case _ => None
  }

  lemma PaidCreditStep(w: Shop, owner: string -> Id, id: string, paymentId: Option<string>, now: int, lot: Id, fy: int -> int)
    requires Payable(w, id) && CreditsFit(w.purchases[id], w.credits.ledger, id) && CI.Fresh(w.credits.ledger, lot)
    ensures var op := PurchaseGrant(w.purchases[id], id, now, lot);
            MarkPaid(w, id, paymentId, now, lot, fy).0.credits == C.Apply(w.credits, op).0 && CR.Disciplined(w.credits, owner, op)
  {
    PurchaseKeysDiffer(id, id);
    MarkPaidIs(w, id, paymentId, now, lot, fy);
  }

  lemma RefundedCreditStep(w: Shop, owner: string -> Id, step: Step, fy: int -> int)
    requires step.Refunded?
    ensures var op := CreditStep(w, step);
            && Next(w, step, fy).credits == (if op.Some? then C.Apply(w.credits, op.value).0 else w.credits)
            && (op.Some? ==> CR.Disciplined(w.credits, owner, op.value))
  {
    hide Settled, C.Apply, ReleaseCoupon, RefundTarget;
    RefundKeysDiffer(step.id, step.refundId, step.id);
    TargetListedIn(w, step);
  }

  lemma TargetListedIn(w: Shop, step: Step)
    requires step.Refunded?
    ensures Applies(w, step.id, step.refundId, step.reported, step.now, step.key) ==>
              var (refunds, i) := RefundTarget(w.payments[step.id], step.refundId, step.reported, step.now, step.key).value; i < |refunds|
  {
  }

  lemma CreditStepIs(w: Shop, owner: string -> Id, step: Step, fy: int -> int)
    requires ShopOk(w, owner) && Allowed(w, owner, step)
    ensures var op := CreditStep(w, step);
            && Next(w, step, fy).credits == (if op.Some? then C.Apply(w.credits, op.value).0 else w.credits)
            && (op.Some? ==> CR.Disciplined(w.credits, owner, op.value))
  {
    hide ShopOk, MarkPaid, MarkRefunded, C.Apply;
    match step
    case Paid(id, paymentId, now, lot) =>
      NotPayableStays(w, id, paymentId, now, lot, fy);
      if Payable(w, id) {
        LedgerFits(w, owner, id);
        PaidCreditStep(w, owner, id, paymentId, now, lot, fy);
      }
    case Refunded(_, _, _, _, _) => RefundedCreditStep(w, owner, step, fy);
    case _ =>
  }

  lemma NotPayableStays(w: Shop, id: string, paymentId: Option<string>, now: int, lot: Id, fy: int -> int)
    ensures !Payable(w, id) ==> MarkPaid(w, id, paymentId, now, lot, fy).0 == w
  {
  }

  /** What an emptied lot gains, and any other lot of a paid purchase: a step raises its credits if and
      only if it gives back, to its own lot, the credit of an interview that was held and is refunded. */
  lemma PaidLotGainsIff(w: Shop, owner: string -> Id, fy: int -> int, step: Step, id: string)
    requires Reachable(w, owner, fy) && Allowed(w, owner, step) && id in w.purchases && PaidUp(w.purchases[id].status)
    ensures var p := w.purchases[id];
            && p.lot.Some?
            && (CI.RemainingIn(Next(w, step, fy).credits, p.user, p.lot.value) > CI.RemainingIn(w.credits, p.user, p.lot.value) <==>
                step.Moved? && G.GivesBack(w.credits, step.op, p.user, p.lot.value))
  {
    hide CI.Inv, CI.RemainingIn, C.Apply, Next, CI.Fresh;
    ReachableOk(w, owner, fy);
    LotInUse(w, owner, id);
    CreditStepIs(w, owner, step, fy);
    hide ShopOk, Reachable, Allowed, CreditStep;
    var p, op := w.purchases[id], CreditStep(w, step);
    if op.Some? { G.LotGainsIff(w.credits, owner, op.value, p.user, p.lot.value); }
    MovesOnly(w, step, p.user, p.lot.value);
  }

  lemma LotInUse(w: Shop, owner: string -> Id, id: string)
    requires ShopOk(w, owner) && id in w.purchases && PaidUp(w.purchases[id].status)
    ensures w.purchases[id].lot.Some? && CI.Inv(w.credits, owner) && !CI.Fresh(w.credits.ledger, w.purchases[id].lot.value)
  {
    assert PurchaseOk(w, id);
    var g := GrantEntry(w.purchases[id], id);
    assert g in w.credits.ledger && g.lotId == w.purchases[id].lot.value;
  }

  lemma MovesOnly(w: Shop, step: Step, user: Id, lot: Id)
    ensures var op := CreditStep(w, step);
            (op.Some? && G.GivesBack(w.credits, op.value, user, lot)) <==> (step.Moved? && G.GivesBack(w.credits, step.op, user, lot))
  {
  }

  // ---- Coupons ---------------------------------------------------------------------------------

  /** Each counter is the number of redemptions not released, and every redemption follows its purchase. */
  lemma CouponsAgree(w: Shop, owner: string -> Id, fy: int -> int, coupon: Id, user: Id, id: string)
    requires Reachable(w, owner, fy)
    ensures coupon in w.book.coupons ==> w.book.coupons[coupon].used == |UsesOf(w.book.redemptions, coupon)|
    ensures (coupon, user) in w.book.held ==> w.book.held[(coupon, user)] == |UsesBy(w.book.redemptions, coupon, user)|
    ensures (coupon, user) !in w.book.held ==> UsesBy(w.book.redemptions, coupon, user) == {}
    ensures id in w.book.redemptions ==> id in w.purchases && Follows(w.book.redemptions[id].status, w.purchases[id].status)
    ensures id in w.purchases && w.purchases[id].coupon.Some? ==>
              id in w.book.redemptions && w.book.redemptions[id].coupon == w.purchases[id].coupon.value
  {
    ReachableOk(w, owner, fy);
    if id in w.purchases { assert PurchaseOk(w, id); }
  }

  /** A payment that arrives after the order's coupon use was given back, by `user` if one is named. */
  predicate Late(w: Shop, step: Step, coupon: Id, user: Option<Id>) {
    && step.Paid? && Payable(w, step.id) && w.purchases[step.id].coupon == Some(coupon)
    && (user.Some? ==> w.purchases[step.id].user == user.value)
    && step.id in w.book.redemptions && w.book.redemptions[step.id].status.RELEASED?
  }

  function LateCount(w: Shop, steps: seq<Step>, coupon: Id, user: Option<Id>, fy: int -> int): nat
    decreases |steps|
  {
    if steps == [] then 0
    else (if Late(w, steps[0], coupon, user) then 1 else 0) + LateCount(Next(w, steps[0], fy), steps[1..], coupon, user, fy)
  }

  /** At most `extra` uses beyond the coupon's limit, and at most `own` beyond the user's. */
  predicate Within(b: Book, coupon: Id, user: Id, extra: nat, own: nat) {
    coupon in b.coupons ==>
      && (b.coupons[coupon].maxUses.Some? ==> b.coupons[coupon].used <= C.Max(b.coupons[coupon].maxUses.value, 0) + extra)
      && ((coupon, user) in b.held ==> b.held[(coupon, user)] <= C.Max(b.coupons[coupon].perUserLimit, 0) + own)
  }

  lemma ReleaseStaysWithin(b: Book, p: string, from: RedemptionStatus, coupon: Id, user: Id, extra: nat, own: nat)
    requires Within(b, coupon, user, extra, own)
    ensures Within(ReleaseCoupon(b, p, from), coupon, user, extra, own)
  {
  }

  lemma RedeemStaysWithin(b: Book, c: Option<Id>, u: Id, p: string, coupon: Id, user: Id, extra: nat, own: nat)
    requires Within(b, coupon, user, extra, own) && (c.Some? ==> p in b.redemptions)
    ensures var late := if c == Some(coupon) && b.redemptions[p].status.RELEASED? then 1 else 0;
            Within(RedeemCoupon(b, c, u, p), coupon, user, extra + late, own + if u == user then late else 0)
  {
  }

  lemma PaidStaysWithin(w: Shop, step: Step, fy: int -> int, coupon: Id, user: Id, extra: nat, own: nat)
    requires step.Paid? && Payable(w, step.id) && PurchaseOk(w, step.id) && Within(w.book, coupon, user, extra, own)
    ensures Within(
              Next(w, step, fy).book, coupon, user,
              extra + if Late(w, step, coupon, None) then 1 else 0, own + if Late(w, step, coupon, Some(user)) then 1 else 0)
  {
    var p := w.purchases[step.id];
    MarkPaidIs(w, step.id, step.paymentId, step.now, step.lot, fy);
    RedeemStaysWithin(w.book, p.coupon, p.user, step.id, coupon, user, extra, own);
  }

  lemma OrderStaysWithin(w: Shop, step: Step, fy: int -> int, coupon: Id, user: Id, extra: nat, own: nat)
    requires step.Ordered? && Within(w.book, coupon, user, extra, own)
    ensures Within(Next(w, step, fy).book, coupon, user, extra, own)
  {
  }

  lemma RefundStaysWithin(w: Shop, step: Step, fy: int -> int, coupon: Id, user: Id, extra: nat, own: nat)
    requires (step.Refunded? || step.AttemptFailed? || step.Expired?) && Within(w.book, coupon, user, extra, own)
    ensures Within(Next(w, step, fy).book, coupon, user, extra, own)
  {
    ReleaseStaysWithin(w.book, step.id, RESERVED, coupon, user, extra, own);
    ReleaseStaysWithin(w.book, step.id, REDEEMED, coupon, user, extra, own);
  }

  lemma BookStaysWithin(w: Shop, owner: string -> Id, step: Step, fy: int -> int, coupon: Id, user: Id, extra: nat, own: nat)
    requires BookOk(w.book) && Allowed(w, owner, step) && Within(w.book, coupon, user, extra, own)
    requires step.NewCoupon? || step.CountUses?
    ensures Within(Next(w, step, fy).book, coupon, user, extra, own)
  {
    if step.CountUses? {
      EnsureKeepsOk(w.book, step.coupon, step.user);
      if (step.coupon, step.user) !in w.book.held { NoUses(w.book, step.coupon, step.user); }
    } else if (coupon, user) in w.book.held && coupon == step.coupon {
      NoUsesOfNew(w.book, coupon, user);
    }
  }

  lemma NoUsesOfNew(b: Book, coupon: Id, user: Id)
    requires BookOk(b) && coupon !in b.coupons
    ensures UsesBy(b.redemptions, coupon, user) == {}
  {
  }

  lemma StepStaysWithin(w: Shop, owner: string -> Id, step: Step, fy: int -> int, coupon: Id, user: Id, extra: nat, own: nat)
    requires ShopOk(w, owner) && Allowed(w, owner, step) && Within(w.book, coupon, user, extra, own)
    ensures Within(
              Next(w, step, fy).book, coupon, user,
              extra + if Late(w, step, coupon, None) then 1 else 0, own + if Late(w, step, coupon, Some(user)) then 1 else 0)
  {
    if step.Paid? {
      if Payable(w, step.id) {
        assert PurchaseOk(w, step.id);
        PaidStaysWithin(w, step, fy, coupon, user, extra, own);
      }
    } else if step.Ordered? {
      OrderStaysWithin(w, step, fy, coupon, user, extra, own);
    } else if step.Refunded? || step.AttemptFailed? || step.Expired? {
      RefundStaysWithin(w, step, fy, coupon, user, extra, own);
    } else if step.NewCoupon? || step.CountUses? {
      BookStaysWithin(w, owner, step, fy, coupon, user, extra, own);
    } else {
      OtherBook(w, step, fy);
    }
  }

  lemma OtherBook(w: Shop, step: Step, fy: int -> int)
    requires !step.Paid? && !step.Ordered? && !step.Refunded? && !step.AttemptFailed? && !step.Expired? && !step.NewCoupon? && !step.CountUses?
    ensures Next(w, step, fy).book == w.book
  {
  }

  lemma {:induction false} RunStaysWithin(w: Shop, owner: string -> Id, steps: seq<Step>, fy: int -> int, coupon: Id, user: Id, extra: nat, own: nat)
    requires ShopOk(w, owner) && AllowedRun(w, owner, steps, fy) && Within(w.book, coupon, user, extra, own)
    ensures Within(
              RunShop(w, steps, fy).book, coupon, user,
              extra + LateCount(w, steps, coupon, None, fy), own + LateCount(w, steps, coupon, Some(user), fy))
    decreases |steps|
  {
    if steps != [] {
      StepStaysWithin(w, owner, steps[0], fy, coupon, user, extra, own);
      StepKeepsOk(w, owner, steps[0], fy);
      RunStaysWithin(
        Next(w, steps[0], fy), owner, steps[1..], fy, coupon, user,
        extra + if Late(w, steps[0], coupon, None) then 1 else 0, own + if Late(w, steps[0], coupon, Some(user)) then 1 else 0);
    }
  }

  /** Only late payments take a coupon past its limits, each by at most one use. */
  lemma OnlyLatePaymentsOverrun(owner: string -> Id, steps: seq<Step>, fy: int -> int, coupon: Id, user: Id)
    requires AllowedRun(EMPTY_SHOP, owner, steps, fy)
    ensures Within(
              RunShop(EMPTY_SHOP, steps, fy).book, coupon, user,
              LateCount(EMPTY_SHOP, steps, coupon, None, fy), LateCount(EMPTY_SHOP, steps, coupon, Some(user), fy))
  {
    EmptyShopOk(owner);
    RunStaysWithin(EMPTY_SHOP, owner, steps, fy, coupon, user, 0, 0);
  }

  predicate SameLimit(b: Book, b': Book, coupon: Id) {
    && coupon in b.coupons && coupon in b'.coupons
    && b'.coupons[coupon].maxUses == b.coupons[coupon].maxUses && b'.coupons[coupon].perUserLimit == b.coupons[coupon].perUserLimit
  }

  lemma BookKeepsLimit(b: Book, c: Id, u: Id, oc: Option<Id>, p: string, from: RedemptionStatus, coupon: Id)
    requires coupon in b.coupons
    ensures SameLimit(b, EnsureCounter(b, c, u), coupon) && SameLimit(b, ReleaseCoupon(b, p, from), coupon)
    ensures SameLimit(b, RedeemCoupon(b, oc, u, p), coupon)
    ensures ReserveCoupon(b, c, u, p).Some? ==> SameLimit(b, ReserveCoupon(b, c, u, p).value, coupon)
  {
  }

  lemma PaidKeepsLimit(w: Shop, owner: string -> Id, step: Step, fy: int -> int, coupon: Id)
    requires ShopOk(w, owner) && step.Paid? && coupon in w.book.coupons
    ensures SameLimit(w.book, Next(w, step, fy).book, coupon)
  {
    hide ShopOk, MarkPaid, RedeemCoupon;
    if Payable(w, step.id) {
      LedgerFits(w, owner, step.id);
      MarkPaidIs(w, step.id, step.paymentId, step.now, step.lot, fy);
      BookKeepsLimit(w.book, coupon, w.purchases[step.id].user, w.purchases[step.id].coupon, step.id, RESERVED, coupon);
    } else {
      NotPayableStays(w, step.id, step.paymentId, step.now, step.lot, fy);
    }
  }

  /** The limits of a coupon never change. */
  lemma LimitsStay(w: Shop, owner: string -> Id, step: Step, fy: int -> int, coupon: Id)
    requires ShopOk(w, owner) && Allowed(w, owner, step) && coupon in w.book.coupons
    ensures SameLimit(w.book, Next(w, step, fy).book, coupon)
  {
    hide ShopOk, SetPayment, RefundTarget, Settled, WithdrawCredits, EnsureCounter, ReleaseCoupon, ReserveCoupon, RedeemCoupon;
    match step
    case Paid(_, _, _, _) => PaidKeepsLimit(w, owner, step, fy, coupon);
    case Ordered(id, p) => BookKeepsLimit(w.book, p.coupon.GetOr(0), p.user, None, id, RESERVED, coupon);
    case Refunded(id, refundId, reported, now, key) =>
      TargetListedIn(w, step);
      BookKeepsLimit(w.book, 0, 0, None, id, REDEEMED, coupon);
    case AttemptFailed(id, _, _) => BookKeepsLimit(w.book, 0, 0, None, id, RESERVED, coupon);
    case Expired(id) => BookKeepsLimit(w.book, 0, 0, None, id, RESERVED, coupon);
    case NewCoupon(_, _, _) =>
    case CountUses(c, u) => BookKeepsLimit(w.book, c, u, None, "", RESERVED, coupon);
    case _ => OtherBook(w, step, fy);
  }

  lemma LateTakesOne(w: Shop, owner: string -> Id, step: Step, fy: int -> int, coupon: Id)
    requires ShopOk(w, owner) && Late(w, step, coupon, None) && coupon in w.book.coupons
    ensures var b := Next(w, step, fy).book; coupon in b.coupons && b.coupons[coupon].used == w.book.coupons[coupon].used + 1
  {
    LedgerFits(w, owner, step.id);
    assert PurchaseOk(w, step.id);
    hide ShopOk, MarkPaid, PurchaseOk;
    MarkPaidIs(w, step.id, step.paymentId, step.now, step.lot, fy);
  }

  /** A step takes a coupon from within its limit to past it if and only if it is a late payment, whose
      use was given back, and the last use had been taken by the time it arrived. */
  lemma LimitBreaksIff(w: Shop, owner: string -> Id, fy: int -> int, step: Step, coupon: Id, limit: int)
    requires Reachable(w, owner, fy) && Allowed(w, owner, step) && coupon in w.book.coupons
    requires w.book.coupons[coupon].maxUses == Some(limit) && w.book.coupons[coupon].used <= limit
    ensures coupon in Next(w, step, fy).book.coupons
    ensures Next(w, step, fy).book.coupons[coupon].used > limit <==>
            Late(w, step, coupon, None) && w.book.coupons[coupon].used == limit
  {
    ReachableOk(w, owner, fy);
    LimitsStay(w, owner, step, fy, coupon);
    UsedIsCount(w, owner, coupon);
    hide ShopOk, Reachable, Next, Late, Allowed;
    if Late(w, step, coupon, None) { LateTakesOne(w, owner, step, fy, coupon); }
    UsedWithin(w, owner, step, fy, coupon, limit);
  }

  lemma UsedIsCount(w: Shop, owner: string -> Id, coupon: Id)
    requires ShopOk(w, owner) && coupon in w.book.coupons
    ensures w.book.coupons[coupon].used >= 0
  {
  }

  /** Without a late payment a coupon within its limit stays within it. */
  lemma UsedWithin(w: Shop, owner: string -> Id, step: Step, fy: int -> int, coupon: Id, limit: int)
    requires ShopOk(w, owner) && Allowed(w, owner, step) && coupon in w.book.coupons && limit >= 0
    requires w.book.coupons[coupon].maxUses == Some(limit) && w.book.coupons[coupon].used <= limit
    ensures !Late(w, step, coupon, None) && coupon in Next(w, step, fy).book.coupons ==> Next(w, step, fy).book.coupons[coupon].used <= limit
  {
    hide ShopOk, Next, Late, Allowed;
    LimitsStay(w, owner, step, fy, coupon);
    if !Late(w, step, coupon, None) { AnyUserWithin(w, owner, step, fy, coupon); }
  }

  /** For some user no order has come from, only the coupon's own limit counts. */
  lemma AnyUserWithin(w: Shop, owner: string -> Id, step: Step, fy: int -> int, coupon: Id)
    requires ShopOk(w, owner) && Allowed(w, owner, step) && coupon in w.book.coupons && !Late(w, step, coupon, None)
    requires w.book.coupons[coupon].maxUses.Some? ==> w.book.coupons[coupon].used <= C.Max(w.book.coupons[coupon].maxUses.value, 0)
    ensures var c := Next(w, step, fy).book.coupons;
            coupon in c && c[coupon].maxUses.Some? ==> c[coupon].used <= C.Max(c[coupon].maxUses.value, 0)
  {
    var user: Id := 0;
    var own := if (coupon, user) in w.book.held && w.book.held[(coupon, user)] > 0 then w.book.held[(coupon, user)] else 0;
    hide ShopOk, Next, Allowed;
    LateIsLate(w, step, coupon, user);
    StepStaysWithin(w, owner, step, fy, coupon, user, 0, own);
  }

  lemma LateTakesOwn(w: Shop, owner: string -> Id, step: Step, fy: int -> int, coupon: Id, user: Id)
    requires ShopOk(w, owner) && Late(w, step, coupon, Some(user)) && (coupon, user) in w.book.held
    ensures var h := Next(w, step, fy).book.held; (coupon, user) in h && h[(coupon, user)] == w.book.held[(coupon, user)] + 1
  {
    LedgerFits(w, owner, step.id);
    assert PurchaseOk(w, step.id);
    hide ShopOk, MarkPaid, PurchaseOk;
    MarkPaidIs(w, step.id, step.paymentId, step.now, step.lot, fy);
  }

  lemma BookKeepsHeld(b: Book, c: Id, u: Id, oc: Option<Id>, p: string, from: RedemptionStatus, k: (Id, Id))
    requires k in b.held
    ensures k in EnsureCounter(b, c, u).held && k in ReleaseCoupon(b, p, from).held && k in RedeemCoupon(b, oc, u, p).held
    ensures ReserveCoupon(b, c, u, p).Some? ==> k in ReserveCoupon(b, c, u, p).value.held
  {
  }

  /** A user's counter, once there, stays. */
  lemma HeldStays(w: Shop, owner: string -> Id, step: Step, fy: int -> int, k: (Id, Id))
    requires ShopOk(w, owner) && k in w.book.held
    ensures k in Next(w, step, fy).book.held
  {
    hide ShopOk, SetPayment, RefundTarget, Settled, WithdrawCredits, EnsureCounter, ReleaseCoupon, ReserveCoupon, RedeemCoupon;
    match step
    case Paid(id, paymentId, now, lot) =>
      hide MarkPaid;
      if Payable(w, id) {
        LedgerFits(w, owner, id);
        MarkPaidIs(w, id, paymentId, now, lot, fy);
        BookKeepsHeld(w.book, 0, w.purchases[id].user, w.purchases[id].coupon, id, RESERVED, k);
      } else {
        NotPayableStays(w, id, paymentId, now, lot, fy);
      }
    case Ordered(id, p) => BookKeepsHeld(w.book, p.coupon.GetOr(0), p.user, None, id, RESERVED, k);
    case Refunded(id, _, _, _, _) =>
      TargetListedIn(w, step);
      BookKeepsHeld(w.book, 0, 0, None, id, REDEEMED, k);
    case AttemptFailed(id, _, _) => BookKeepsHeld(w.book, 0, 0, None, id, RESERVED, k);
    case Expired(id) => BookKeepsHeld(w.book, 0, 0, None, id, RESERVED, k);
    case NewCoupon(_, _, _) =>
    case CountUses(c, u) => BookKeepsHeld(w.book, c, u, None, "", RESERVED, k);
    case _ => OtherBook(w, step, fy);
  }

  /** The user's own limit: a step takes a user from within it to past it if and only if it is a late
      payment of theirs, and their last use had been taken by the time it arrived. */
  lemma UserLimitBreaksIff(w: Shop, owner: string -> Id, fy: int -> int, step: Step, coupon: Id, user: Id)
    requires Reachable(w, owner, fy) && Allowed(w, owner, step) && coupon in w.book.coupons && (coupon, user) in w.book.held
    requires w.book.held[(coupon, user)] <= w.book.coupons[coupon].perUserLimit
    ensures coupon in Next(w, step, fy).book.coupons && (coupon, user) in Next(w, step, fy).book.held
    ensures Next(w, step, fy).book.held[(coupon, user)] > Next(w, step, fy).book.coupons[coupon].perUserLimit <==>
            Late(w, step, coupon, Some(user)) && w.book.held[(coupon, user)] == w.book.coupons[coupon].perUserLimit
  {
    ReachableOk(w, owner, fy);
    LimitsStay(w, owner, step, fy, coupon);
    HeldStays(w, owner, step, fy, (coupon, user));
    HeldIsCount(w, owner, coupon, user);
    hide ShopOk, Reachable, Next, Late, Allowed;
    if Late(w, step, coupon, Some(user)) {
      LateTakesOwn(w, owner, step, fy, coupon, user);
    } else {
      HeldWithin(w, owner, step, fy, coupon, user);
    }
  }

  lemma HeldIsCount(w: Shop, owner: string -> Id, coupon: Id, user: Id)
    requires ShopOk(w, owner) && (coupon, user) in w.book.held
    ensures w.book.held[(coupon, user)] >= 0
  {
  }

  /** Without a late payment of their own a user within the limit stays within it, however often the
      coupon itself was used. */
  lemma HeldWithin(w: Shop, owner: string -> Id, step: Step, fy: int -> int, coupon: Id, user: Id)
    requires ShopOk(w, owner) && Allowed(w, owner, step) && coupon in w.book.coupons && (coupon, user) in w.book.held
    requires !Late(w, step, coupon, Some(user))
    requires 0 <= w.book.held[(coupon, user)] <= w.book.coupons[coupon].perUserLimit
    requires SameLimit(w.book, Next(w, step, fy).book, coupon) && (coupon, user) in Next(w, step, fy).book.held
    ensures Next(w, step, fy).book.held[(coupon, user)] <= w.book.coupons[coupon].perUserLimit
  {
    hide ShopOk, Next, Allowed, Late;
    var extra := if w.book.coupons[coupon].used > 0 then w.book.coupons[coupon].used else 0;
    StepStaysWithin(w, owner, step, fy, coupon, user, extra, 0);
  }

  lemma LateIsLate(w: Shop, step: Step, coupon: Id, user: Id)
    ensures Late(w, step, coupon, Some(user)) ==> Late(w, step, coupon, None)
  {
  }

  // ---- Documents -------------------------------------------------------------------------------

  /** The numbers of a series in use are exactly 1 to its counter, each stored in exactly one place. */
  lemma SeriesHasNoGaps(w: Shop, owner: string -> Id, fy: int -> int, series: Series, k: nat)
    requires Reachable(w, owner, fy)
    ensures 1 <= k <= CounterOf(w, series) <==> Stored(w, Number(series, k))
    ensures forall a, b :: NumberAt(w, a) == Some(Number(series, k)) && NumberAt(w, b) == Some(Number(series, k)) ==> a == b
  {
    ReachableOk(w, owner, fy);
  }

  /** Every paid purchase has an invoice number, and a refund has a credit note exactly once it is processed. */
  lemma DocumentsFollow(w: Shop, owner: string -> Id, fy: int -> int, id: string)
    requires Reachable(w, owner, fy)
    ensures id in w.purchases ==> (w.purchases[id].invoice.Some? <==> PaidUp(w.purchases[id].status))
    ensures id in w.payments ==> forall r <- w.payments[id].refunds :: r.note.Some? <==> r.status.Processed?
  {
    ReachableOk(w, owner, fy);
    if id in w.purchases { assert PurchaseOk(w, id); }
    if id in w.payments { PaymentOf(w, owner, id); }
  }

  // ---- Reconciliation ----------------------------------------------------------------------------

  /** The gateway has given back at least this much. */
  predicate GaveBack(remote: Remote, amount: int) { remote.refundedInFull || remote.refundedMinor >= amount }

  const QUARTER_OF_AN_HOUR := 900_000

  /** What reconciling an open refund may do, and when: some open entry `r` calls for it. */
  ghost predicate ReconcilesRightly(pay: Payment, remote: Remote, now: int, key: string) {
    var outcome := ReconcileRefund(pay, remote, now);
    exists r <- pay.refunds ::
      && Open(r)
      && var given := GaveBack(remote, pay.refunded + r.amount);
         match outcome
         case Unchanged => false
         case Waiting => if r.status.Pending? then !given else given || now < r.requestedAt + QUARTER_OF_AN_HOUR
         case ReleaseClaim(k) =>
           && r.key == k && r.status.Requested? && !given && now >= r.requestedAt + QUARTER_OF_AN_HOUR
           && Release(pay, k).Some? && Release(pay, k).value.status.CAPTURED?
         case CompleteRefund(refundId) =>
           && r.id == Some(refundId) && r.status.Pending? && given
           && var i := FindId(pay.refunds, refundId);
              i.Some? && (RefundTarget(pay, refundId, None, now, key).Some? <==> !pay.refunds[i.value].status.Processed?)
  }

  /** Reconciling an open refund never gets stuck: it waits for the gateway, releases a claim that is at
      least a quarter of an hour old and never reached it, or completes a pending refund that was
      made; and what it does takes effect, unless an earlier refund of the same id was processed. */
  lemma ReconcileMakesProgress(w: Shop, owner: string -> Id, fy: int -> int, id: string, remote: Remote, now: int, key: string)
    requires Reachable(w, owner, fy) && id in w.payments && id in w.purchases && w.purchases[id].status.PAID?
    requires SomeOpen(w.payments[id].refunds) && w.payments[id].paymentId.Some?
    ensures ReconcilesRightly(w.payments[id], remote, now, key)
  {
    ReachableOk(w, owner, fy);
    PaymentOf(w, owner, id);
    ReconcileActs(w.payments[id], remote, now, key);
  }

  lemma ReconcileActs(pay: Payment, remote: Remote, now: int, key: string)
    requires PaymentOk(PAID, pay) && SomeOpen(pay.refunds) && pay.paymentId.Some?
    ensures ReconcilesRightly(pay, remote, now, key)
  {
    var open := FirstOpen(pay.refunds).value;
    if open.status.Requested? {
      RequestedIsFound(pay, open);
    } else {
      PendingIsFound(pay, open, now, key);
    }
  }

  lemma RequestedIsFound(pay: Payment, open: Refund)
    requires PaymentOk(PAID, pay) && open in pay.refunds && open.status.Requested?
    ensures pay.status.REFUND_REQUESTED? && FindRequested(pay.refunds, open.key).Some?
  {
    assert Has(pay.refunds, Requested);
  }

  lemma PendingIsFound(pay: Payment, open: Refund, now: int, key: string)
    requires PaymentOk(PAID, pay) && open in pay.refunds && open.status.Pending?
    ensures open.id.Some?
    ensures var i := FindId(pay.refunds, open.id.value);
            i.Some? && (RefundTarget(pay, open.id.value, None, now, key).Some? <==> !pay.refunds[i.value].status.Processed?)
  {
  }
}

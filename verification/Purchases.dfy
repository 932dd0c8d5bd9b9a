/** Purchases, coupons, refunds and document numbers: every state change as a function from one
    committed state of the database to the next. Each is one transaction or one conditional
    update, so a run of them is any interleaving of checkout, webhooks, admins and reconciliation. */
module Purchases {
  import opened Wrappers
  import C = CreditLedger

  type Id = C.Id

  datatype PurchaseStatus = CREATED | FAILED | EXPIRED | PAID | REFUNDED

  datatype PaymentStatus = PayCREATED | PayFAILED | CAPTURED | REFUND_REQUESTED | REFUND_PENDING | PayREFUNDED

  /** A series of document numbers is one financial year's invoices or credit notes. */
  datatype Series = InvoicesOf(year: int) | NotesOf(year: int)

  datatype Number = Number(series: Series, no: nat)

  datatype Purchase = Purchase(
    user: Id, credits: int, validityDays: int, coupon: Option<Id>, amount: int, status: PurchaseStatus,
    issuedAt: Option<int>, lot: Option<Id>, invoice: Option<Number>, createdAt: int)

  datatype EntryStatus = Requested | Pending | Processed | Failed

  datatype Refund = Refund(
    key: string, id: Option<string>, amount: int, status: EntryStatus, toWithdraw: int, withdrawn: int,
    requestedAt: int, note: Option<Number>)

  datatype Payment = Payment(
    paymentId: Option<string>, amount: int, status: PaymentStatus, refunds: seq<Refund>, refunded: int, refundFailed: bool)

  /** `maxUses` is None for a coupon without a limit. */
  datatype Coupon = Coupon(maxUses: Option<int>, perUserLimit: int, used: int)

  datatype RedemptionStatus = RESERVED | REDEEMED | RELEASED

  datatype Redemption = Redemption(coupon: Id, user: Id, status: RedemptionStatus)

  /** Coupons with their use counts, the uses each user holds, and the redemptions by purchase. */
  datatype Book = Book(coupons: map<Id, Coupon>, held: map<(Id, Id), int>, redemptions: map<string, Redemption>)

  /** The database; payments are kept by purchase. */
  datatype Shop = Shop(
    purchases: map<string, Purchase>, payments: map<string, Payment>, book: Book, counters: map<Series, nat>, credits: C.Store)

  // ---- Coupon uses ---------------------------------------------------------------------------

  predicate Counts(r: Redemption, coupon: Id, user: Id) { r.coupon == coupon && r.user == user && !r.status.RELEASED? }

  function EnsureCounter(b: Book, coupon: Id, user: Id): Book {
    if (coupon, user) in b.held then b
    else b.(held := b.held[(coupon, user) := |set p | p in b.redemptions && Counts(b.redemptions[p], coupon, user)|])
  }

  /** Takes one use for a new purchase; None when a limit is reached. */
  function ReserveCoupon(b: Book, coupon: Id, user: Id, purchase: string): Option<Book> {
    if coupon !in b.coupons then None
    else
      var c := b.coupons[coupon];
      if c.maxUses.Some? && c.used >= c.maxUses.value then None
      else if (coupon, user) !in b.held || b.held[(coupon, user)] >= c.perUserLimit then None
      else Some(Book(
        b.coupons[coupon := c.(used := c.used + 1)],
        b.held[(coupon, user) := b.held[(coupon, user)] + 1],
        b.redemptions[purchase := Redemption(coupon, user, RESERVED)]))
  }

  function DropHeld(held: map<(Id, Id), int>, k: (Id, Id)): map<(Id, Id), int> {
    if k in held && held[k] > 0 then held[k := held[k] - 1] else held
  }

  function DropUse(coupons: map<Id, Coupon>, c: Id): map<Id, Coupon> {
    if c in coupons && coupons[c].used > 0 then coupons[c := coupons[c].(used := coupons[c].used - 1)] else coupons
  }

  /** Gives a purchase's use back when its redemption is in the state `from`. */
  function ReleaseCoupon(b: Book, purchase: string, from: RedemptionStatus): Book {
    if purchase !in b.redemptions || b.redemptions[purchase].status != from then b
    else
      var r := b.redemptions[purchase];
      Book(DropUse(b.coupons, r.coupon), DropHeld(b.held, (r.coupon, r.user)), b.redemptions[purchase := r.(status := RELEASED)])
  }

  function AddHeld(held: map<(Id, Id), int>, k: (Id, Id)): map<(Id, Id), int> {
    held[k := (if k in held then held[k] else 0) + 1]
  }

  function AddUse(coupons: map<Id, Coupon>, c: Id): map<Id, Coupon> {
    if c in coupons then coupons[c := coupons[c].(used := coupons[c].used + 1)] else coupons
  }

  /** A paid purchase redeems its use; without a live reservation it takes one, whatever the limits. */
  function RedeemCoupon(b: Book, coupon: Option<Id>, user: Id, purchase: string): Book {
    if coupon.None? then b
    else if purchase in b.redemptions && b.redemptions[purchase].status.RESERVED? then
      b.(redemptions := b.redemptions[purchase := b.redemptions[purchase].(status := REDEEMED)])
    else if purchase in b.redemptions && !b.redemptions[purchase].status.RELEASED? then b
    else Book(
      AddUse(b.coupons, coupon.value), AddHeld(b.held, (coupon.value, user)),
      b.redemptions[purchase :=
        if purchase in b.redemptions then b.redemptions[purchase].(status := REDEEMED) else Redemption(coupon.value, user, REDEEMED)])
  }

  // ---- Document numbers ----------------------------------------------------------------------

  /** The next number of a series; its counter starts at zero. */
  function NextNumber(counters: map<Series, nat>, series: Series): Number {
    Number(series, (if series in counters then counters[series] else 0) + 1)
  }

  function Taken(counters: map<Series, nat>, n: Number): map<Series, nat> { counters[n.series := n.no] }

  /** The year of a time is the calendar's business: `fy` gives the financial year. */
  function IssueInvoice(w: Shop, id: string, at: int, fy: int -> int): (Shop, Option<Number>) {
    if id !in w.purchases then (w, None)
    else
      var p := w.purchases[id];
      if p.invoice.Some? then (w, p.invoice)
      else if !p.status.PAID? && !p.status.REFUNDED? then (w, None)
      else
        var n := NextNumber(w.counters, InvoicesOf(fy(p.issuedAt.GetOr(at))));
        (w.(counters := Taken(w.counters, n), purchases := w.purchases[id := p.(invoice := Some(n))]), Some(n))
  }

  function FindProcessed(refunds: seq<Refund>, key: string): (i: Option<nat>)
    ensures i.Some? ==> i.value < |refunds| && refunds[i.value].key == key && refunds[i.value].status.Processed?
  {
    if refunds == [] then None
    else if refunds[0].key == key && refunds[0].status.Processed? then Some(0)
    else
      var i := FindProcessed(refunds[1..], key);
      if i.None? then None else Some(i.value + 1)
  }

  function IssueNote(w: Shop, id: string, key: string, at: int, fy: int -> int): (Shop, Option<Number>) {
    if id !in w.payments then (w, None)
    else
      var pay := w.payments[id];
      var i := FindProcessed(pay.refunds, key);
      if i.None? then (w, None)
      else if pay.refunds[i.value].note.Some? then (w, pay.refunds[i.value].note)
      else
        var n := NextNumber(w.counters, NotesOf(fy(at)));
        // The array filter names every entry with this key that has no number yet.
        var refunds := seq(|pay.refunds|, j requires 0 <= j < |pay.refunds| =>
          if pay.refunds[j].key == key && pay.refunds[j].note.None? then pay.refunds[j].(note := Some(n)) else pay.refunds[j]);
        (w.(counters := Taken(w.counters, n), payments := w.payments[id := pay.(refunds := refunds)]), Some(n))
  }

  // ---- Orders and payment outcomes -----------------------------------------------------------

  function PurchaseKey(id: string): string { "purchase:" + id }

  function RefundKey(id: string, refundId: string): string { "refund:" + id + ":" + refundId }

  /** An order: the purchase, its coupon use, and a payment when there is something to pay. */
  function Order(w: Shop, id: string, p: Purchase): Option<Shop> {
    var book := if p.coupon.Some? then ReserveCoupon(w.book, p.coupon.value, p.user, id) else Some(w.book);
    if book.None? then None
    else Some(w.(
      book := book.value,
      purchases := w.purchases[id := p],
      payments := if p.amount > 0 then w.payments[id := Payment(None, p.amount, PayCREATED, [], 0, false)] else w.payments))
  }

  function SetPayment(payments: map<string, Payment>, id: string, status: PaymentStatus, paymentId: Option<string>): map<string, Payment> {
    if id !in payments then payments
    else payments[id := payments[id].(status := status, paymentId := if paymentId.Some? then paymentId else payments[id].paymentId)]
  }

  const DAY_MS := 86_400_000

  function PurchaseGrant(p: Purchase, id: string, now: int, lot: Id): C.Op {
    C.Grant(p.user, p.credits, C.Purchased, PurchaseKey(id), if p.validityDays != 0 then Some(now + p.validityDays * DAY_MS) else None, lot)
  }

  /** Moves an unpaid purchase to PAID and issues its credits. `lot` is the id a new lot would get. */
  function MarkPaid(w: Shop, id: string, paymentId: Option<string>, now: int, lot: Id, fy: int -> int): (Shop, bool) {
    if id !in w.purchases || w.purchases[id].status.PAID? || w.purchases[id].status.REFUNDED? then (w, false)
    else
      var p := w.purchases[id].(status := PAID, issuedAt := Some(now));
      var (credits, granted) := C.Apply(w.credits, PurchaseGrant(p, id, now, lot));
      var entry := C.FindEntry(credits.ledger, PurchaseKey(id));
      if granted.Thrown() || entry.None? then (w, false)
      else
        var p' := p.(lot := Some(entry.value.lotId));
        var w1 := w.(
          credits := credits,
          purchases := w.purchases[id := p'],
          book := RedeemCoupon(w.book, p.coupon, p.user, id));
        var w2 := IssueInvoice(w1, id, now, fy).0;
        (w2.(payments := SetPayment(w2.payments, id, CAPTURED, paymentId)), true)
  }

  function MarkFailed(w: Shop, id: string, fromOrder: bool, paymentId: Option<string>): (Shop, bool) {
    if id !in w.purchases || !w.purchases[id].status.CREATED? then (w, false)
    else (w.(
      purchases := w.purchases[id := w.purchases[id].(status := FAILED)],
      book := if fromOrder then ReleaseCoupon(w.book, id, RESERVED) else w.book,
      payments := SetPayment(w.payments, id, PayFAILED, paymentId)), true)
  }

  function Expire(w: Shop, id: string): (Shop, bool) {
    if id !in w.purchases || !(w.purchases[id].status.CREATED? || w.purchases[id].status.FAILED?) then (w, false)
    else (w.(
      purchases := w.purchases[id := w.purchases[id].(status := EXPIRED)],
      book := ReleaseCoupon(w.book, id, RESERVED)), true)
  }

  // ---- Refunds -------------------------------------------------------------------------------

  predicate Open(r: Refund) { r.status.Requested? || r.status.Pending? }

  predicate SomeOpen(refunds: seq<Refund>) { exists r <- refunds :: Open(r) }

  /** CAPTURED to REFUND_REQUESTED, when the amount is still there to refund. */
  function Claim(pay: Payment, key: string, amount: int, toWithdraw: int, now: int): Option<Payment> {
    if !pay.status.CAPTURED? || pay.paymentId.None? || pay.refunded + amount > pay.amount then None
    else Some(pay.(
      status := REFUND_REQUESTED, refundFailed := false,
      refunds := pay.refunds + [Refund(key, None, amount, Requested, toWithdraw, 0, now, None)]))
  }

  function FindRequested(refunds: seq<Refund>, key: string): (i: Option<nat>)
    ensures i.Some? ==> i.value < |refunds| && refunds[i.value].key == key && refunds[i.value].status.Requested?
    ensures i.None? ==> forall r <- refunds :: !(r.key == key && r.status.Requested?)
  {
    if refunds == [] then None
    else if refunds[0].key == key && refunds[0].status.Requested? then Some(0)
    else
      var i := FindRequested(refunds[1..], key);
      if i.None? then None else Some(i.value + 1)
  }

  function FindKey(refunds: seq<Refund>, key: string): (i: Option<nat>)
    ensures i.Some? ==> i.value < |refunds| && refunds[i.value].key == key
  {
    if refunds == [] then None
    else if refunds[0].key == key then Some(0)
    else
      var i := FindKey(refunds[1..], key);
      if i.None? then None else Some(i.value + 1)
  }

  function Release(pay: Payment, key: string): Option<Payment> {
    var i := FindRequested(pay.refunds, key);
    if !pay.status.REFUND_REQUESTED? || i.None? then None
    else Some(pay.(status := CAPTURED, refunds := pay.refunds[i.value := pay.refunds[i.value].(status := Failed)]))
  }

  /** The gateway answers a claim with its id. A claim that is gone takes the id all the same. */
  function MarkPending(pay: Payment, key: string, refundId: string): (Payment, bool) {
    var i := FindRequested(pay.refunds, key);
    if pay.status.REFUND_REQUESTED? && i.Some? then
      (pay.(status := REFUND_PENDING,
            refunds := pay.refunds[i.value := pay.refunds[i.value].(id := Some(refundId), status := Pending)]), true)
    else
      var j := FindKey(pay.refunds, key);
      (if j.None? then pay else pay.(refunds := pay.refunds[j.value := pay.refunds[j.value].(id := Some(refundId))]), false)
  }

  function FindId(refunds: seq<Refund>, refundId: string): (i: Option<nat>)
    ensures i.Some? ==> i.value < |refunds| && refunds[i.value].id == Some(refundId)
    ensures i.None? ==> forall r <- refunds :: r.id != Some(refundId)
  {
    if refunds == [] then None
    else if refunds[0].id == Some(refundId) then Some(0)
    else
      var i := FindId(refunds[1..], refundId);
      if i.None? then None else Some(i.value + 1)
  }

  /** A claim whose answer was lost, of this amount when one is given. */
  function FindLost(refunds: seq<Refund>, amount: Option<int>): (i: Option<nat>)
    ensures i.Some? ==>
              && i.value < |refunds| && refunds[i.value].id.None? && refunds[i.value].status.Requested?
              && (amount.Some? ==> refunds[i.value].amount == amount.value)
  {
    if refunds == [] then None
    else if refunds[0].id.None? && refunds[0].status.Requested? && (amount.None? || refunds[0].amount == amount.value) then Some(0)
    else
      var i := FindLost(refunds[1..], amount);
      if i.None? then None else Some(i.value + 1)
  }

  /** The entries and the one a processed refund belongs to: known by id, else a lost claim, else new. */
  function RefundTarget(pay: Payment, refundId: string, amount: Option<int>, now: int, key: string): Option<(seq<Refund>, nat)> {
    var i := FindId(pay.refunds, refundId);
    var j := if i.Some? then i else FindLost(pay.refunds, amount);
    if j.Some? then
      if pay.refunds[j.value].status.Processed? then None else Some((pay.refunds, j.value))
    else
      var amountMinor := amount.GetOr(pay.amount - pay.refunded);
      if amountMinor <= 0 then None
      else Some((pay.refunds + [Refund(key, Some(refundId), amountMinor, Pending, 0, 0, now, None)], |pay.refunds|))
  }

  /** Applying a processed refund to the payment's record. */
  function Settled(pay: Payment, refunds: seq<Refund>, i: nat, refundId: string, withdrawn: int, note: Number): Payment
    requires i < |refunds|
  {
    var refunded := pay.refunded + refunds[i].amount;
    var refunds' := refunds[i := refunds[i].(id := Some(refundId), status := Processed, withdrawn := withdrawn, note := Some(note))];
    pay.(
      refunds := refunds', refunded := refunded,
      status :=
        if refunded >= pay.amount then PayREFUNDED
        else if SomeOpen(refunds') then pay.status
        else if pay.status.REFUND_PENDING? || pay.status.REFUND_REQUESTED? then CAPTURED
        else pay.status)
  }

  datatype RefundResult = RefundResult(refunded: bool, fully: bool, withdrawn: int)

  const NOT_REFUNDED := RefundResult(false, false, 0)

  /** Withdraws unused credits: all on a full refund, else what the admin chose. */
  function WithdrawCredits(w: Shop, id: string, p: Purchase, fully: bool, toWithdraw: int, refundId: string): (C.Store, int) {
    if p.lot.Some? && (fully || toWithdraw > 0) then
      var (credits, out) := C.Apply(w.credits, C.Revoke(p.user, p.lot.value, RefundKey(id, refundId), if fully then None else Some(toWithdraw)));
      (credits, if out.Withdrawn? then out.credits else 0)
    else (w.credits, 0)
  }

  /** A refund was made: records it, and withdraws what it withdraws. */
  function MarkRefunded(w: Shop, id: string, refundId: string, amount: Option<int>, now: int, key: string, fy: int -> int): (Shop, RefundResult) {
    if id !in w.purchases || id !in w.payments || !w.purchases[id].status.PAID? then (w, NOT_REFUNDED)
    else
      var p, pay := w.purchases[id], w.payments[id];
      var target := RefundTarget(pay, refundId, amount, now, key);
      if target.None? then (w, NOT_REFUNDED)
      else
        var (refunds, i) := target.value;
        var fully := pay.refunded + refunds[i].amount >= pay.amount;
        var (credits, withdrawn) := WithdrawCredits(w, id, p, fully, refunds[i].toWithdraw, refundId);
        var note := NextNumber(w.counters, NotesOf(fy(now)));
        (w.(
          credits := credits,
          counters := Taken(w.counters, note),
          payments := w.payments[id := Settled(pay, refunds, i, refundId, withdrawn, note)],
          purchases := if fully then w.purchases[id := p.(status := REFUNDED)] else w.purchases,
          book := if fully then ReleaseCoupon(w.book, id, REDEEMED) else w.book),
         RefundResult(true, fully, withdrawn))
  }

  /** A refund did not happen after all. None when that changes nothing. */
  function MarkRefundFailed(pay: Payment, refundId: string): Option<Payment> {
    var i := FindId(pay.refunds, refundId);
    var j := if i.Some? then i else FindLost(pay.refunds, None);
    if j.Some? && !Open(pay.refunds[j.value]) then None
    else
      var refunds := if j.None? then pay.refunds
                     else pay.refunds[j.value := pay.refunds[j.value].(id := Some(refundId), status := Failed)];
      var reopen := !SomeOpen(refunds) && (pay.status.REFUND_PENDING? || pay.status.REFUND_REQUESTED?);
      Some(pay.(refunds := refunds, refundFailed := true, status := if reopen then CAPTURED else pay.status))
  }

  // ---- Reconciliation ------------------------------------------------------------------------

  const REFUND_CLAIM_STALE_MS := 15 * 60_000

  datatype Remote = Remote(refundedInFull: bool, refundedMinor: int)

  datatype Reconciled = Unchanged | Waiting | ReleaseClaim(key: string) | CompleteRefund(refundId: string)

  function FirstOpen(refunds: seq<Refund>): (r: Option<Refund>)
    ensures r.Some? ==> r.value in refunds && Open(r.value)
    ensures r.None? ==> !SomeOpen(refunds)
  {
    if refunds == [] then None else if Open(refunds[0]) then Some(refunds[0]) else FirstOpen(refunds[1..])
  }

  /** What reconciliation decides about the open refund of a purchase. */
  function ReconcileRefund(pay: Payment, remote: Remote, now: int): Reconciled {
    var open := FirstOpen(pay.refunds);
    if open.None? || pay.paymentId.None? then Unchanged
    else if open.value.status.Requested? && now - open.value.requestedAt < REFUND_CLAIM_STALE_MS then Waiting
    else
      var done := remote.refundedInFull || remote.refundedMinor >= pay.refunded + open.value.amount;
      if open.value.status.Requested? then (if done then Waiting else ReleaseClaim(open.value.key))
      else if !done then Waiting
      else if open.value.id.Some? then CompleteRefund(open.value.id.value) else Unchanged
  }

  // ---- Steps ---------------------------------------------------------------------------------

  datatype Step =
    | NewCoupon(coupon: Id, maxUses: Option<int>, perUserLimit: int)
    | CountUses(coupon: Id, user: Id)
    | Ordered(id: string, purchase: Purchase)
    | Paid(id: string, paymentId: Option<string>, now: int, lot: Id)
    | AttemptFailed(id: string, fromOrder: bool, paymentId: Option<string>)
    | Expired(id: string)
    | Claimed(id: string, key: string, amount: int, toWithdraw: int, now: int)
    | Released(id: string, key: string)
    | Accepted(id: string, key: string, refundId: string)
    | Refunded(id: string, refundId: string, reported: Option<int>, now: int, key: string)
    | RefundFailed(id: string, refundId: string)
    | Invoiced(id: string, at: int)
    | Noted(id: string, key: string, at: int)
    | Moved(op: C.Op)

  function WithPayment(w: Shop, id: string, pay: Option<Payment>): Shop {
    if pay.Some? then w.(payments := w.payments[id := pay.value]) else w
  }

  function Next(w: Shop, step: Step, fy: int -> int): Shop {
    match step
    case NewCoupon(c, maxUses, limit) => w.(book := w.book.(coupons := w.book.coupons[c := Coupon(maxUses, limit, 0)]))
    case CountUses(c, user) => w.(book := EnsureCounter(w.book, c, user))
    case Ordered(id, p) => Order(w, id, p).GetOr(w)
    case Paid(id, paymentId, now, lot) => MarkPaid(w, id, paymentId, now, lot, fy).0
    case AttemptFailed(id, fromOrder, paymentId) => MarkFailed(w, id, fromOrder, paymentId).0
    case Expired(id) => Expire(w, id).0
    case Claimed(id, key, amount, toWithdraw, now) =>
      if id in w.payments then WithPayment(w, id, Claim(w.payments[id], key, amount, toWithdraw, now)) else w
    case Released(id, key) => if id in w.payments then WithPayment(w, id, Release(w.payments[id], key)) else w
    case Accepted(id, key, refundId) =>
      if id in w.payments then WithPayment(w, id, Some(MarkPending(w.payments[id], key, refundId).0)) else w
    case Refunded(id, refundId, reported, now, key) => MarkRefunded(w, id, refundId, reported, now, key, fy).0
    case RefundFailed(id, refundId) =>
      if id in w.payments then WithPayment(w, id, MarkRefundFailed(w.payments[id], refundId)) else w
    case Invoiced(id, at) => IssueInvoice(w, id, at, fy).0
    case Noted(id, key, at) => IssueNote(w, id, key, at, fy).0
    case Moved(op) => w.(credits := C.Apply(w.credits, op).0)
  }

  const EMPTY_SHOP := Shop(map[], map[], Book(map[], map[], map[]), map[], C.EMPTY_STORE)

  function RunShop(w: Shop, steps: seq<Step>, fy: int -> int): Shop
    decreases |steps|
  {
    if steps == [] then w else RunShop(Next(w, steps[0], fy), steps[1..], fy)
  }
}

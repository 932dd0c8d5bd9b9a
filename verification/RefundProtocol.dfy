/** The refund protocol of one payment: what every order of claims, releases, gateway answers,
    webhooks and reconciliation keeps. */
module RefundProtocol {
  import opened Wrappers
  import opened Purchases

  /** The sum of the processed refunds among the first `n` entries. */
  function ProcessedIn(refunds: seq<Refund>, n: nat): int
    requires n <= |refunds|
  {
    if n == 0 then 0 else ProcessedIn(refunds, n - 1) + ProcessedAmount(refunds[n - 1])
  }

  function ProcessedAmount(r: Refund): int { if r.status.Processed? then r.amount else 0 }

  function ProcessedTotal(refunds: seq<Refund>): int { ProcessedIn(refunds, |refunds|) }

  lemma ProcessedUpdate(refunds: seq<Refund>, i: nat, r: Refund, n: nat)
    requires i < |refunds| && n <= |refunds|
    ensures ProcessedIn(refunds[i := r], n) ==
            ProcessedIn(refunds, n) + if i < n then ProcessedAmount(r) - ProcessedAmount(refunds[i]) else 0
  {
    if n > 0 { ProcessedUpdate(refunds, i, r, n - 1); }
  }

  lemma ProcessedPrefix(refunds: seq<Refund>, r: Refund, n: nat)
    requires n <= |refunds|
    ensures ProcessedIn(refunds + [r], n) == ProcessedIn(refunds, n)
  {
  }

  // ---- The invariant -------------------------------------------------------------------------

  ghost predicate KeysDistinct(refunds: seq<Refund>) {
    forall i, j :: 0 <= i < j < |refunds| ==> refunds[i].key != refunds[j].key
  }

  ghost predicate AtMostOneOpen(refunds: seq<Refund>) {
    forall i, j :: 0 <= i < j < |refunds| ==> !(Open(refunds[i]) && Open(refunds[j]))
  }

  /** A requested entry has no gateway id yet; a pending one has. */
  ghost predicate IdsOk(refunds: seq<Refund>) {
    forall r <- refunds :: (r.status.Requested? ==> r.id.None?) && (r.status.Pending? ==> r.id.Some?)
  }

  ghost predicate Has(refunds: seq<Refund>, status: EntryStatus) { exists r <- refunds :: r.status == status }

  ghost predicate OpenFits(status: PaymentStatus, refunds: seq<Refund>) {
    match status
    case CAPTURED => !Has(refunds, Requested) && !Has(refunds, Pending)
    case REFUND_REQUESTED => Has(refunds, Requested) && !Has(refunds, Pending)
    case REFUND_PENDING => Has(refunds, Pending) && !Has(refunds, Requested)
    case _ => false
  }

  /** How a payment goes with the status of its purchase. */
  ghost predicate PaymentOk(status: PurchaseStatus, pay: Payment) {
    && pay.amount > 0
    && KeysDistinct(pay.refunds) && AtMostOneOpen(pay.refunds)
    && pay.refunded == ProcessedTotal(pay.refunds)
    && match status
       case PAID => pay.refunded < pay.amount && OpenFits(pay.status, pay.refunds) && IdsOk(pay.refunds)
       case REFUNDED => pay.refunded >= pay.amount && pay.status.PayREFUNDED?
       case _ => (pay.status.PayCREATED? || pay.status.PayFAILED?) && pay.refunds == []
  }

  // ---- What the invariant says ---------------------------------------------------------------

  /** The total refunded is the sum of the processed refunds; an entry is open exactly when the
      payment says a refund is requested or pending, until everything is refunded; and payment and
      purchase are REFUNDED exactly when the sum has reached the amount. */
  lemma RefundStateAgrees(status: PurchaseStatus, pay: Payment)
    requires PaymentOk(status, pay) && (status.PAID? || status.REFUNDED?)
    ensures pay.refunded == ProcessedTotal(pay.refunds)
    ensures status.REFUNDED? <==> pay.status.PayREFUNDED?
    ensures status.REFUNDED? <==> ProcessedTotal(pay.refunds) >= pay.amount
    ensures !status.REFUNDED? ==> (SomeOpen(pay.refunds) <==> pay.status.REFUND_REQUESTED? || pay.status.REFUND_PENDING?)
    ensures forall i, j :: 0 <= i < j < |pay.refunds| ==> !(Open(pay.refunds[i]) && Open(pay.refunds[j]))
  {
  }

  // ---- The steps -----------------------------------------------------------------------------

  lemma ClaimKeepsOk(status: PurchaseStatus, pay: Payment, key: string, amount: int, toWithdraw: int, now: int)
    requires PaymentOk(status, pay) && (forall r <- pay.refunds :: r.key != key)
    requires Claim(pay, key, amount, toWithdraw, now).Some?
    ensures PaymentOk(status, Claim(pay, key, amount, toWithdraw, now).value)
  {
    var pay' := Claim(pay, key, amount, toWithdraw, now).value;
    var r := pay'.refunds[|pay.refunds|];
    ProcessedPrefix(pay.refunds, r, |pay.refunds|);
    assert r in pay'.refunds;
    assert forall i :: 0 <= i < |pay.refunds| ==> pay.refunds[i] in pay.refunds;
  }

  /** Closing one entry of a list with at most one open leaves none open. */
  lemma CloseEntry(refunds: seq<Refund>, i: nat, r: Refund)
    requires AtMostOneOpen(refunds) && i < |refunds| && Open(refunds[i]) && !Open(r)
    ensures forall x <- refunds[i := r] :: !Open(x)
  {
    forall x | x in refunds[i := r] ensures !Open(x) {
      var j :| 0 <= j < |refunds| && refunds[i := r][j] == x;
    }
  }

  lemma ReleaseKeepsOk(status: PurchaseStatus, pay: Payment, key: string)
    requires PaymentOk(status, pay) && Release(pay, key).Some?
    ensures PaymentOk(status, Release(pay, key).value)
  {
    var i := FindRequested(pay.refunds, key).value;
    var r := pay.refunds[i].(status := Failed);
    CloseEntry(pay.refunds, i, r);
    ProcessedUpdate(pay.refunds, i, r, |pay.refunds|);
  }

  lemma AcceptKeepsOk(status: PurchaseStatus, pay: Payment, key: string, refundId: string)
    requires PaymentOk(status, pay)
    ensures PaymentOk(status, MarkPending(pay, key, refundId).0)
  {
    var i, j := FindRequested(pay.refunds, key), FindKey(pay.refunds, key);
    if pay.status.REFUND_REQUESTED? && i.Some? {
      AcceptedKeepsOk(status, pay, i.value, refundId);
    } else if j.Some? {
      RenamedKeepsOk(status, pay, j.value, refundId);
    }
  }

  lemma AcceptedKeepsOk(status: PurchaseStatus, pay: Payment, i: nat, refundId: string)
    requires PaymentOk(status, pay) && pay.status.REFUND_REQUESTED? && i < |pay.refunds| && pay.refunds[i].status.Requested?
    ensures PaymentOk(status, pay.(status := REFUND_PENDING, refunds := pay.refunds[i := pay.refunds[i].(id := Some(refundId), status := Pending)]))
  {
    var r := pay.refunds[i].(id := Some(refundId), status := Pending);
    var refunds := pay.refunds[i := r];
    ProcessedUpdate(pay.refunds, i, r, |pay.refunds|);
    assert refunds[i] in refunds;
    forall x | x in refunds ensures !x.status.Requested? && (x.status.Pending? ==> x.id.Some?) {
      var j :| 0 <= j < |refunds| && refunds[j] == x;
      assert pay.refunds[j] in pay.refunds && Open(pay.refunds[i]);
    }
  }

  lemma RenamedKeepsOk(status: PurchaseStatus, pay: Payment, i: nat, refundId: string)
    requires PaymentOk(status, pay) && i < |pay.refunds| && (pay.status.REFUND_REQUESTED? ==> !pay.refunds[i].status.Requested?)
    ensures PaymentOk(status, pay.(refunds := pay.refunds[i := pay.refunds[i].(id := Some(refundId))]))
  {
    var r := pay.refunds[i].(id := Some(refundId));
    var refunds := pay.refunds[i := r];
    ProcessedUpdate(pay.refunds, i, r, |pay.refunds|);
    SameStatuses(pay.status, pay.refunds, refunds);
    forall x | x in refunds && x.status.Requested? && status.PAID? ensures x.id.None? {
      var j :| 0 <= j < |refunds| && refunds[j] == x;
      assert pay.refunds[j] in pay.refunds;
    }
    forall x | x in refunds && x.status.Pending? && status.PAID? ensures x.id.Some? {
      var j :| 0 <= j < |refunds| && refunds[j] == x;
      assert pay.refunds[j] in pay.refunds;
    }
  }

  lemma SameStatuses(status: PaymentStatus, a: seq<Refund>, b: seq<Refund>)
    requires |a| == |b| && forall i :: 0 <= i < |a| ==> a[i].status == b[i].status
    ensures AtMostOneOpen(a) ==> AtMostOneOpen(b)
    ensures OpenFits(status, a) ==> OpenFits(status, b)
  {
    SameHas(a, b, Requested);
    SameHas(a, b, Pending);
  }

  lemma SameHas(a: seq<Refund>, b: seq<Refund>, status: EntryStatus)
    requires |a| == |b| && forall i :: 0 <= i < |a| ==> a[i].status == b[i].status
    ensures Has(a, status) <==> Has(b, status)
  {
    if Has(a, status) {
      var i :| 0 <= i < |a| && a[i].status == status;
      assert b[i] in b && b[i].status == status;
    }
    if Has(b, status) {
      var i :| 0 <= i < |b| && b[i].status == status;
      assert a[i] in a && a[i].status == status;
    }
  }

  lemma RefundedKeepsOk(pay: Payment, refundId: string, amount: Option<int>, now: int, key: string, withdrawn: int, note: Number)
    requires PaymentOk(PAID, pay) && (forall r <- pay.refunds :: r.key != key)
    requires RefundTarget(pay, refundId, amount, now, key).Some?
    ensures var (refunds, i) := RefundTarget(pay, refundId, amount, now, key).value;
            var pay' := Settled(pay, refunds, i, refundId, withdrawn, note);
            PaymentOk(if pay.refunded + refunds[i].amount >= pay.amount then REFUNDED else PAID, pay')
  {
    var (refunds, i) := RefundTarget(pay, refundId, amount, now, key).value;
    TargetListed(pay, refundId, amount, now, key);
    SettledOk(pay, refunds, i, refundId, withdrawn, note);
  }

  /** The list a refund is applied to: the entries there are, and perhaps one for a refund of the dashboard's. */
  lemma TargetListed(pay: Payment, refundId: string, amount: Option<int>, now: int, key: string)
    requires PaymentOk(PAID, pay) && (forall r <- pay.refunds :: r.key != key)
    requires RefundTarget(pay, refundId, amount, now, key).Some?
    ensures var (refunds, i) := RefundTarget(pay, refundId, amount, now, key).value;
            && i < |refunds| && KeysDistinct(refunds) && ProcessedTotal(refunds) == pay.refunded && !refunds[i].status.Processed?
            && (refunds == pay.refunds || (i == |pay.refunds| && refunds[..i] == pay.refunds && |refunds| == i + 1))
  {
    var (refunds, i) := RefundTarget(pay, refundId, amount, now, key).value;
    if refunds != pay.refunds {
      ProcessedPrefix(pay.refunds, refunds[i], |pay.refunds|);
      assert forall k :: 0 <= k < |pay.refunds| ==> pay.refunds[k] in pay.refunds;
    }
  }

  lemma SettledOk(pay: Payment, refunds: seq<Refund>, i: nat, refundId: string, withdrawn: int, note: Number)
    requires PaymentOk(PAID, pay)
    requires i < |refunds| && KeysDistinct(refunds) && ProcessedTotal(refunds) == pay.refunded && !refunds[i].status.Processed?
    requires refunds == pay.refunds || (i == |pay.refunds| && refunds[..i] == pay.refunds && |refunds| == i + 1)
    ensures PaymentOk(
              if pay.refunded + refunds[i].amount >= pay.amount then REFUNDED else PAID,
              Settled(pay, refunds, i, refundId, withdrawn, note))
  {
    var pay' := Settled(pay, refunds, i, refundId, withdrawn, note);
    var r := pay'.refunds[i];
    assert pay'.refunds == refunds[i := r];
    ProcessedUpdate(refunds, i, r, |refunds|);
    forall j | 0 <= j < |refunds| && j != i ensures pay'.refunds[j] == pay.refunds[j] && pay.refunds[j] in pay.refunds {
      assert refunds[..i] == pay.refunds ==> refunds[j] == refunds[..i][j];
    }
    SettledOpen(pay, pay'.refunds, i);
  }

  /** With one entry processed, the others are open exactly as before. */
  lemma SettledOpen(pay: Payment, refunds': seq<Refund>, i: nat)
    requires PaymentOk(PAID, pay) && i < |refunds'| && |refunds'| >= |pay.refunds|
    requires |refunds'| == |pay.refunds| || (|refunds'| == |pay.refunds| + 1 && i == |pay.refunds|)
    requires refunds'[i].status.Processed?
    requires forall j :: 0 <= j < |refunds'| && j != i ==> pay.refunds[j] == refunds'[j]
    ensures AtMostOneOpen(refunds') && IdsOk(refunds')
    ensures SomeOpen(refunds') ==> OpenFits(pay.status, refunds')
  {
    forall x | x in refunds' && x != refunds'[i] ensures x in pay.refunds {
      var j :| 0 <= j < |refunds'| && refunds'[j] == x;
      assert pay.refunds[j] in pay.refunds;
    }
  }

  lemma RefundFailedKeepsOk(status: PurchaseStatus, pay: Payment, refundId: string)
    requires PaymentOk(status, pay) && MarkRefundFailed(pay, refundId).Some?
    ensures PaymentOk(status, MarkRefundFailed(pay, refundId).value)
  {
    var i := FindId(pay.refunds, refundId);
    var j := if i.Some? then i else FindLost(pay.refunds, None);
    if j.Some? {
      var r := pay.refunds[j.value].(id := Some(refundId), status := Failed);
      CloseEntry(pay.refunds, j.value, r);
      ProcessedUpdate(pay.refunds, j.value, r, |pay.refunds|);
    }
  }
}

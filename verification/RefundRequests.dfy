/** An admin's refund from the claim to the gateway's answer. */
module RefundRequests {
  import opened Wrappers
  import opened Purchases
  import opened RefundProtocol

  /** What comes back from the gateway; Waiting is a refund it has taken and not made yet. */
  datatype Reply = Unreachable | Waiting(id: string) | Made(id: string) | Refused(id: string)

  datatype Request = Request(id: string, key: string, amount: int, toWithdraw: int, claimedAt: int, repliedAt: int)

  function ClaimStep(q: Request): Step { Claimed(q.id, q.key, q.amount, q.toWithdraw, q.claimedAt) }

  /** What follows the claim. `spare` would name an entry for a refund that has none. */
  function ReplySteps(q: Request, reply: Reply, spare: string): seq<Step> {
    match reply
    case Unreachable => [Released(q.id, q.key)]
    case Waiting(refundId) => [Accepted(q.id, q.key, refundId)]
    case Made(refundId) => [Accepted(q.id, q.key, refundId), Refunded(q.id, refundId, None, q.repliedAt, spare)]
    case Refused(refundId) => [Accepted(q.id, q.key, refundId), RefundFailed(q.id, refundId)]
  }

  function EntryAfter(reply: Reply): EntryStatus {
    match reply
    case Waiting(_) => Pending
    case Made(_) => Processed
    case _ => Failed
  }

  // ---- The entry a claim adds --------------------------------------------------------------------

  lemma {:induction false} LastIsFound(refunds: seq<Refund>, r: Refund)
    ensures r.status.Requested? && (forall x <- refunds :: x.key != r.key) ==>
              FindRequested(refunds + [r], r.key) == Some(|refunds|)
    ensures r.id.Some? && (forall x <- refunds :: x.id != r.id) ==>
              FindId(refunds + [r], r.id.value) == Some(|refunds|)
  {
    if refunds != [] {
      LastIsFound(refunds[1..], r);
      assert (refunds + [r])[1..] == refunds[1..] + [r];
      assert refunds[0] in refunds && forall x <- refunds[1..] :: x in refunds;
    } else {
      assert ([] + [r])[0] == r;
    }
  }

  lemma NoneIsOpen(pay: Payment, r: Refund)
    requires PaymentOk(PAID, pay) && pay.status.CAPTURED? && !Open(r)
    ensures !SomeOpen(pay.refunds + [r])
  {
  }

  predicate NewReply(pay: Payment, reply: Reply) { reply.Unreachable? || forall r <- pay.refunds :: r.id != Some(reply.id) }

  /** The payment with the request's entry at its end. */
  function With(pay: Payment, q: Request, id: Option<string>, standing: EntryStatus, status: PaymentStatus): Payment {
    pay.(status := status, refundFailed := false,
         refunds := pay.refunds + [Refund(q.key, id, q.amount, standing, q.toWithdraw, 0, q.claimedAt, None)])
  }

  ghost predicate Claims(w: Shop, q: Request) {
    && q.id in w.purchases && w.purchases[q.id].status.PAID? && q.id in w.payments && PaymentOk(PAID, w.payments[q.id])
    && Claim(w.payments[q.id], q.key, q.amount, q.toWithdraw, q.claimedAt).Some?
    && forall r <- w.payments[q.id].refunds :: r.key != q.key
  }

  function Paying(w: Shop, q: Request, pay: Payment): Shop { w.(payments := w.payments[q.id := pay]) }

  lemma ClaimAdds(w: Shop, q: Request, fy: int -> int)
    requires Claims(w, q)
    ensures Next(w, ClaimStep(q), fy) == Paying(w, q, With(w.payments[q.id], q, None, Requested, REFUND_REQUESTED))
  {
  }

  lemma ReleaseCloses(w: Shop, q: Request, fy: int -> int)
    requires Claims(w, q)
    ensures Next(Paying(w, q, With(w.payments[q.id], q, None, Requested, REFUND_REQUESTED)), Released(q.id, q.key), fy) ==
            Paying(w, q, With(w.payments[q.id], q, None, Failed, CAPTURED))
  {
    var pay := w.payments[q.id];
    var before, after := With(pay, q, None, Requested, REFUND_REQUESTED), With(pay, q, None, Failed, CAPTURED);
    LastIsFound(pay.refunds, before.refunds[|pay.refunds|]);
    assert Release(before, q.key).value.refunds == after.refunds;
  }

  lemma AcceptNames(w: Shop, q: Request, id: string, fy: int -> int)
    requires Claims(w, q)
    ensures Next(Paying(w, q, With(w.payments[q.id], q, None, Requested, REFUND_REQUESTED)), Accepted(q.id, q.key, id), fy) ==
            Paying(w, q, With(w.payments[q.id], q, Some(id), Pending, REFUND_PENDING))
  {
    var pay := w.payments[q.id];
    var before, after := With(pay, q, None, Requested, REFUND_REQUESTED), With(pay, q, Some(id), Pending, REFUND_PENDING);
    LastIsFound(pay.refunds, before.refunds[|pay.refunds|]);
    assert MarkPending(before, q.key, id).0.refunds == after.refunds;
  }

  lemma RefusalCloses(w: Shop, q: Request, id: string, fy: int -> int)
    requires Claims(w, q) && NewReply(w.payments[q.id], Refused(id))
    ensures Next(Paying(w, q, With(w.payments[q.id], q, Some(id), Pending, REFUND_PENDING)), RefundFailed(q.id, id), fy) ==
            Paying(w, q, With(w.payments[q.id], q, Some(id), Failed, CAPTURED).(refundFailed := true))
  {
    hide PaymentOk;
    RefusalIsNoted(w.payments[q.id], q, id);
  }

  lemma RefusalIsNoted(pay: Payment, q: Request, id: string)
    requires PaymentOk(PAID, pay) && pay.status.CAPTURED? && NewReply(pay, Refused(id))
    ensures MarkRefundFailed(With(pay, q, Some(id), Pending, REFUND_PENDING), id) ==
            Some(With(pay, q, Some(id), Failed, CAPTURED).(refundFailed := true))
  {
    var before, after := With(pay, q, Some(id), Pending, REFUND_PENDING), With(pay, q, Some(id), Failed, CAPTURED);
    LastIsFound(pay.refunds, before.refunds[|pay.refunds|]);
    NoneIsOpen(pay, after.refunds[|pay.refunds|]);
    assert before.refunds[|pay.refunds| := after.refunds[|pay.refunds|]] == after.refunds;
  }

  /** A refund that was made: `withdrawn` credits, with a note. */
  lemma MadeSettles(w: Shop, q: Request, id: string, spare: string, fy: int -> int)
    requires Claims(w, q) && NewReply(w.payments[q.id], Made(id))
    ensures var before := Paying(w, q, With(w.payments[q.id], q, Some(id), Pending, REFUND_PENDING));
            var w' := Next(before, Refunded(q.id, id, None, q.repliedAt, spare), fy);
            var all := w.payments[q.id].refunded + q.amount == w.payments[q.id].amount;
            && EntryAdded(w, w', q, Made(id))
            && w'.payments[q.id].status == (if all then PayREFUNDED else CAPTURED)
            && (w'.purchases[q.id].status.REFUNDED? <==> all)
            && w'.payments - {q.id} == w.payments - {q.id}
  {
    var pay := w.payments[q.id];
    var before := With(pay, q, Some(id), Pending, REFUND_PENDING);
    LastIsFound(pay.refunds, before.refunds[|pay.refunds|]);
    var w' := Next(Paying(w, q, before), Refunded(q.id, id, None, q.repliedAt, spare), fy);
    var settled := w'.payments[q.id].refunds[|pay.refunds|];
    assert w'.payments[q.id].refunds == pay.refunds + [settled];
    NoneIsOpen(pay, settled);
  }

  lemma OneStep(w: Shop, a: Step, fy: int -> int)
    ensures RunShop(w, [a], fy) == Next(w, a, fy)
  {
    assert RunShop(Next(w, a, fy), [], fy) == Next(w, a, fy);
  }

  lemma TwoSteps(w: Shop, a: Step, b: Step, fy: int -> int)
    ensures RunShop(w, [a, b], fy) == Next(Next(w, a, fy), b, fy)
  {
    assert [a, b][1..] == [b];
    OneStep(Next(w, a, fy), b, fy);
  }

  lemma ThreeSteps(w: Shop, a: Step, b: Step, c: Step, fy: int -> int)
    ensures RunShop(w, [a, b, c], fy) == Next(Next(Next(w, a, fy), b, fy), c, fy)
  {
    assert [a, b, c][1..] == [b, c];
    TwoSteps(Next(w, a, fy), b, c, fy);
  }

  /** Only document numbers depend on the financial year. */
  lemma NoYear(w: Shop, step: Step, f: int -> int, g: int -> int)
    requires step.Claimed? || step.Released? || step.Accepted? || step.RefundFailed?
    ensures Next(w, step, f) == Next(w, step, g)
  {
  }

  lemma NotClaimed(w: Shop, q: Request, fy: int -> int)
    requires q.id !in w.payments || Claim(w.payments[q.id], q.key, q.amount, q.toWithdraw, q.claimedAt).None?
    ensures Next(w, ClaimStep(q), fy) == w
  {
  }

  lemma RefundStep(w: Shop, q: Request, id: string, spare: string, fy: int -> int)
    ensures Next(w, Refunded(q.id, id, None, q.repliedAt, spare), fy) == MarkRefunded(w, q.id, id, None, q.repliedAt, spare, fy).0
  {
  }

  /** A request whose claim is given and that nobody interrupts adds one entry, which stands as the
      gateway replied. The refunded total grows by the amount exactly when the refund was made; the
      payment is open for another refund again unless the gateway still has this one, or all is
      refunded; only a refusal flags it; and only a refund that was made touches anything else. */
  lemma RequestEnds(w: Shop, q: Request, reply: Reply, spare: string, fy: int -> int)
    requires Claims(w, q) && NewReply(w.payments[q.id], reply)
    ensures var w' := RunShop(w, [ClaimStep(q)] + ReplySteps(q, reply, spare), fy);
            var all := w.payments[q.id].refunded + q.amount == w.payments[q.id].amount;
            && EntryAdded(w, w', q, reply)
            && w'.payments[q.id].status == (if reply.Waiting? then REFUND_PENDING else if reply.Made? && all then PayREFUNDED else CAPTURED)
            && (w'.purchases[q.id].status.REFUNDED? <==> reply.Made? && all)
            && (!reply.Made? ==> w' == w.(payments := w.payments[q.id := w'.payments[q.id]]))
            && w'.payments - {q.id} == w.payments - {q.id}
  {
    hide Next, PaymentOk;
    ClaimAdds(w, q, fy);
    var steps := [ClaimStep(q)] + ReplySteps(q, reply, spare);
    match reply
    case Unreachable =>
      ReleaseCloses(w, q, fy);
      TwoSteps(w, steps[0], steps[1], fy);
    case Waiting(id) =>
      AcceptNames(w, q, id, fy);
      TwoSteps(w, steps[0], steps[1], fy);
    case Made(id) =>
      AcceptNames(w, q, id, fy);
      MadeSettles(w, q, id, spare, fy);
      ThreeSteps(w, steps[0], steps[1], steps[2], fy);
    case Refused(id) =>
      AcceptNames(w, q, id, fy);
      RefusalCloses(w, q, id, fy);
      ThreeSteps(w, steps[0], steps[1], steps[2], fy);
  }

  /** The entry of the request, after the others; the total, and the flag. */
  ghost predicate EntryAdded(w: Shop, w': Shop, q: Request, reply: Reply)
    requires q.id in w.payments
  {
    && q.id in w'.payments && q.id in w'.purchases
    && var pay, pay' := w.payments[q.id], w'.payments[q.id];
       && |pay'.refunds| == |pay.refunds| + 1 && pay'.refunds[..|pay.refunds|] == pay.refunds
       && var r := pay'.refunds[|pay.refunds|];
          && r.key == q.key && r.amount == q.amount && r.status == EntryAfter(reply)
          && r.id == (if reply.Unreachable? then None else Some(reply.id))
          && (r.note.Some? <==> reply.Made?)
          && pay'.refunded == pay.refunded + (if reply.Made? then q.amount else 0)
          && pay'.refundFailed == reply.Refused?
  }
}

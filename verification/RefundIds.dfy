/** Gateway refund ids: when each is applied at most once, and the answers that can spoil it. */
module RefundIds {
  import opened Wrappers
  import opened Purchases
  import opened ShopInvariant
  import opened ShopRuns
  import opened ShopSystem
  import RefundProtocol

  // ---- Recognising a refund that was applied -----------------------------------------------------

  /** A report of this refund is known for one that was processed: its entry is the first with the id. */
  predicate Recognised(refunds: seq<Refund>, refundId: string) {
    var i := FindId(refunds, refundId);
    i.Some? && refunds[i.value].status.Processed?
  }

  /** A report with an amount counts exactly when the refund is not recognised. */
  lemma CountsIffNotRecognised(pay: Payment, refundId: string, amount: int, now: int, key: string)
    requires amount > 0
    ensures RefundTarget(pay, refundId, Some(amount), now, key).None? <==> Recognised(pay.refunds, refundId)
  {
  }

  /** What is recognised in `a` is recognised in `b`. */
  ghost predicate Remembers(a: seq<Refund>, b: seq<Refund>) { forall x :: Recognised(a, x) ==> Recognised(b, x) }

  /** Where an id is found when one entry changes its own. */
  lemma {:induction false} FindAfterChange(refunds: seq<Refund>, j: nat, r: Refund, x: string)
    requires j < |refunds|
    ensures var before, after := FindId(refunds, x), FindId(refunds[j := r], x);
            && (r.id != Some(x) && before != Some(j) ==> after == before)
            && (r.id == Some(x) ==> after == Some(if before.Some? && before.value < j then before.value else j))
    decreases |refunds|
  {
    if j > 0 {
      assert refunds[j := r][1..] == refunds[1..][j - 1 := r];
      FindAfterChange(refunds[1..], j - 1, r, x);
    } else {
      assert refunds[0 := r][1..] == refunds[1..];
    }
  }

  /** When its first entry takes another id, the next one with the id is found. */
  lemma {:induction false} FindNext(refunds: seq<Refund>, j: nat, r: Refund, x: string)
    requires j < |refunds| && r.id != Some(x) && FindId(refunds, x) == Some(j)
    ensures FindId(refunds[j := r], x) == FindIdFrom(refunds, j + 1, x)
    decreases |refunds|
  {
    if j > 0 {
      assert refunds[j := r][1..] == refunds[1..][j - 1 := r];
      FindNext(refunds[1..], j - 1, r, x);
      assert refunds[1..][j..] == refunds[j + 1..];
    } else {
      assert refunds[0 := r][1..] == refunds[1..];
    }
  }

  lemma FoundByThen(refunds: seq<Refund>, j: nat, x: string)
    requires j < |refunds|
    ensures refunds[j].id == Some(x) ==> FindId(refunds, x).Some? && FindId(refunds, x).value <= j
    ensures FindId(refunds, x) == Some(j) ==> refunds[j].id == Some(x)
  {
    if j > 0 { FoundByThen(refunds[1..], j - 1, x); }
  }

  /** The first entry with the id at or after place `i`. */
  function FindIdFrom(refunds: seq<Refund>, i: nat, refundId: string): (k: Option<nat>)
    requires i <= |refunds|
    ensures k.Some? ==> i <= k.value < |refunds|
  {
    var k := FindId(refunds[i..], refundId);
    if k.None? then None else Some(i + k.value)
  }

  lemma FindAfterAppend(refunds: seq<Refund>, r: Refund, x: string)
    ensures var before := FindId(refunds, x);
            FindId(refunds + [r], x) ==
            if before.Some? then before else if r.id == Some(x) then Some(|refunds|) else None
  {
    if refunds != [] {
      assert (refunds + [r])[1..] == refunds[1..] + [r];
      FindAfterAppend(refunds[1..], r, x);
    } else {
      assert (refunds + [r])[1..] == [];
    }
  }

  /** An entry that is not processed, and keeps its id or takes one no entry has, is no matter. */
  lemma ChangeRemembers(refunds: seq<Refund>, j: nat, r: Refund)
    requires j < |refunds| && !refunds[j].status.Processed?
    requires r.id == refunds[j].id || (r.id.Some? && FindId(refunds, r.id.value).None?) || (r.id.Some? && FindId(refunds, r.id.value) == Some(j))
    ensures Remembers(refunds, refunds[j := r])
  {
    forall x | Recognised(refunds, x) ensures Recognised(refunds[j := r], x) {
      FindAfterChange(refunds, j, r, x);
      FoundByThen(refunds, j, x);
    }
  }

  lemma AppendRemembers(refunds: seq<Refund>, r: Refund)
    ensures Remembers(refunds, refunds + [r])
  {
    forall x | Recognised(refunds, x) ensures Recognised(refunds + [r], x) { FindAfterAppend(refunds, r, x); }
  }

  // ---- The gateway's answer ------------------------------------------------------------------------

  /** The answer gives its id to the claim's entry. It spoils the record when that entry was processed
      for another refund, which no later processed entry stands for; or when it was not processed, and
      comes before the processed entry of the very refund the answer names. */
  predicate Spoils(refunds: seq<Refund>, key: string, refundId: string) {
    var j := FindKey(refunds, key);
    && j.Some?
    && (if refunds[j.value].status.Processed? then
          && refunds[j.value].id.Some? && refunds[j.value].id != Some(refundId)
          && FindId(refunds, refunds[j.value].id.value) == Some(j.value)
          && var k := FindIdFrom(refunds, j.value + 1, refunds[j.value].id.value);
             !(k.Some? && refunds[k.value].status.Processed?)
        else
          Recognised(refunds, refundId) && j.value < FindId(refunds, refundId).value)
  }

  lemma KeyIsFound(refunds: seq<Refund>, i: nat)
    requires RefundProtocol.KeysDistinct(refunds) && i < |refunds|
    ensures FindKey(refunds, refunds[i].key) == Some(i)
  {
    if i > 0 { KeyIsFound(refunds[1..], i - 1); }
  }

  /** What an answer does to the entries: at most the claim's entry changes, in id and status. */
  lemma AnswerIs(pay: Payment, key: string, refundId: string)
    requires RefundProtocol.KeysDistinct(pay.refunds)
    ensures var j, after := FindKey(pay.refunds, key), MarkPending(pay, key, refundId).0.refunds;
            && (j.None? ==> after == pay.refunds)
            && (j.Some? ==> exists r ::
                  && after == pay.refunds[j.value := r] && r.id == Some(refundId)
                  && (r.status.Processed? <==> pay.refunds[j.value].status.Processed?))
  {
    var i, j := FindRequested(pay.refunds, key), FindKey(pay.refunds, key);
    if i.Some? { KeyIsFound(pay.refunds, i.value); }
    if pay.status.REFUND_REQUESTED? && i.Some? {
      var r := pay.refunds[i.value].(id := Some(refundId), status := Pending);
      assert MarkPending(pay, key, refundId).0.refunds == pay.refunds[j.value := r];
    } else if j.Some? {
      var r := pay.refunds[j.value].(id := Some(refundId));
      assert MarkPending(pay, key, refundId).0.refunds == pay.refunds[j.value := r];
    }
  }

  /** Renaming an entry leaves every other refund recognised as it was. */
  lemma OthersStay(refunds: seq<Refund>, j: nat, r: Refund, refundId: string)
    requires j < |refunds| && r.id == Some(refundId)
    ensures forall x :: x != refundId && refunds[j].id != Some(x) ==> (Recognised(refunds[j := r], x) <==> Recognised(refunds, x))
  {
    forall x | x != refundId && refunds[j].id != Some(x) ensures Recognised(refunds[j := r], x) <==> Recognised(refunds, x) {
      FindAfterChange(refunds, j, r, x);
      FoundByThen(refunds, j, x);
    }
  }

  lemma ProcessedRenamed(refunds: seq<Refund>, j: nat, r: Refund, refundId: string)
    requires j < |refunds| && r.id == Some(refundId) && r.status.Processed? && refunds[j].status.Processed?
    ensures Recognised(refunds, refundId) ==> Recognised(refunds[j := r], refundId)
    ensures refunds[j].id.Some? && refunds[j].id != Some(refundId) ==>
              var was := refunds[j].id.value;
              var k := FindIdFrom(refunds, j + 1, was);
              Recognised(refunds[j := r], was) <==>
              if FindId(refunds, was) == Some(j) then k.Some? && refunds[k.value].status.Processed? else Recognised(refunds, was)
  {
    FindAfterChange(refunds, j, r, refundId);
    if refunds[j].id.Some? {
      FindAfterChange(refunds, j, r, refunds[j].id.value);
      FoundByThen(refunds, j, refunds[j].id.value);
      if r.id != refunds[j].id && FindId(refunds, refunds[j].id.value) == Some(j) { FindNext(refunds, j, r, refunds[j].id.value); }
    }
  }

  lemma UnprocessedRenamed(refunds: seq<Refund>, j: nat, r: Refund, refundId: string, x: string)
    requires j < |refunds| && r.id == Some(refundId) && !r.status.Processed? && !refunds[j].status.Processed? && Recognised(refunds, x)
    ensures Recognised(refunds[j := r], x) <==> !(x == refundId && j < FindId(refunds, refundId).value)
  {
    FindAfterChange(refunds, j, r, x);
    FoundByThen(refunds, j, x);
  }

  lemma RenamedRemembersIff(refunds: seq<Refund>, j: nat, r: Refund, refundId: string)
    requires j < |refunds| && r.id == Some(refundId) && (r.status.Processed? <==> refunds[j].status.Processed?)
    requires FindKey(refunds, refunds[j].key) == Some(j)
    ensures Remembers(refunds, refunds[j := r]) <==> !Spoils(refunds, refunds[j].key, refundId)
  {
    if refunds[j].status.Processed? {
      OthersStay(refunds, j, r, refundId);
      ProcessedRenamed(refunds, j, r, refundId);
      hide Recognised, FindIdFrom, FindId;
      if Spoils(refunds, refunds[j].key, refundId) {
        FoundIsRecognised(refunds, j);
        assert !Recognised(refunds[j := r], refunds[j].id.value);
      } else {
        forall x | Recognised(refunds, x) ensures Recognised(refunds[j := r], x) {
        }
      }
    } else {
      forall x | Recognised(refunds, x)
        ensures Recognised(refunds[j := r], x) <==> !(x == refundId && j < FindId(refunds, refundId).value)
      {
        UnprocessedRenamed(refunds, j, r, refundId, x);
      }
    }
  }

  lemma FoundIsRecognised(refunds: seq<Refund>, j: nat)
    requires j < |refunds| && refunds[j].status.Processed? && refunds[j].id.Some?
    requires FindId(refunds, refunds[j].id.value) == Some(j)
    ensures Recognised(refunds, refunds[j].id.value)
  {
  }

  /** After an answer some refund that was applied can be counted again if and only if the answer spoils
      the record. */
  lemma AnswerCountsAgainIff(pay: Payment, key: string, refundId: string, amount: int, now: int, newKey: string)
    requires RefundProtocol.KeysDistinct(pay.refunds) && amount > 0
    ensures (exists x :: RefundTarget(pay, x, Some(amount), now, newKey).None?
                         && RefundTarget(MarkPending(pay, key, refundId).0, x, Some(amount), now, newKey).Some?)
            <==> Spoils(pay.refunds, key, refundId)
  {
    var pay' := MarkPending(pay, key, refundId).0;
    AnswerRemembersIff(pay, key, refundId);
    if Spoils(pay.refunds, key, refundId) {
      var x :| Recognised(pay.refunds, x) && !Recognised(pay'.refunds, x);
      CountsIffNotRecognised(pay, x, amount, now, newKey);
      CountsIffNotRecognised(pay', x, amount, now, newKey);
    } else {
      forall x | RefundTarget(pay, x, Some(amount), now, newKey).None? ensures RefundTarget(pay', x, Some(amount), now, newKey).None? {
        CountsIffNotRecognised(pay, x, amount, now, newKey);
        CountsIffNotRecognised(pay', x, amount, now, newKey);
      }
    }
  }

  lemma AnswerRemembersIff(pay: Payment, key: string, refundId: string)
    requires RefundProtocol.KeysDistinct(pay.refunds)
    ensures Remembers(pay.refunds, MarkPending(pay, key, refundId).0.refunds) <==> !Spoils(pay.refunds, key, refundId)
  {
    var j, after := FindKey(pay.refunds, key), MarkPending(pay, key, refundId).0.refunds;
    AnswerIs(pay, key, refundId);
    if j.Some? {
      var r :| after == pay.refunds[j.value := r] && r.id == Some(refundId)
               && (r.status.Processed? <==> pay.refunds[j.value].status.Processed?);
      RenamedRemembersIff(pay.refunds, j.value, r, refundId);
    }
  }

  // ---- The other steps -----------------------------------------------------------------------------

  lemma FailureRemembers(pay: Payment, refundId: string)
    requires MarkRefundFailed(pay, refundId).Some?
    ensures Remembers(pay.refunds, MarkRefundFailed(pay, refundId).value.refunds)
  {
    var i := FindId(pay.refunds, refundId);
    var j := if i.Some? then i else FindLost(pay.refunds, None);
    if j.Some? { ChangeRemembers(pay.refunds, j.value, pay.refunds[j.value].(id := Some(refundId), status := Failed)); }
  }

  lemma ReleaseRemembers(pay: Payment, key: string)
    requires Release(pay, key).Some?
    ensures Remembers(pay.refunds, Release(pay, key).value.refunds)
  {
    var i := FindRequested(pay.refunds, key).value;
    ChangeRemembers(pay.refunds, i, pay.refunds[i].(status := Failed));
  }

  lemma RefundRemembers(pay: Payment, refundId: string, amount: Option<int>, now: int, key: string, withdrawn: int, note: Number)
    requires RefundTarget(pay, refundId, amount, now, key).Some?
    ensures var (refunds, i) := RefundTarget(pay, refundId, amount, now, key).value;
            var after := Settled(pay, refunds, i, refundId, withdrawn, note).refunds;
            Remembers(pay.refunds, after) && Recognised(after, refundId) && !Recognised(pay.refunds, refundId)
  {
    var (refunds, i) := RefundTarget(pay, refundId, amount, now, key).value;
    var r := refunds[i].(id := Some(refundId), status := Processed, withdrawn := withdrawn, note := Some(note));
    if refunds != pay.refunds {
      AppendRemembers(pay.refunds, refunds[i]);
      FindAfterAppend(pay.refunds, refunds[i], refundId);
    }
    ChangeRemembers(refunds, i, r);
    FindAfterChange(refunds, i, r, refundId);
  }

  // ---- Runs ------------------------------------------------------------------------------------

  predicate Knows(w: Shop, id: string, refundId: string) {
    id in w.payments && Recognised(w.payments[id].refunds, refundId)
  }

  /** Nothing applied is forgotten. */
  ghost predicate RemembersAll(w: Shop, w': Shop) { forall id, refundId :: Knows(w, id, refundId) ==> Knows(w', id, refundId) }

  predicate SpoiledBy(w: Shop, step: Step) {
    step.Accepted? && step.id in w.payments && Spoils(w.payments[step.id].refunds, step.key, step.refundId)
  }

  ghost predicate Unspoiled(w: Shop, steps: seq<Step>, fy: int -> int)
    decreases |steps|
  {
    steps == [] || (!SpoiledBy(w, steps[0]) && Unspoiled(Next(w, steps[0], fy), steps[1..], fy))
  }

  /** Whether this step applies the refund. */
  predicate AppliesNow(w: Shop, step: Step, fy: int -> int, id: string, refundId: string) {
    step.Refunded? && step.id == id && step.refundId == refundId
    && MarkRefunded(w, id, refundId, step.reported, step.now, step.key, fy).1.refunded
  }

  function TimesApplied(w: Shop, steps: seq<Step>, fy: int -> int, id: string, refundId: string): nat
    decreases |steps|
  {
    if steps == [] then 0
    else (if AppliesNow(w, steps[0], fy, id, refundId) then 1 else 0) + TimesApplied(Next(w, steps[0], fy), steps[1..], fy, id, refundId)
  }

  lemma OnePayment(w: Shop, w': Shop, id: string, pay: Payment)
    requires id in w.payments && w'.payments == w.payments[id := pay] && Remembers(w.payments[id].refunds, pay.refunds)
    ensures RemembersAll(w, w')
  {
  }

  lemma SameRefunds(w: Shop, w': Shop)
    requires w.payments.Keys <= w'.payments.Keys && forall id <- w.payments :: w'.payments[id].refunds == w.payments[id].refunds
    ensures RemembersAll(w, w')
  {
  }

  lemma RefundedRemembers(w: Shop, step: Step, fy: int -> int)
    requires step.Refunded? && Applies(w, step.id, step.refundId, step.reported, step.now, step.key)
    ensures RemembersAll(w, Next(w, step, fy)) && Knows(Next(w, step, fy), step.id, step.refundId) && !Knows(w, step.id, step.refundId)
  {
    hide Remembers, Recognised, Settled;
    var pay, p := w.payments[step.id], w.purchases[step.id];
    var (refunds, i) := RefundTarget(pay, step.refundId, step.reported, step.now, step.key).value;
    var withdrawn := WithdrawCredits(w, step.id, p, pay.refunded + refunds[i].amount >= pay.amount, refunds[i].toWithdraw, step.refundId).1;
    var note := NextNumber(w.counters, NotesOf(fy(step.now)));
    RefundRemembers(pay, step.refundId, step.reported, step.now, step.key, withdrawn, note);
    OnePayment(w, Next(w, step, fy), step.id, Settled(pay, refunds, i, step.refundId, withdrawn, note));
  }

  lemma AcceptedRemembers(w: Shop, owner: string -> Id, id: string, key: string, refundId: string)
    requires ShopOk(w, owner) && id in w.payments && !Spoils(w.payments[id].refunds, key, refundId)
    ensures RemembersAll(w, w.(payments := w.payments[id := MarkPending(w.payments[id], key, refundId).0]))
  {
    PaymentOf(w, owner, id);
    hide ShopOk, Remembers, Spoils, MarkPending;
    AnswerRemembersIff(w.payments[id], key, refundId);
    OnePayment(w, w.(payments := w.payments[id := MarkPending(w.payments[id], key, refundId).0]), id, MarkPending(w.payments[id], key, refundId).0);
  }

  lemma PaymentStepRemembers(w: Shop, owner: string -> Id, step: Step, fy: int -> int)
    requires ShopOk(w, owner) && !SpoiledBy(w, step)
    requires step.Claimed? || step.Released? || step.Accepted? || step.RefundFailed?
    ensures RemembersAll(w, Next(w, step, fy))
  {
    hide ShopOk, Remembers, Recognised, Spoils, Release, MarkPending, MarkRefundFailed;
    if step.id in w.payments {
      var pay := w.payments[step.id];
      match step
      case Claimed(id, key, amount, toWithdraw, now) =>
        AppendRemembers(pay.refunds, Refund(key, None, amount, Requested, toWithdraw, 0, now, None));
        if Claim(pay, key, amount, toWithdraw, now).Some? {
          OnePayment(w, Next(w, step, fy), id, Claim(pay, key, amount, toWithdraw, now).value);
        }
      case Released(id, key) =>
        if Release(pay, key).Some? {
          ReleaseRemembers(pay, key);
          OnePayment(w, Next(w, step, fy), id, Release(pay, key).value);
        }
      case Accepted(id, key, refundId) => AcceptedRemembers(w, owner, id, key, refundId);
      case RefundFailed(id, refundId) =>
        if MarkRefundFailed(pay, refundId).Some? {
          FailureRemembers(pay, refundId);
          OnePayment(w, Next(w, step, fy), id, MarkRefundFailed(pay, refundId).value);
        }
    }
  }

  lemma PaidRemembers(w: Shop, step: Step, fy: int -> int)
    requires step.Paid? && (Payable(w, step.id) ==> PurchaseOk(w, step.id))
    ensures RemembersAll(w, Next(w, step, fy))
  {
    if Payable(w, step.id) { MarkPaidIs(w, step.id, step.paymentId, step.now, step.lot, fy); }
    SameRefunds(w, Next(w, step, fy));
  }

  lemma DocumentRemembers(w: Shop, owner: string -> Id, step: Step, fy: int -> int)
    requires ShopOk(w, owner) && (step.Invoiced? || step.Noted?)
    ensures RemembersAll(w, Next(w, step, fy))
  {
    hide ShopOk;
    if step.Invoiced? { InvoiceIsThere(w, owner, step.id, step.at, fy); }
    if step.Noted? { NoteIsThere(w, owner, step.id, step.key, step.at, fy); }
  }

  lemma OtherRemembers(w: Shop, step: Step, fy: int -> int)
    requires step.AttemptFailed? || step.Expired? || step.NewCoupon? || step.CountUses? || step.Moved?
             || (step.Ordered? && step.id !in w.payments)
    ensures RemembersAll(w, Next(w, step, fy))
  {
    SameRefunds(w, Next(w, step, fy));
  }

  lemma StepRemembers(w: Shop, owner: string -> Id, step: Step, fy: int -> int)
    requires ShopOk(w, owner) && Allowed(w, owner, step) && !SpoiledBy(w, step)
    ensures RemembersAll(w, Next(w, step, fy))
  {
    if step.Refunded? {
      if Applies(w, step.id, step.refundId, step.reported, step.now, step.key) { RefundedRemembers(w, step, fy); }
    } else if step.Claimed? || step.Released? || step.Accepted? || step.RefundFailed? {
      PaymentStepRemembers(w, owner, step, fy);
    } else if step.Paid? {
      if Payable(w, step.id) { assert PurchaseOk(w, step.id); }
      PaidRemembers(w, step, fy);
    } else if step.Invoiced? || step.Noted? {
      DocumentRemembers(w, owner, step, fy);
    } else {
      OtherRemembers(w, step, fy);
    }
  }

  lemma {:induction false} RunAppliesOnce(w: Shop, owner: string -> Id, steps: seq<Step>, fy: int -> int, id: string, refundId: string)
    requires ShopOk(w, owner) && AllowedRun(w, owner, steps, fy) && Unspoiled(w, steps, fy)
    ensures TimesApplied(w, steps, fy, id, refundId) <= if Knows(w, id, refundId) then 0 else 1
    decreases |steps|
  {
    hide ShopOk, MarkRefunded;
    if steps != [] {
      StepRemembers(w, owner, steps[0], fy);
      StepKeepsOk(w, owner, steps[0], fy);
      if AppliesNow(w, steps[0], fy, id, refundId) { AppliedIsNew(w, steps[0], fy, id, refundId); }
      RunAppliesOnce(Next(w, steps[0], fy), owner, steps[1..], fy, id, refundId);
    }
  }

  /** A refund that is applied was not recognised before, and is from then on. */
  lemma AppliedIsNew(w: Shop, step: Step, fy: int -> int, id: string, refundId: string)
    requires AppliesNow(w, step, fy, id, refundId)
    ensures !Knows(w, id, refundId) && Knows(Next(w, step, fy), id, refundId)
  {
    RefundedRemembers(w, step, fy);
  }

  /** As long as no answer spoils the record, each gateway refund is applied at most once in a whole run,
      however often and by whomever it is reported. */
  lemma EachRefundOnce(owner: string -> Id, steps: seq<Step>, fy: int -> int, id: string, refundId: string)
    requires AllowedRun(EMPTY_SHOP, owner, steps, fy) && Unspoiled(EMPTY_SHOP, steps, fy)
    ensures TimesApplied(EMPTY_SHOP, steps, fy, id, refundId) <= 1
  {
    EmptyShopOk(owner);
    RunAppliesOnce(EMPTY_SHOP, owner, steps, fy, id, refundId);
  }
}

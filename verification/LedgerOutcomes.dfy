/** When a credit operation goes through, and when and why it does not. */
module CreditOutcomes {
  import opened Wrappers
  import opened CreditLedger
  import opened CreditInvariant
  import opened CreditRuns
  import opened CreditEffects

  // ---- Keys of parts ---------------------------------------------------------------------------

  lemma DigitDiffers(a: nat, b: nat)
    requires a < 10 && b < 10 && DIGITS[a] == DIGITS[b]
    ensures a == b
  {
    assert DIGITS[a] == '0' + a as char && DIGITS[b] == '0' + b as char;
  }

  lemma LastDigit(n: nat)
    ensures Digits(n) == (if n < 10 then [] else Digits(n / 10)) + [DIGITS[n % 10]]
  {
  }

  lemma {:induction false} DigitsDiffer(a: nat, b: nat)
    ensures Digits(a) == Digits(b) ==> a == b
  {
    LastDigit(a);
    LastDigit(b);
    if Digits(a) == Digits(b) {
      var n := |Digits(a)| - 1;
      assert Digits(a)[n] == DIGITS[a % 10] && Digits(b)[n] == DIGITS[b % 10];
      DigitDiffers(a % 10, b % 10);
      assert Digits(a)[..n] == (if a < 10 then [] else Digits(a / 10));
      assert Digits(b)[..n] == (if b < 10 then [] else Digits(b / 10));
      HasDigits(a / 10);
      HasDigits(b / 10);
      if a >= 10 && b >= 10 { DigitsDiffer(a / 10, b / 10); }
    }
  }

  lemma HasDigits(n: nat)
    ensures Digits(n) != []
  {
  }

  lemma PartKeysDiffer(key: string, i: nat, j: nat)
    requires i != j
    ensures PartKey(key, i) != PartKey(key, j)
  {
    DigitsDiffer(i, j);
    if i > 0 { assert PartKey(key, i)[|key| + 1..] == Digits(i); }
    if j > 0 { assert PartKey(key, j)[|key| + 1..] == Digits(j); }
  }

  // ---- Deductions ------------------------------------------------------------------------------

  /** The credits that can be spent now. */
  function Spendable(lots: seq<Lot>, now: int): int {
    if lots == [] then 0 else (if CanPay(lots[0], now) then lots[0].remaining else 0) + Spendable(lots[1..], now)
  }

  lemma {:induction false} UsableLotsSum(lots: seq<Lot>, now: int)
    ensures SumRemaining(UsableLots(lots, now)) == Spendable(lots, now)
  {
    if lots != [] {
      UsableLotsSum(lots[1..], now);
      InsertKeeps(lots[0], UsableLots(lots[1..], now));
    }
  }

  /** A part whose turn comes, as the parts before it are too small, and whose key is taken. */
  ghost predicate PartBlocked(ledger: seq<Entry>, lots: seq<Lot>, i: nat, left: int, keys: nat -> string, k: nat) {
    i <= k < |lots| && SumRemaining(lots[i..k]) < left && HasKey(ledger, keys(k))
  }

  lemma SumCons(lots: seq<Lot>, i: nat, k: nat)
    requires i < k <= |lots|
    ensures SumRemaining(lots[i..k]) == lots[i].remaining + SumRemaining(lots[i + 1..k])
  {
    assert lots[i..k][1..] == lots[i + 1..k];
  }

  lemma {:induction false} SumPositive(lots: seq<Lot>)
    requires forall l <- lots :: l.remaining > 0
    ensures SumRemaining(lots) >= 0
  {
    if lots != [] {
      forall l | l in lots[1..] ensures l.remaining > 0 { assert l in lots; }
      SumPositive(lots[1..]);
    }
  }

  lemma BlockedLater(s: Store, user: Id, lots: seq<Lot>, i: nat, left: int, keys: nat -> string, k: nat)
    requires i < k < |lots| && left > 0 && (forall l <- lots :: l.remaining > 0) && keys(i) != keys(k)
    ensures PartBlocked(TakeOne(s, user, lots, i, left, keys).ledger, lots, i + 1, left - Min(left, lots[i].remaining), keys, k) <==>
            PartBlocked(s.ledger, lots, i, left, keys, k)
  {
    SumCons(lots, i, k);
    SumPositive(lots[i + 1..k]);
    var e := WithdrawEntry(user, lots[i].lotId, Min(left, lots[i].remaining), keys(i));
    assert TakeOne(s, user, lots, i, left, keys).ledger == s.ledger + [e];
    assert HasKey(s.ledger + [e], keys(k)) <==> HasKey(s.ledger, keys(k)) by {
      assert forall x :: x in s.ledger + [e] <==> x in s.ledger || x == e;
    }
  }

  lemma NothingBlocked(s: Store, lots: seq<Lot>, i: nat, left: int, keys: nat -> string)
    requires i <= |lots| && left >= 0 && (forall l <- lots :: l.remaining > 0) && (left == 0 || i == |lots|)
    ensures forall k: nat :: !PartBlocked(s.ledger, lots, i, left, keys, k)
  {
    forall k: nat | i <= k < |lots| ensures SumRemaining(lots[i..k]) >= 0 {
      forall l | l in lots[i..k] ensures l.remaining > 0 { assert l in lots; }
      SumPositive(lots[i..k]);
    }
  }

  lemma {:induction false} TakeFromFailsIff(s: Store, user: Id, lots: seq<Lot>, i: nat, left: int, keys: nat -> string)
    requires i <= |lots| && left >= 0 && forall l <- lots :: l.remaining > 0
    requires forall j: nat, k: nat :: j != k ==> keys(j) != keys(k)
    ensures TakeFrom(s, user, lots, i, left, keys).None? <==> exists k: nat :: PartBlocked(s.ledger, lots, i, left, keys, k)
    decreases |lots| - i
  {
    if left == 0 || i == |lots| {
      NothingBlocked(s, lots, i, left, keys);
      TakeFromEnds(s, user, lots, i, left, keys);
    } else if HasKey(s.ledger, keys(i)) {
      TakeFromUnfolds(s, user, lots, i, left, keys);
      assert lots[i..i] == [];
      assert PartBlocked(s.ledger, lots, i, left, keys, i);
    } else {
      var s', left', next := TakeOne(s, user, lots, i, left, keys), left - Min(left, lots[i].remaining), i + 1;
      TakeFromFailsIff(s', user, lots, next, left', keys);
      TakeFromUnfolds(s, user, lots, i, left, keys);
      forall k: nat ensures PartBlocked(s'.ledger, lots, next, left', keys, k) <==> PartBlocked(s.ledger, lots, i, left, keys, k) {
        if i < k < |lots| { BlockedLater(s, user, lots, i, left, keys, k); }
      }
    }
  }

  /** A deduction of no credits is an error, and one that happened is done already. A new one is refused
      exactly when the lots that can pay have fewer credits than are asked for; otherwise it is done, unless
      a part whose turn comes finds its key taken. */
  lemma DeductOutcomeIff(s: Store, owner: string -> Id, op: Op)
    requires Inv(s, owner) && op.Deduct? && Disciplined(s, owner, op)
    ensures var (s', out) := Apply(s, op);
            var a := AccountOf(s, op.user);
            var first := op.credits > 0 && !HasKey(s.ledger, op.key);
            && (out.InvalidAmount? <==> op.credits <= 0)
            && (out.AlreadyDone? <==> op.credits > 0 && HasKey(s.ledger, op.key))
            && (out.InsufficientCredits? <==> first && Spendable(a.lots, op.now) < op.credits)
            && (out.DuplicateKey? <==>
                  && first && Spendable(a.lots, op.now) >= op.credits
                  && exists k: nat :: PartBlocked(s.ledger, UsableLots(a.lots, op.now), 0, op.credits, PartKeys(op.key), k))
            && (out.Done? <==> first && !out.InsufficientCredits? && !out.DuplicateKey?)
            && (!out.Done? ==> s'.ledger == s.ledger && a == AccountOf(s', op.user).(version := a.version))
  {
    var lots, s1 := UsableLots(AccountOf(s, op.user).lots, op.now), Bump(s, op.user);
    UsableLotsSum(AccountOf(s, op.user).lots, op.now);
    UsableLotsFacts(AccountOf(s, op.user).lots, op.now);
    forall j: nat, k: nat | j != k ensures PartKeys(op.key)(j) != PartKeys(op.key)(k) { PartKeysDiffer(op.key, j, k); }
    if op.credits > 0 { TakeFromFailsIff(s1, op.user, lots, 0, op.credits, PartKeys(op.key)); }
    assert s1.ledger == s.ledger;
    hide TakeFrom, UsableLots, Spendable, PartBlocked, Inv, HasKey;
  }

  // ---- Retries ---------------------------------------------------------------------------------

  lemma {:induction false} FindAppended(ledger: seq<Entry>, e: Entry)
    requires FindEntry(ledger, e.key).None?
    ensures FindEntry(ledger + [e], e.key) == Some(e)
  {
    if ledger != [] {
      assert (ledger + [e])[1..] == ledger[1..] + [e];
      assert ledger[0] in ledger && forall x <- ledger[1..] :: x in ledger;
      FindAppended(ledger[1..], e);
    } else {
      assert ([] + [e])[0] == e;
    }
  }

  /** What a retry of an operation is answered. */
  function Again(op: Op, first: Outcome): Outcome {
    match op
    case Grant(_, _, _, _, _, _) => AlreadyDone
    case Reserve(_, _, _) => if first.ReservedFrom? then ReservedFrom(first.lot, false) else first
    case Settle(_, _, _) => if first.Settled? then Settled(first.kind, false) else first
    case Revoke(_, _, _, _) => Withdrawn(0)
    case Deduct(_, _, _, _) => AlreadyDone
    case Recompute(_) => Done
  }

  /** Whatever an operation did, doing it again writes nothing and is answered with what happened the first
      time: the same lot, the same settlement. What was refused, or had nothing to settle, left no trace. */
  lemma RetryIsRecognised(s: Store, op: Op)
    ensures var (s1, first) := Apply(s, op);
            if first.Thrown() || first.NothingReserved? then s1.ledger == s.ledger
            else Apply(s1, op).0.ledger == s1.ledger && Apply(s1, op).1 == Again(op, first)
  {
    var (s1, first) := Apply(s, op);
    match op
    case Reserve(_, session, _) =>
      if s1 != s { FindAppended(s.ledger, s1.ledger[|s.ledger|]); }
    case Settle(_, session, _) =>
      if s1.ledger != s.ledger { FindAppended(s.ledger, s1.ledger[|s.ledger|]); }
    case Recompute(_) =>
    case _ => AtMostOnce(s, op, op.key);
      if !first.Thrown() { OwnKeyLeft(s, op); }
  }

  lemma OwnKeyLeft(s: Store, op: Op)
    requires (op.Grant? || op.Revoke? || op.Deduct?) && !Apply(s, op).1.Thrown()
    ensures HasKey(Apply(s, op).0.ledger, op.key)
  {
    var s1 := Apply(s, op).0;
    if op.Deduct? && !HasKey(s.ledger, op.key) {
      var lots := UsableLots(AccountOf(s, op.user).lots, op.now);
      TakeFromGrows(Bump(s, op.user), op.user, lots, 0, op.credits, PartKeys(op.key));
    } else if s1.ledger != s.ledger {
      assert s1.ledger[|s.ledger|] in s1.ledger;
    }
  }

  /** A settlement settles exactly when there is a reservation, or it was settled before. */
  lemma SettleOutcomeIff(s: Store, op: Op)
    requires op.Settle?
    ensures var out := Apply(s, op).1;
            && (out.NothingReserved? <==> !HasKey(s.ledger, ReserveKey(op.session)) && !HasKey(s.ledger, SettleKey(op.session)))
            && (out.Settled? <==> !out.NothingReserved?)
            && (out.Settled? && out.created <==> HasKey(s.ledger, ReserveKey(op.session)) && !HasKey(s.ledger, SettleKey(op.session)))
  {
  }
}

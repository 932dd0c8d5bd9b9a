/** The credit operations as they run inside their transaction: the ledger collection and the
    account documents, updated in place. Each method leaves the store exactly as the ledger
    model says; a thrown error rolls the transaction back. */
module CreditStore {
  import opened Wrappers
  import opened CreditLedger

  class CreditStore {
    var accounts: map<Id, Account>
    var ledger: seq<Entry>

    function State(): Store
      reads this
    {
      Store(accounts, ledger)
    }

    constructor ()
      ensures State() == EMPTY_STORE
    {
      accounts, ledger := map[], [];
    }

    /** Upserts the account and increments its version, which locks the document. */
    method LoadAccount(user: Id) returns (account: Account)
      modifies this`accounts
      ensures State() == Bump(old(State()), user)
      ensures account == AccountOf(State(), user)
    {
      var a := if user in accounts then accounts[user] else Account(0, 0, [], 0);
      account := a.(version := a.version + 1);
      accounts := accounts[user := account];
    }

    /** The `$inc` that goes with a ledger entry: balance, reserved, version and one lot's remainder. */
    method IncAccount(user: Id, balance: int, reserved: int, lotId: Id, remaining: int)
      requires user in accounts
      modifies this`accounts
      ensures var a := old(accounts[user]);
              accounts == old(accounts)[user :=
                Account(a.balance + balance, a.reserved + reserved, AddToLot(a.lots, lotId, remaining), a.version + 1)]
    {
      var a := accounts[user];
      accounts := accounts[user :=
        Account(a.balance + balance, a.reserved + reserved, AddToLot(a.lots, lotId, remaining), a.version + 1)];
    }

    method GrantCredits(op: Op) returns (outcome: Outcome)
      requires op.Grant?
      modifies this
      ensures State() == Apply(old(State()), op).0 && outcome == Apply(old(State()), op).1
    {
      if op.amount <= 0 { return InvalidAmount; }
      if HasKey(ledger, op.key) { return AlreadyDone; }
      var _ := LoadAccount(op.user);
      ledger := ledger + [GrantEntry(op)];
      var a := accounts[op.user];
      accounts := accounts[op.user := a.(
        balance := a.balance + op.amount,
        version := a.version + 1,
        lots := a.lots + [Lot(op.lotId, op.source, op.amount, op.expiresAt)])];
      outcome := Done;
      assert accounts == Apply(old(State()), op).0.accounts;
    }

    method ReserveCredit(op: Op) returns (outcome: Outcome)
      requires op.Reserve?
      modifies this
      ensures State() == Apply(old(State()), op).0 && outcome == Apply(old(State()), op).1
    {
      var existing := FindEntry(ledger, ReserveKey(op.session));
      if existing.Some? { return ReservedFrom(existing.value.lotId, false); }
      var before := accounts;
      var account := LoadAccount(op.user);
      var lots := UsableLots(account.lots, op.now);
      if lots == [] {
        accounts := before;
        return InsufficientCredits;
      }
      IncAccount(op.user, -1, 1, lots[0].lotId, -1);
      ledger := ledger + [ReserveEntry(op.user, op.session, lots[0].lotId)];
      outcome := ReservedFrom(lots[0].lotId, true);
      assert accounts == Apply(old(State()), op).0.accounts;
    }

    method SettleCredit(op: Op) returns (outcome: Outcome)
      requires op.Settle?
      modifies this
      ensures State() == Apply(old(State()), op).0 && outcome == Apply(old(State()), op).1
    {
      var account := LoadAccount(op.user);
      var existing := FindEntry(ledger, SettleKey(op.session));
      if existing.Some? { return Settled(existing.value.kind, false); }
      var reserve := FindEntry(ledger, ReserveKey(op.session));
      if reserve.None? { return NothingReserved; }
      var e := SettleEntry(op.user, op.session, op.refund, reserve.value.lotId);
      ledger := ledger + [e];
      if op.refund {
        IncAccount(op.user, 1, -1, reserve.value.lotId, 1);
      } else {
        // A consumed credit changes the reserved count only.
        var a := accounts[op.user];
        accounts := accounts[op.user := a.(reserved := a.reserved - 1, version := a.version + 1)];
        assert AddToLot(account.lots, e.lotId, 0) == account.lots;
      }
      outcome := Settled(e.kind, true);
      assert accounts == Apply(old(State()), op).0.accounts;
    }

    method RevokeLotCredits(op: Op) returns (outcome: Outcome)
      requires op.Revoke?
      modifies this
      ensures State() == Apply(old(State()), op).0 && outcome == Apply(old(State()), op).1
    {
      var account := LoadAccount(op.user);
      if HasKey(ledger, op.key) { return Withdrawn(0); }
      var lot := FindLot(account.lots, op.lotId);
      var remaining := if lot.Some? then lot.value.remaining else 0;
      if op.max.Some? { remaining := Min(remaining, Max(0, op.max.value)); }
      ledger := ledger + [WithdrawEntry(op.user, op.lotId, remaining, op.key)];
      if remaining > 0 {
        IncAccount(op.user, -remaining, 0, op.lotId, -remaining);
      }
      outcome := Withdrawn(remaining);
      assert accounts == Apply(old(State()), op).0.accounts;
    }

    /** One part of a deduction. */
    method TakeFromLot(user: Id, lots: seq<Lot>, i: nat, left: int, keys: nat -> string)
      requires i < |lots| && user in accounts
      modifies this
      ensures State() == TakeOne(old(State()), user, lots, i, left, keys) && user in accounts
    {
      var take := Min(left, lots[i].remaining);
      ledger := ledger + [WithdrawEntry(user, lots[i].lotId, take, keys(i))];
      IncAccount(user, -take, 0, lots[i].lotId, -take);
      assert accounts == TakeOne(old(State()), user, lots, i, left, keys).accounts;
    }

    /** Takes `credits` lot by lot; false when an entry's key is taken already. */
    method TakeLots(user: Id, lots: seq<Lot>, credits: int, keys: nat -> string) returns (ok: bool)
      requires user in accounts
      modifies this
      ensures var r := TakeFrom(old(State()), user, lots, 0, credits, keys);
              ok == r.Some? && (ok ==> State() == r.value)
    {
      ghost var goal := TakeFrom(State(), user, lots, 0, credits, keys);
      hide TakeFrom, TakeOne, HasKey, Post, AccountOf, WithdrawEntry;
      var left := credits;
      var i := 0;
      while i < |lots| && left != 0
        invariant 0 <= i <= |lots|
        invariant user in accounts
        invariant TakeFrom(State(), user, lots, i, left, keys) == goal
      {
        TakeFromUnfolds(State(), user, lots, i, left, keys);
        if HasKey(ledger, keys(i)) { return false; }
        TakeFromLot(user, lots, i, left, keys);
        left := left - Min(left, lots[i].remaining);
        i := i + 1;
      }
      TakeFromEnds(State(), user, lots, i, left, keys);
      ok := true;
    }

    /** Deducts credits, from the lots that run out soonest. */
    method DeductCredits(op: Op) returns (outcome: Outcome)
      requires op.Deduct?
      modifies this
      ensures State() == Apply(old(State()), op).0 && outcome == Apply(old(State()), op).1
    {
      if op.credits <= 0 { return InvalidAmount; }
      var before := State();
      var account := LoadAccount(op.user);
      if HasKey(ledger, op.key) { return AlreadyDone; }
      var lots := UsableLots(account.lots, op.now);
      if SumRemaining(lots) < op.credits {
        accounts := before.accounts;
        return InsufficientCredits;
      }
      var ok := TakeLots(op.user, lots, op.credits, PartKeys(op.key));
      if ok {
        outcome := Done;
      } else {
        accounts, ledger := before.accounts, before.ledger;
        outcome := DuplicateKey;
      }
    }

    /** An admin's adjustment: a positive one grants a lot, a negative one deducts. */
    method AdjustCredits(user: Id, delta: int, key: string, expiresAt: Option<int>, now: int, lotId: Id) returns (outcome: Outcome)
      modifies this
      ensures var r := if delta == 0 then (old(State()), InvalidAmount)
                       else if delta > 0 then Apply(old(State()), Grant(user, delta, AdminGrant, key, expiresAt, lotId))
                       else Apply(old(State()), Deduct(user, -delta, key, now));
              State() == r.0 && outcome == r.1
    {
      if delta == 0 { return InvalidAmount; }
      if delta > 0 {
        outcome := GrantCredits(Grant(user, delta, AdminGrant, key, expiresAt, lotId));
      } else {
        outcome := DeductCredits(Deduct(user, -delta, key, now));
      }
    }

    /** The account anew, by going through the user's entries in commit order. */
    method RecomputeCreditAccount(op: Op) returns (outcome: Outcome)
      requires op.Recompute?
      modifies this`accounts
      ensures State() == Apply(old(State()), op).0 && outcome == Apply(old(State()), op).1
    {
      var entries := EntriesOf(ledger, op.user);
      var lots: seq<Lot> := [];
      var balance, reserved := 0, 0;
      var i := 0;
      while i < |entries|
        invariant 0 <= i <= |entries|
        invariant Account(balance, reserved, lots, 0) == Replay(entries[..i], 0)
      {
        var e := entries[i];
        assert entries[..i + 1][..i] == entries[..i];
        balance := balance + e.amount;
        reserved := reserved + e.reservedDelta;
        if e.lotSource.Some? {
          lots := SetLot(lots, Lot(e.lotId, e.lotSource.value, e.amount, e.expiresAt));
        } else {
          lots := AddToLot(lots, e.lotId, e.amount);
        }
        i := i + 1;
      }
      assert entries[..i] == entries;
      var version := if op.user in accounts then accounts[op.user].version else 0;
      accounts := accounts[op.user := Account(balance, reserved, lots, version + 1)];
      outcome := Done;
    }
  }
}

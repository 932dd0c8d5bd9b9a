/** The credit ledger: entries, the account projection, and every credit operation as a
    function from one committed state of the store to the next.

    Every operation turns out to be a bump of the account's version plus a series of
    postings; a posting appends one entry and moves the projection with it. */
module CreditLedger {
  import opened Wrappers

  // ObjectIds and times are integers; session ids and idempotency keys are strings.
  type Id = nat

  datatype LotSource = FreeGrant | Purchased | AdminGrant

  datatype EntryKind = FREE_GRANT | PURCHASE | INTERVIEW_RESERVE | INTERVIEW_CONSUME | INTERVIEW_REFUND | ADMIN_ADJUSTMENT

  datatype Lot = Lot(lotId: Id, source: LotSource, remaining: int, expiresAt: Option<int>)

  datatype Account = Account(balance: int, reserved: int, lots: seq<Lot>, version: nat)

  datatype Entry = Entry(
    userId: Id, kind: EntryKind, amount: int, reservedDelta: int, lotId: Id,
    lotSource: Option<LotSource>, expiresAt: Option<int>, refId: string, key: string)

  /** What one database transaction sees: the accounts by user, and the ledger in commit order. */
  datatype Store = Store(accounts: map<Id, Account>, ledger: seq<Entry>)

  datatype Op =
    | Grant(user: Id, amount: int, source: LotSource, key: string, expiresAt: Option<int>, lotId: Id)
    | Reserve(user: Id, session: string, now: int)
    | Settle(user: Id, session: string, refund: bool)
    | Revoke(user: Id, lotId: Id, key: string, max: Option<int>)
    | Deduct(user: Id, credits: int, key: string, now: int)
    | Recompute(user: Id)

  datatype Outcome =
    | Done
    | AlreadyDone
    | ReservedFrom(lot: Id, created: bool)
    | Settled(kind: EntryKind, created: bool)
    | NothingReserved
    | Withdrawn(credits: int)
    // Thrown errors: the transaction is rolled back.
    | InsufficientCredits
    | InvalidAmount
    | DuplicateKey
  {
    predicate Thrown() { InsufficientCredits? || InvalidAmount? || DuplicateKey? }
  }

  const EMPTY_STORE := Store(map[], [])

  // ---- Keys ----------------------------------------------------------------------------------

  function ReserveKey(session: string): string { "reserve:" + session }

  function SettleKey(session: string): string { "settle:" + session }

  function FindEntry(ledger: seq<Entry>, key: string): (r: Option<Entry>)
    ensures r.Some? ==> r.value in ledger && r.value.key == key
    ensures r.None? <==> forall e <- ledger :: e.key != key
  {
    if ledger == [] then None
    else if ledger[0].key == key then Some(ledger[0])
    else FindEntry(ledger[1..], key)
  }

  predicate HasKey(ledger: seq<Entry>, key: string) { exists e <- ledger :: e.key == key }

  function Digits(n: nat): string {
    if n < 10 then [DIGITS[n]] else Digits(n / 10) + [DIGITS[n % 10]]
  }

  const DIGITS := "0123456789"

  // ---- Accounts ------------------------------------------------------------------------------

  function AccountOf(s: Store, user: Id): Account {
    if user in s.accounts then s.accounts[user] else Account(0, 0, [], 0)
  }

  /** Loading an account upserts it and increments its version: the write that locks it. */
  function Bump(s: Store, user: Id): Store {
    var a := AccountOf(s, user);
    s.(accounts := s.accounts[user := a.(version := a.version + 1)])
  }

  /** `$inc` through the array filter: every lot with this id. */
  function AddToLot(lots: seq<Lot>, lotId: Id, d: int): (r: seq<Lot>)
    ensures |r| == |lots|
  {
    seq(|lots|, i requires 0 <= i < |lots| =>
      if lots[i].lotId == lotId then lots[i].(remaining := lots[i].remaining + d) else lots[i])
  }

  function LotsAfter(lots: seq<Lot>, e: Entry): seq<Lot> {
    if e.lotSource.Some? then lots + [Lot(e.lotId, e.lotSource.value, e.amount, e.expiresAt)]
    else AddToLot(lots, e.lotId, e.amount)
  }

  /** One ledger entry together with the `$inc` of the account that goes with it. */
  function Post(s: Store, e: Entry): Store {
    var a := AccountOf(s, e.userId);
    Store(
      s.accounts[e.userId := Account(a.balance + e.amount, a.reserved + e.reservedDelta, LotsAfter(a.lots, e), a.version + 1)],
      s.ledger + [e])
  }

  // ---- Choosing lots -------------------------------------------------------------------------

  predicate Usable(lot: Lot, now: int) {
    lot.remaining > 0 && (lot.expiresAt.None? || lot.expiresAt.value > now)
  }

  /** A lot that never expires is no earlier than any other. */
  predicate ExpiresNoLater(a: Lot, b: Lot) {
    b.expiresAt.None? || (a.expiresAt.Some? && a.expiresAt.value <= b.expiresAt.value)
  }

  function InsertByExpiry(x: Lot, lots: seq<Lot>): seq<Lot> {
    if lots == [] then [x]
    else if ExpiresNoLater(x, lots[0]) then [x] + lots
    else [lots[0]] + InsertByExpiry(x, lots[1..])
  }

  /** The usable lots, stably sorted by expiry. */
  function UsableLots(lots: seq<Lot>, now: int): seq<Lot> {
    if lots == [] then []
    else
      var rest := UsableLots(lots[1..], now);
      if Usable(lots[0], now) then InsertByExpiry(lots[0], rest) else rest
  }

  function SumRemaining(lots: seq<Lot>): int {
    if lots == [] then 0 else lots[0].remaining + SumRemaining(lots[1..])
  }

  function FindLot(lots: seq<Lot>, lotId: Id): (r: Option<Lot>)
    ensures r.Some? ==> r.value in lots && r.value.lotId == lotId
    ensures r.None? ==> forall l <- lots :: l.lotId != lotId
  {
    if lots == [] then None
    else if lots[0].lotId == lotId then Some(lots[0])
    else FindLot(lots[1..], lotId)
  }

  function Min(a: int, b: int): int { if a <= b then a else b }

  function Max(a: int, b: int): int { if a >= b then a else b }

  // ---- The operations ------------------------------------------------------------------------

  function GrantKind(source: LotSource): EntryKind {
    match source
    case FreeGrant => FREE_GRANT
    case Purchased => PURCHASE
    case AdminGrant => ADMIN_ADJUSTMENT
  }

  function GrantEntry(op: Op): Entry
    requires op.Grant?
  {
    Entry(op.user, GrantKind(op.source), op.amount, 0, op.lotId, Some(op.source), op.expiresAt, "", op.key)
  }

  function ReserveEntry(user: Id, session: string, lotId: Id): Entry {
    Entry(user, INTERVIEW_RESERVE, -1, 1, lotId, None, None, session, ReserveKey(session))
  }

  function SettleEntry(user: Id, session: string, refund: bool, lotId: Id): Entry {
    Entry(user, if refund then INTERVIEW_REFUND else INTERVIEW_CONSUME, if refund then 1 else 0, -1, lotId,
          None, None, session, SettleKey(session))
  }

  function WithdrawEntry(user: Id, lotId: Id, credits: int, key: string): Entry {
    Entry(user, ADMIN_ADJUSTMENT, -credits, 0, lotId, None, None, "", key)
  }

  function ApplyGrant(s: Store, op: Op): (Store, Outcome)
    requires op.Grant?
  {
    if op.amount <= 0 then (s, InvalidAmount)
    else if HasKey(s.ledger, op.key) then (s, AlreadyDone)
    else (Post(Bump(s, op.user), GrantEntry(op)), Done)
  }

  function ApplyReserve(s: Store, op: Op): (Store, Outcome)
    requires op.Reserve?
  {
    var existing := FindEntry(s.ledger, ReserveKey(op.session));
    if existing.Some? then (s, ReservedFrom(existing.value.lotId, false))
    else
      var lots := UsableLots(AccountOf(s, op.user).lots, op.now);
      if lots == [] then (s, InsufficientCredits)
      else
        (Post(Bump(s, op.user), ReserveEntry(op.user, op.session, lots[0].lotId)), ReservedFrom(lots[0].lotId, true))
  }

  function ApplySettle(s: Store, op: Op): (Store, Outcome)
    requires op.Settle?
  {
    var s1 := Bump(s, op.user);
    var existing := FindEntry(s.ledger, SettleKey(op.session));
    if existing.Some? then (s1, Settled(existing.value.kind, false))
    else
      var reserve := FindEntry(s.ledger, ReserveKey(op.session));
      if reserve.None? then (s1, NothingReserved)
      else
        var e := SettleEntry(op.user, op.session, op.refund, reserve.value.lotId);
        (Post(s1, e), Settled(e.kind, true))
  }

  /** What a revocation takes: what is left of the lot, at most `max`. */
  function Revocable(a: Account, lotId: Id, max: Option<int>): int {
    var lot := FindLot(a.lots, lotId);
    var left := if lot.Some? then lot.value.remaining else 0;
    if max.Some? then Min(left, Max(0, max.value)) else left
  }

  function ApplyRevoke(s: Store, op: Op): (Store, Outcome)
    requires op.Revoke?
  {
    var s1 := Bump(s, op.user);
    if HasKey(s.ledger, op.key) then (s1, Withdrawn(0))
    else
      var n := Revocable(AccountOf(s, op.user), op.lotId, op.max);
      var e := WithdrawEntry(op.user, op.lotId, n, op.key);
      // An empty withdrawal is recorded too, so that a retry is recognised.
      (if n > 0 then Post(s1, e) else s1.(ledger := s1.ledger + [e]), Withdrawn(n))
  }

  /** The key of the i-th entry of a deduction; the first carries the caller's key itself. */
  function PartKey(key: string, i: nat): string {
    if i == 0 then key else key + ":" + Digits(i)
  }

  function PartKeys(key: string): nat -> string { (i: nat) => PartKey(key, i) }

  /** The state after the i-th part of a deduction, which takes what it can from `lots[i]`. */
  function TakeOne(s: Store, user: Id, lots: seq<Lot>, i: nat, left: int, keys: nat -> string): Store
    requires i < |lots|
  {
    Post(s, WithdrawEntry(user, lots[i].lotId, Min(left, lots[i].remaining), keys(i)))
  }

  /** Takes `left` credits from `lots[i..]` in order; None when an entry's key is already in the ledger. */
  function TakeFrom(s: Store, user: Id, lots: seq<Lot>, i: nat, left: int, keys: nat -> string): Option<Store>
    requires i <= |lots|
    decreases |lots| - i
  {
    if left == 0 || i == |lots| then Some(s)
    else if HasKey(s.ledger, keys(i)) then None
    else TakeFrom(TakeOne(s, user, lots, i, left, keys), user, lots, i + 1, left - Min(left, lots[i].remaining), keys)
  }

  lemma TakeFromUnfolds(s: Store, user: Id, lots: seq<Lot>, i: nat, left: int, keys: nat -> string)
    requires i < |lots| && left != 0
    ensures TakeFrom(s, user, lots, i, left, keys) ==
            if HasKey(s.ledger, keys(i)) then None
            else TakeFrom(TakeOne(s, user, lots, i, left, keys), user, lots, i + 1, left - Min(left, lots[i].remaining), keys)
  {
  }

  lemma TakeFromEnds(s: Store, user: Id, lots: seq<Lot>, i: nat, left: int, keys: nat -> string)
    requires i <= |lots| && (i == |lots| || left == 0)
    ensures TakeFrom(s, user, lots, i, left, keys) == Some(s)
  {
  }

  function ApplyDeduct(s: Store, op: Op): (Store, Outcome)
    requires op.Deduct?
  {
    if op.credits <= 0 then (s, InvalidAmount)
    else
      var s1 := Bump(s, op.user);
      if HasKey(s.ledger, op.key) then (s1, AlreadyDone)
      else
        var lots := UsableLots(AccountOf(s, op.user).lots, op.now);
        if SumRemaining(lots) < op.credits then (s, InsufficientCredits)
        else
          match TakeFrom(s1, op.user, lots, 0, op.credits, PartKeys(op.key))
          case None => (s, DuplicateKey)
          case Some(s2) => (s2, Done)
  }

  // ---- Replaying the ledger ------------------------------------------------------------------

  function EntriesOf(ledger: seq<Entry>, user: Id): seq<Entry> {
    if ledger == [] then []
    else
      var before := EntriesOf(ledger[..|ledger| - 1], user);
      var e := ledger[|ledger| - 1];
      if e.userId == user then before + [e] else before
  }

  predicate HasLot(lots: seq<Lot>, lotId: Id) { exists l <- lots :: l.lotId == lotId }

  /** `Map.set`: an existing key keeps its place, a new one goes last. */
  function SetLot(lots: seq<Lot>, lot: Lot): seq<Lot> {
    if HasLot(lots, lot.lotId)
    then seq(|lots|, i requires 0 <= i < |lots| => if lots[i].lotId == lot.lotId then lot else lots[i])
    else lots + [lot]
  }

  function ReplayLots(entries: seq<Entry>): seq<Lot> {
    if entries == [] then []
    else
      var lots := ReplayLots(entries[..|entries| - 1]);
      var e := entries[|entries| - 1];
      if e.lotSource.Some? then SetLot(lots, Lot(e.lotId, e.lotSource.value, e.amount, e.expiresAt))
      else AddToLot(lots, e.lotId, e.amount)
  }

  function TotalAmount(entries: seq<Entry>): int {
    if entries == [] then 0
    else TotalAmount(entries[..|entries| - 1]) + entries[|entries| - 1].amount
  }

  function TotalReserved(entries: seq<Entry>): int {
    if entries == [] then 0
    else TotalReserved(entries[..|entries| - 1]) + entries[|entries| - 1].reservedDelta
  }

  /** The account a replay of these entries gives. */
  function Replay(entries: seq<Entry>, version: nat): Account {
    Account(TotalAmount(entries), TotalReserved(entries), ReplayLots(entries), version)
  }

  function ApplyRecompute(s: Store, op: Op): (Store, Outcome)
    requires op.Recompute?
  {
    var a := Replay(EntriesOf(s.ledger, op.user), AccountOf(s, op.user).version + 1);
    (s.(accounts := s.accounts[op.user := a]), Done)
  }

  function Apply(s: Store, op: Op): (Store, Outcome) {
    match op
    case Grant(_, _, _, _, _, _) => ApplyGrant(s, op)
    case Reserve(_, _, _) => ApplyReserve(s, op)
    case Settle(_, _, _) => ApplySettle(s, op)
    case Revoke(_, _, _, _) => ApplyRevoke(s, op)
    case Deduct(_, _, _, _) => ApplyDeduct(s, op)
    case Recompute(_) => ApplyRecompute(s, op)
  }
}

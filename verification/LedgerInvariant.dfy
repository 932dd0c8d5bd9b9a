/** What every run of credit operations keeps: the stored account is what a replay of the
    ledger gives, nothing is negative, keys are unique, the reserved count is the number of
    unsettled reservations, and each lot's credits are accounted for. */
module CreditInvariant {
  import opened Wrappers
  import opened CreditLedger

  // ---- Key discipline ------------------------------------------------------------------------

  predicate SessionKey(key: string) { "reserve:" <= key || "settle:" <= key }

  /** A key that callers outside the interview flow may use, also with a `:i` suffix. */
  predicate CallerKey(key: string) { !SessionKey(key + ":") }

  lemma PrefixBeforeColon(w: string, key: string, rest: string)
    requires w <= key + ":" + rest
    requires forall i :: 0 <= i < |w| - 1 ==> w[i] != ':'
    ensures w <= key + ":"
  {
    var p := key + ":" + rest;
    assert |w| <= |key| + 1 by { assert p[|key|] == ':'; }
    assert w == p[..|w|] == (key + ":")[..|w|];
  }

  lemma CallerKeyParts(key: string, i: nat)
    requires CallerKey(key)
    ensures !SessionKey(PartKey(key, i))
  {
    var rest := if i == 0 then "" else Digits(i);
    if "reserve:" <= key + ":" + rest { PrefixBeforeColon("reserve:", key, rest); }
    if "settle:" <= key + ":" + rest { PrefixBeforeColon("settle:", key, rest); }
    assert key <= key + ":";
  }

  lemma SessionKeysDiffer(a: string, b: string)
    ensures ReserveKey(a) != SettleKey(b)
    ensures ReserveKey(a) == ReserveKey(b) ==> a == b
    ensures SettleKey(a) == SettleKey(b) ==> a == b
    ensures SessionKey(ReserveKey(a)) && SessionKey(SettleKey(a))
  {
    assert ReserveKey(a)[0] == 'r' && SettleKey(b)[0] == 's';
    assert ReserveKey(a)[8..] == a && ReserveKey(b)[8..] == b;
    assert SettleKey(a)[7..] == a && SettleKey(b)[7..] == b;
  }

  // ---- The invariant -------------------------------------------------------------------------

  ghost predicate WellFormedEntry(e: Entry, owner: string -> Id) {
    match e.kind
    case INTERVIEW_RESERVE => e == ReserveEntry(owner(e.refId), e.refId, e.lotId)
    case INTERVIEW_CONSUME => e == SettleEntry(owner(e.refId), e.refId, false, e.lotId)
    case INTERVIEW_REFUND => e == SettleEntry(owner(e.refId), e.refId, true, e.lotId)
    case _ =>
      && !SessionKey(e.key)
      && e.reservedDelta == 0
      && (if e.lotSource.Some? then e.amount > 0 else e.kind.ADMIN_ADJUSTMENT? && e.amount <= 0)
  }

  ghost predicate KeysUnique(ledger: seq<Entry>) {
    forall i, j :: 0 <= i < j < |ledger| ==> ledger[i].key != ledger[j].key
  }

  predicate IsSettle(e: Entry) { e.kind.INTERVIEW_CONSUME? || e.kind.INTERVIEW_REFUND? }

  ghost predicate LedgerOk(ledger: seq<Entry>, owner: string -> Id) {
    && KeysUnique(ledger)
    && (forall e <- ledger :: WellFormedEntry(e, owner))
    && (forall e <- ledger :: IsSettle(e) ==> ReserveEntry(e.userId, e.refId, e.lotId) in ledger)
  }

  ghost predicate DistinctLots(lots: seq<Lot>) {
    forall i, j :: 0 <= i < j < |lots| ==> lots[i].lotId != lots[j].lotId
  }

  predicate Fresh(ledger: seq<Entry>, lotId: Id) { forall e <- ledger :: e.lotId != lotId }

  /** The stored projection equals a replay of the user's entries. */
  ghost predicate Projected(s: Store, user: Id) {
    var a := AccountOf(s, user);
    a == Replay(EntriesOf(s.ledger, user), a.version)
  }

  ghost predicate LotsOk(s: Store, user: Id) {
    var a := AccountOf(s, user);
    && DistinctLots(a.lots)
    && (forall l <- a.lots :: l.remaining >= 0 && !Fresh(s.ledger, l.lotId))
    && (forall e <- s.ledger :: e.userId == user && e.amount != 0 ==> HasLot(a.lots, e.lotId))
    && a.balance == SumRemaining(a.lots)
  }

  /** Reservations of this user that no settle entry has closed yet. */
  ghost function Held(ledger: seq<Entry>, user: Id): set<Entry> {
    set e | e in ledger && e.kind.INTERVIEW_RESERVE? && e.userId == user && !HasKey(ledger, SettleKey(e.refId))
  }

  ghost function OnLot(entries: set<Entry>, lotId: Id): set<Entry> {
    set e | e in entries && e.lotId == lotId
  }

  ghost function HeldOn(ledger: seq<Entry>, user: Id, lotId: Id): set<Entry> {
    OnLot(Held(ledger, user), lotId)
  }

  ghost function ConsumedOn(ledger: seq<Entry>, user: Id, lotId: Id): set<Entry> {
    set e | e in ledger && e.kind.INTERVIEW_CONSUME? && e.userId == user && e.lotId == lotId
  }

  /** `lotUsage`: the sum of the grants of a lot. */
  function Granted(ledger: seq<Entry>, user: Id, lotId: Id): int {
    if ledger == [] then 0
    else
      var e := ledger[|ledger| - 1];
      Granted(ledger[..|ledger| - 1], user, lotId)
      + if e.userId == user && e.lotId == lotId && e.lotSource.Some? && e.amount > 0 then e.amount else 0
  }

  /** `lotUsage`: what refunds and deductions took back. */
  function WithdrawnFrom(ledger: seq<Entry>, user: Id, lotId: Id): int {
    if ledger == [] then 0
    else
      var e := ledger[|ledger| - 1];
      WithdrawnFrom(ledger[..|ledger| - 1], user, lotId)
      - if e.userId == user && e.lotId == lotId && e.kind.ADMIN_ADJUSTMENT? && e.lotSource.None? && e.amount < 0
        then e.amount else 0
  }

  function RemainingIn(s: Store, user: Id, lotId: Id): int {
    var lot := FindLot(AccountOf(s, user).lots, lotId);
    if lot.Some? then lot.value.remaining else 0
  }

  ghost predicate Conserved(s: Store, user: Id, lotId: Id) {
    Granted(s.ledger, user, lotId) ==
    RemainingIn(s, user, lotId) + WithdrawnFrom(s.ledger, user, lotId)
    + |HeldOn(s.ledger, user, lotId)| + |ConsumedOn(s.ledger, user, lotId)|
  }

  ghost predicate UserOk(s: Store, user: Id) {
    && Projected(s, user)
    && LotsOk(s, user)
    && AccountOf(s, user).reserved == |Held(s.ledger, user)|
  }

  ghost predicate Inv(s: Store, owner: string -> Id) {
    && LedgerOk(s.ledger, owner)
    && (forall user :: UserOk(s, user))
    && (forall user, lotId :: Conserved(s, user, lotId))
  }

  // ---- Postings ------------------------------------------------------------------------------

  /** When a posting is one the invariant allows. */
  ghost predicate CanPost(s: Store, owner: string -> Id, e: Entry) {
    && !HasKey(s.ledger, e.key)
    && WellFormedEntry(e, owner)
    && (IsSettle(e) ==> ReserveEntry(e.userId, e.refId, e.lotId) in s.ledger)
    && (e.lotSource.Some? ==> Fresh(s.ledger, e.lotId))
    && (e.lotSource.None? && e.amount != 0 ==>
          HasLot(AccountOf(s, e.userId).lots, e.lotId) && RemainingIn(s, e.userId, e.lotId) + e.amount >= 0)
  }

  lemma FindLotIs(lots: seq<Lot>, i: nat)
    requires DistinctLots(lots) && i < |lots|
    ensures FindLot(lots, lots[i].lotId) == Some(lots[i])
  {
    if i > 0 { FindLotIs(lots[1..], i - 1); }
  }

  lemma FindLotAdd(lots: seq<Lot>, lotId: Id, d: int, other: Id)
    ensures FindLot(AddToLot(lots, lotId, d), other) ==
            match FindLot(lots, other)
            case None => None
            case Some(l) => Some(if other == lotId then l.(remaining := l.remaining + d) else l)
  {
    if lots != [] {
      assert AddToLot(lots, lotId, d)[1..] == AddToLot(lots[1..], lotId, d);
      FindLotAdd(lots[1..], lotId, d, other);
    }
  }

  lemma FindLotAppend(lots: seq<Lot>, lot: Lot, other: Id)
    ensures FindLot(lots + [lot], other) ==
            if FindLot(lots, other).Some? then FindLot(lots, other) else if lot.lotId == other then Some(lot) else None
  {
    if lots == [] {
      assert lots + [lot] == [lot];
    } else {
      assert (lots + [lot])[1..] == lots[1..] + [lot];
      FindLotAppend(lots[1..], lot, other);
    }
  }

  lemma SumAppend(lots: seq<Lot>, lot: Lot)
    ensures SumRemaining(lots + [lot]) == SumRemaining(lots) + lot.remaining
  {
    if lots == [] {
      assert lots + [lot] == [lot];
    } else {
      assert (lots + [lot])[1..] == lots[1..] + [lot];
      SumAppend(lots[1..], lot);
    }
  }

  lemma SumAdd(lots: seq<Lot>, lotId: Id, d: int)
    requires DistinctLots(lots)
    ensures SumRemaining(AddToLot(lots, lotId, d)) == SumRemaining(lots) + if HasLot(lots, lotId) then d else 0
  {
    if lots != [] {
      assert AddToLot(lots, lotId, d)[1..] == AddToLot(lots[1..], lotId, d);
      SumAdd(lots[1..], lotId, d);
    }
  }

  lemma EntriesOfAppend(ledger: seq<Entry>, e: Entry, user: Id)
    ensures EntriesOf(ledger + [e], user) == EntriesOf(ledger, user) + if e.userId == user then [e] else []
  {
    assert (ledger + [e])[..|ledger|] == ledger;
  }

  lemma ReplayAppend(entries: seq<Entry>, e: Entry)
    requires e.lotSource.Some? ==> !HasLot(ReplayLots(entries), e.lotId)
    ensures ReplayLots(entries + [e]) == LotsAfter(ReplayLots(entries), e)
  {
    var es := entries + [e];
    assert es[..|es| - 1] == entries && es[|es| - 1] == e;
  }

  lemma TotalsAppend(entries: seq<Entry>, e: Entry)
    ensures TotalAmount(entries + [e]) == TotalAmount(entries) + e.amount
    ensures TotalReserved(entries + [e]) == TotalReserved(entries) + e.reservedDelta
  {
    var es := entries + [e];
    assert es[..|es| - 1] == entries && es[|es| - 1] == e;
  }

  lemma PostLedger(s: Store, owner: string -> Id, e: Entry)
    requires LedgerOk(s.ledger, owner) && CanPost(s, owner, e)
    ensures LedgerOk(Post(s, e).ledger, owner)
  {
  }

  lemma FreshLot(s: Store, user: Id, lotId: Id)
    requires LotsOk(s, user) && Fresh(s.ledger, lotId)
    ensures !HasLot(AccountOf(s, user).lots, lotId) && FindLot(AccountOf(s, user).lots, lotId).None?
  {
  }

  lemma PostProjectedMine(s: Store, e: Entry, user: Id)
    requires Projected(s, user) && e.userId == user
    requires e.lotSource.Some? ==> !HasLot(AccountOf(s, user).lots, e.lotId)
    ensures Projected(Post(s, e), user)
  {
    var mine := EntriesOf(s.ledger, user);
    var s' := Post(s, e);
    EntriesOfAppend(s.ledger, e, user);
    ReplayPosted(mine, e, AccountOf(s, user));
    assert AccountOf(s', user) == Replay(mine + [e], AccountOf(s', user).version);
  }

  lemma PostProjectedOther(s: Store, e: Entry, user: Id)
    requires Projected(s, user) && e.userId != user
    ensures Projected(Post(s, e), user)
  {
    EntriesOfAppend(s.ledger, e, user);
    assert EntriesOf(s.ledger, user) + [] == EntriesOf(s.ledger, user);
  }

  lemma ReplayPosted(mine: seq<Entry>, e: Entry, a: Account)
    requires a == Replay(mine, a.version)
    requires e.lotSource.Some? ==> !HasLot(a.lots, e.lotId)
    ensures Replay(mine + [e], a.version) ==
            Account(a.balance + e.amount, a.reserved + e.reservedDelta, LotsAfter(a.lots, e), a.version)
  {
    ReplayAppend(mine, e);
    TotalsAppend(mine, e);
  }

  lemma PostLots(s: Store, owner: string -> Id, e: Entry, user: Id)
    requires LotsOk(s, user) && CanPost(s, owner, e)
    ensures LotsOk(Post(s, e), user)
  {
    var s' := Post(s, e);
    var a, a' := AccountOf(s, user), AccountOf(s', user);
    forall l | l in a'.lots ensures !Fresh(s'.ledger, l.lotId) {
      assert e in s'.ledger;
      if l.lotId != e.lotId || e.lotSource.None? || e.userId != user {
        var i :| 0 <= i < |a'.lots| && a'.lots[i] == l;
        if i < |a.lots| {
          assert a.lots[i].lotId == l.lotId;
          assert !Fresh(s.ledger, a.lots[i].lotId);
          var e0 :| e0 in s.ledger && e0.lotId == l.lotId;
          assert e0 in s'.ledger;
        }
      }
    }
    if e.userId == user {
      if e.lotSource.Some? {
        FreshLot(s, user, e.lotId);
        SumAppend(a.lots, Lot(e.lotId, e.lotSource.value, e.amount, e.expiresAt));
        PostGrantLots(s, owner, e, user);
      } else {
        SumAdd(a.lots, e.lotId, e.amount);
        PostSpendLots(s, owner, e, user);
      }
    }
  }

  lemma PostGrantLots(s: Store, owner: string -> Id, e: Entry, user: Id)
    requires LotsOk(s, user) && CanPost(s, owner, e) && e.userId == user && e.lotSource.Some?
    ensures var lots := AccountOf(Post(s, e), user).lots;
            && DistinctLots(lots)
            && (forall l <- lots :: l.remaining >= 0)
            && (forall x <- Post(s, e).ledger :: x.userId == user && x.amount != 0 ==> HasLot(lots, x.lotId))
  {
    FreshLot(s, user, e.lotId);
    var a := AccountOf(s, user);
    var lots := AccountOf(Post(s, e), user).lots;
    assert lots[|a.lots|].lotId == e.lotId;
    forall x | x in Post(s, e).ledger && x.userId == user && x.amount != 0 ensures HasLot(lots, x.lotId) {
      if x in s.ledger {
        assert HasLot(a.lots, x.lotId);
        var l :| l in a.lots && l.lotId == x.lotId;
        assert l in lots;
      } else {
        assert x == e && lots[|a.lots|] in lots;
      }
    }
  }

  lemma HasLotAdd(lots: seq<Lot>, lotId: Id, d: int, other: Id)
    ensures HasLot(AddToLot(lots, lotId, d), other) == HasLot(lots, other)
  {
    var lots' := AddToLot(lots, lotId, d);
    if HasLot(lots, other) {
      var i :| 0 <= i < |lots| && lots[i].lotId == other;
      assert lots'[i] in lots' && lots'[i].lotId == other;
    }
    if HasLot(lots', other) {
      var i :| 0 <= i < |lots'| && lots'[i].lotId == other;
      assert lots[i] in lots && lots[i].lotId == other;
    }
  }

  lemma PostSpendLots(s: Store, owner: string -> Id, e: Entry, user: Id)
    requires LotsOk(s, user) && CanPost(s, owner, e) && e.userId == user && e.lotSource.None?
    ensures var lots := AccountOf(Post(s, e), user).lots;
            && DistinctLots(lots)
            && (forall l <- lots :: l.remaining >= 0)
            && (forall x <- Post(s, e).ledger :: x.userId == user && x.amount != 0 ==> HasLot(lots, x.lotId))
  {
    var a := AccountOf(s, user);
    var lots := AccountOf(Post(s, e), user).lots;
    forall i | 0 <= i < |lots| ensures lots[i].remaining >= 0 {
      FindLotIs(a.lots, i);
    }
    forall x | x in Post(s, e).ledger && x.userId == user && x.amount != 0 ensures HasLot(lots, x.lotId) {
      HasLotAdd(a.lots, e.lotId, e.amount, x.lotId);
    }
  }

  // ---- Held reservations ---------------------------------------------------------------------

  /** How a posting changes the set of reservations still held. */
  lemma PostHeld(s: Store, owner: string -> Id, e: Entry, user: Id)
    requires LedgerOk(s.ledger, owner) && CanPost(s, owner, e)
    ensures var held, held' := Held(s.ledger, user), Held(Post(s, e).ledger, user);
            if e.userId != user then held' == held
            else if e.kind.INTERVIEW_RESERVE? then e !in held && held' == held + {e}
            else if IsSettle(e) then
              var r := ReserveEntry(user, e.refId, e.lotId);
              r in held && held' == held - {r}
            else held' == held
  {
    var l, l' := s.ledger, Post(s, e).ledger;
    forall k: string ensures HasKey(l', k) == (HasKey(l, k) || e.key == k) {
      assert e in l';
      if HasKey(l, k) { var x :| x in l && x.key == k; assert x in l'; }
    }
    forall x | x in l && x.kind.INTERVIEW_RESERVE? && e.key == SettleKey(x.refId)
      ensures IsSettle(e) && x == ReserveEntry(e.userId, e.refId, e.lotId)
    {
      SettleKeyNames(l, owner, e, x);
    }
    if e.kind.INTERVIEW_RESERVE? {
      assert !HasKey(l, SettleKey(e.refId)) by {
        if HasKey(l, SettleKey(e.refId)) { SettledWasReserved(l, owner, e.refId); }
      }
      SessionKeysDiffer(e.refId, e.refId);
    }
    if IsSettle(e) {
      var r := ReserveEntry(e.userId, e.refId, e.lotId);
      assert r in l && !HasKey(l, SettleKey(r.refId));
    }
  }

  /** An entry that carries a session's settle key is that session's settlement. */
  lemma SettleKeyNames(l: seq<Entry>, owner: string -> Id, e: Entry, x: Entry)
    requires LedgerOk(l, owner) && WellFormedEntry(e, owner) && x in l && x.kind.INTERVIEW_RESERVE?
    requires e.key == SettleKey(x.refId)
    requires IsSettle(e) ==> ReserveEntry(e.userId, e.refId, e.lotId) in l
    ensures IsSettle(e) && x == ReserveEntry(e.userId, e.refId, e.lotId)
  {
    SessionKeysDiffer(x.refId, x.refId);
    SessionKeysDiffer(e.refId, x.refId);
    if IsSettle(e) {
      SessionKeysDiffer(x.refId, e.refId);
      SameKeySameEntry(l, x, ReserveEntry(e.userId, e.refId, e.lotId));
    }
  }

  lemma SameKeySameEntry(l: seq<Entry>, x: Entry, y: Entry)
    requires KeysUnique(l) && x in l && y in l && x.key == y.key
    ensures x == y
  {
    var i :| 0 <= i < |l| && l[i] == x;
    var j :| 0 <= j < |l| && l[j] == y;
    assert l[i].key == l[j].key;
  }

  lemma SettledWasReserved(l: seq<Entry>, owner: string -> Id, session: string)
    requires LedgerOk(l, owner) && HasKey(l, SettleKey(session))
    ensures HasKey(l, ReserveKey(session))
  {
    var e :| e in l && e.key == SettleKey(session);
    SessionKeysDiffer(session, session);
    SessionKeysDiffer(e.refId, session);
    SessionKeysDiffer(session, e.refId);
    assert WellFormedEntry(e, owner);
    assert IsSettle(e);
    assert ReserveEntry(e.userId, e.refId, e.lotId).key == ReserveKey(session);
  }

  lemma PostReserved(s: Store, owner: string -> Id, e: Entry, user: Id)
    requires LedgerOk(s.ledger, owner) && UserOk(s, user) && CanPost(s, owner, e)
    ensures AccountOf(Post(s, e), user).reserved == |Held(Post(s, e).ledger, user)|
  {
    PostHeld(s, owner, e, user);
  }

  // ---- Conservation --------------------------------------------------------------------------

  lemma PostHeldOn(s: Store, owner: string -> Id, e: Entry, user: Id, lotId: Id)
    requires LedgerOk(s.ledger, owner) && CanPost(s, owner, e)
    ensures var mine := e.userId == user && e.lotId == lotId;
            |HeldOn(Post(s, e).ledger, user, lotId)| ==
            |HeldOn(s.ledger, user, lotId)| + if mine && e.kind.INTERVIEW_RESERVE? then 1 else if mine && IsSettle(e) then -1 else 0
  {
    PostHeld(s, owner, e, user);
    if e.userId == user && e.kind.INTERVIEW_RESERVE? {
      OnLotAdd(Held(s.ledger, user), e, lotId);
    } else if e.userId == user && IsSettle(e) {
      OnLotRemove(Held(s.ledger, user), ReserveEntry(user, e.refId, e.lotId), lotId);
    }
  }

  lemma OnLotAdd(entries: set<Entry>, e: Entry, lotId: Id)
    requires e !in entries
    ensures |OnLot(entries + {e}, lotId)| == |OnLot(entries, lotId)| + if e.lotId == lotId then 1 else 0
  {
    assert OnLot(entries + {e}, lotId) == if e.lotId == lotId then OnLot(entries, lotId) + {e} else OnLot(entries, lotId);
  }

  lemma OnLotRemove(entries: set<Entry>, e: Entry, lotId: Id)
    requires e in entries
    ensures |OnLot(entries - {e}, lotId)| == |OnLot(entries, lotId)| - if e.lotId == lotId then 1 else 0
  {
    assert OnLot(entries - {e}, lotId) == if e.lotId == lotId then OnLot(entries, lotId) - {e} else OnLot(entries, lotId);
  }

  lemma PostConsumedOn(s: Store, owner: string -> Id, e: Entry, user: Id, lotId: Id)
    requires !HasKey(s.ledger, e.key)
    ensures |ConsumedOn(Post(s, e).ledger, user, lotId)| ==
            |ConsumedOn(s.ledger, user, lotId)| + if e.userId == user && e.lotId == lotId && e.kind.INTERVIEW_CONSUME? then 1 else 0
  {
    var c, c' := ConsumedOn(s.ledger, user, lotId), ConsumedOn(Post(s, e).ledger, user, lotId);
    if e.userId == user && e.lotId == lotId && e.kind.INTERVIEW_CONSUME? {
      assert c' == c + {e} && e !in c;
    } else {
      assert c' == c;
    }
  }

  /** A posting changes what remains of its own lot, and of no other. */
  lemma PostRemaining(s: Store, owner: string -> Id, e: Entry, user: Id, lotId: Id)
    requires LotsOk(s, user) && CanPost(s, owner, e)
    ensures RemainingIn(Post(s, e), user, lotId) == RemainingIn(s, user, lotId) + if e.userId == user && e.lotId == lotId then e.amount else 0
  {
    if e.userId == user {
      var a := AccountOf(s, user);
      if e.lotSource.Some? {
        FreshLot(s, user, e.lotId);
        FindLotAppend(a.lots, Lot(e.lotId, e.lotSource.value, e.amount, e.expiresAt), lotId);
      } else {
        FindLotAdd(a.lots, e.lotId, e.amount, lotId);
        if e.amount != 0 && e.lotId == lotId { FoundLot(a.lots, lotId); }
      }
    }
  }

  lemma PostConserved(s: Store, owner: string -> Id, e: Entry, user: Id, lotId: Id)
    requires LedgerOk(s.ledger, owner) && LotsOk(s, user) && CanPost(s, owner, e) && Conserved(s, user, lotId)
    ensures Conserved(Post(s, e), user, lotId)
  {
    hide HeldOn, ConsumedOn, RemainingIn;
    PostHeldOn(s, owner, e, user, lotId);
    PostConsumedOn(s, owner, e, user, lotId);
    PostRemaining(s, owner, e, user, lotId);
    assert Post(s, e).ledger[..|s.ledger|] == s.ledger;
  }

  lemma FoundLot(lots: seq<Lot>, lotId: Id)
    requires HasLot(lots, lotId)
    ensures FindLot(lots, lotId).Some?
  {
  }

  lemma PostKeepsInv(s: Store, owner: string -> Id, e: Entry)
    requires Inv(s, owner) && CanPost(s, owner, e)
    ensures Inv(Post(s, e), owner)
  {
    PostLedger(s, owner, e);
    forall user ensures UserOk(Post(s, e), user) {
      assert UserOk(s, user);
      if e.userId == user {
        if e.lotSource.Some? { FreshLot(s, user, e.lotId); }
        PostProjectedMine(s, e, user);
      } else {
        PostProjectedOther(s, e, user);
      }
      PostLots(s, owner, e, user);
      PostReserved(s, owner, e, user);
    }
    forall user, lotId ensures Conserved(Post(s, e), user, lotId) {
      assert UserOk(s, user) && Conserved(s, user, lotId);
      PostConserved(s, owner, e, user, lotId);
    }
  }
}

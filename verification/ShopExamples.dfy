/** Runs of the shop, from the empty database, in which what one might expect fails. */
module ShopExamples {
  import opened Wrappers
  import opened Purchases
  import opened ShopInvariant
  import opened ShopRuns
  import opened ShopSystem
  import opened RefundIds
  import C = CreditLedger
  import CI = CreditInvariant
  import T = ShopTheorems
  import B = RefundBounds
  import U = CouponUses
  import CR = CreditRuns
  import G = LotRefills

  // ---- Running step by step ----------------------------------------------------------------------

  /** An allowed run from the empty database that ends in `w` and applies refund `r` of "p" `n` times. */
  ghost predicate Plays(owner: string -> Id, fy: int -> int, steps: seq<Step>, w: Shop, r: string, n: nat) {
    && AllowedRun(EMPTY_SHOP, owner, steps, fy) && RunShop(EMPTY_SHOP, steps, fy) == w
    && TimesApplied(EMPTY_SHOP, steps, fy, "p", r) == n
  }

  lemma {:induction false} OneMore(w: Shop, owner: string -> Id, fy: int -> int, steps: seq<Step>, step: Step, id: string, refundId: string)
    ensures RunShop(w, steps + [step], fy) == Next(RunShop(w, steps, fy), step, fy)
    ensures AllowedRun(w, owner, steps + [step], fy) <==> AllowedRun(w, owner, steps, fy) && Allowed(RunShop(w, steps, fy), owner, step)
    ensures TimesApplied(w, steps + [step], fy, id, refundId) ==
            TimesApplied(w, steps, fy, id, refundId) + if AppliesNow(RunShop(w, steps, fy), step, fy, id, refundId) then 1 else 0
    decreases |steps|
  {
    hide Next, Allowed, AppliesNow;
    if steps == [] {
      assert [step][1..] == [];
      assert steps + [step] == [step];
    } else {
      assert (steps + [step])[1..] == steps[1..] + [step];
      OneMore(Next(w, steps[0], fy), owner, fy, steps[1..], step, id, refundId);
    }
  }

  lemma Then(owner: string -> Id, fy: int -> int, steps: seq<Step>, w: Shop, step: Step, w': Shop, r: string, n: nat)
    requires Plays(owner, fy, steps, w, r, n) && Allowed(w, owner, step) && Next(w, step, fy) == w'
    ensures Plays(owner, fy, steps + [step], w', r, n + if AppliesNow(w, step, fy, "p", r) then 1 else 0)
  {
    hide Next, Allowed, AppliesNow;
    OneMore(EMPTY_SHOP, owner, fy, steps, step, "p", r);
  }

  lemma Nothing(owner: string -> Id, fy: int -> int, r: string)
    ensures Plays(owner, fy, [], EMPTY_SHOP, r, 0)
  {
  }

  // ---- One purchase, paid for --------------------------------------------------------------------

  function NewOrder(user: Id): Purchase { Purchase(user, 2, 0, None, 100, CREATED, None, None, None, 0) }

  function PaidOrder(fy: int -> int, user: Id): Purchase {
    NewOrder(user).(status := PAID, issuedAt := Some(0), lot := Some(0), invoice := Some(Number(InvoicesOf(fy(0)), 1)))
  }

  const NO_BOOK := Book(map[], map[], map[])

  function Counters(fy: int -> int, notes: nat): map<Series, nat> {
    if notes == 0 then map[InvoicesOf(fy(0)) := 1] else map[InvoicesOf(fy(0)) := 1, NotesOf(fy(0)) := notes]
  }

  function Note(fy: int -> int, n: nat): Number { Number(NotesOf(fy(0)), n) }

  function BoughtWith(fy: int -> int, user: Id, pay: Payment, notes: nat, credits: C.Store): Shop {
    Shop(map["p" := PaidOrder(fy, user)], map["p" := pay], NO_BOOK, Counters(fy, notes), credits)
  }

  function GrantOf(user: Id): C.Entry { C.GrantEntry(PurchaseGrant(NewOrder(user), "p", 0, 0)) }

  function TwoCredits(user: Id): C.Store {
    C.Store(map[user := C.Account(2, 0, [C.Lot(0, C.Purchased, 2, None)], 2)], [GrantOf(user)])
  }

  function Bought(fy: int -> int, user: Id, pay: Payment, notes: nat): Shop { BoughtWith(fy, user, pay, notes, TwoCredits(user)) }

  const UNPAID := Payment(None, 100, PayCREATED, [], 0, false)
  const CAPTURED_PAYMENT := Payment(Some("pay"), 100, CAPTURED, [], 0, false)

  function Buying(user: Id): seq<Step> { [Ordered("p", NewOrder(user)), Paid("p", Some("pay"), 0, 0)] }

  lemma GrantGivesTwo(user: Id)
    ensures C.Apply(C.EMPTY_STORE, PurchaseGrant(NewOrder(user), "p", 0, 0)).0 == TwoCredits(user)
  {
    var op := PurchaseGrant(NewOrder(user), "p", 0, 0);
    var w := C.Post(C.Bump(C.EMPTY_STORE, user), C.GrantEntry(op));
    assert C.Apply(C.EMPTY_STORE, op).0 == w;
    assert w.ledger == [] + [GrantOf(user)] == [GrantOf(user)];
    var lots := C.LotsAfter([], C.GrantEntry(op));
    assert lots == [C.Lot(0, C.Purchased, 2, None)];
    assert w.accounts[user] == C.Account(2, 0, lots, 2);
    assert w.accounts.Keys == {user};
  }

  lemma Bought0(owner: string -> Id, fy: int -> int, user: Id, r: string)
    ensures Plays(owner, fy, Buying(user), Bought(fy, user, CAPTURED_PAYMENT, 0), r, 0)
  {
    var w0 := Shop(map["p" := NewOrder(user)], map["p" := UNPAID], NO_BOOK, map[], C.EMPTY_STORE);
    Nothing(owner, fy, r);
    Then(owner, fy, [], EMPTY_SHOP, Ordered("p", NewOrder(user)), w0, r, 0);
    assert [] + [Ordered("p", NewOrder(user))] == [Ordered("p", NewOrder(user))];
    PaidFor(fy, user, w0);
    Then(owner, fy, [Ordered("p", NewOrder(user))], w0, Paid("p", Some("pay"), 0, 0), Bought(fy, user, CAPTURED_PAYMENT, 0), r, 0);
    assert [Ordered("p", NewOrder(user))] + [Paid("p", Some("pay"), 0, 0)] == Buying(user);
  }

  lemma PaidFor(fy: int -> int, user: Id, w0: Shop)
    requires w0 == Shop(map["p" := NewOrder(user)], map["p" := UNPAID], NO_BOOK, map[], C.EMPTY_STORE)
    ensures MarkPaid(w0, "p", Some("pay"), 0, 0, fy).0 == Bought(fy, user, CAPTURED_PAYMENT, 0)
  {
    MarkPaidIs(w0, "p", Some("pay"), 0, 0, fy);
    GrantGivesTwo(user);
  }

  /** A claim, its release and the gateway's answer change the payment alone. */
  lemma PaymentStep(
    owner: string -> Id, fy: int -> int, user: Id, steps: seq<Step>, pay: Payment, notes: nat, step: Step, pay': Payment, r: string, n: nat)
    requires Plays(owner, fy, steps, Bought(fy, user, pay, notes), r, n)
    requires match step
             case Claimed(id, key, amount, toWithdraw, now) =>
               id == "p" && Claim(pay, key, amount, toWithdraw, now) == Some(pay') && forall x <- pay.refunds :: x.key != key
             case Released(id, key) => id == "p" && Release(pay, key) == Some(pay')
             case Accepted(id, key, refundId) => id == "p" && MarkPending(pay, key, refundId).0 == pay'
             case _ => false
    ensures Plays(owner, fy, steps + [step], Bought(fy, user, pay', notes), r, n)
  {
    assert map["p" := pay]["p" := pay'] == map["p" := pay'];
    assert Next(Bought(fy, user, pay, notes), step, fy) == Bought(fy, user, pay', notes);
    assert Allowed(Bought(fy, user, pay, notes), owner, step);
    Then(owner, fy, steps, Bought(fy, user, pay, notes), step, Bought(fy, user, pay', notes), r, n);
  }

  /** A processed refund of a part, that withdraws no credit, changes the payment and takes a number. */
  lemma RefundStep(
    owner: string -> Id, fy: int -> int, user: Id, steps: seq<Step>, pay: Payment, notes: nat,
    refundId: string, amount: int, key: string, refunds: seq<Refund>, i: nat, n: nat)
    requires Plays(owner, fy, steps, Bought(fy, user, pay, notes), refundId, n) && forall x <- pay.refunds :: x.key != key
    requires RefundTarget(pay, refundId, Some(amount), 0, key) == Some((refunds, i)) && i < |refunds|
    requires pay.refunded + refunds[i].amount < pay.amount && refunds[i].toWithdraw == 0
    ensures Plays(owner, fy, steps + [Refunded("p", refundId, Some(amount), 0, key)],
                  Bought(fy, user, Settled(pay, refunds, i, refundId, 0, Note(fy, notes + 1)), notes + 1), refundId, n + 1)
  {
    var step, w := Refunded("p", refundId, Some(amount), 0, key), Bought(fy, user, pay, notes);
    var pay' := Settled(pay, refunds, i, refundId, 0, Note(fy, notes + 1));
    RefundIs(fy, user, pay, notes, refundId, amount, key, refunds, i);
    assert Allowed(w, owner, step);
    Then(owner, fy, steps, w, step, Bought(fy, user, pay', notes + 1), refundId, n);
  }

  lemma RefundIs(fy: int -> int, user: Id, pay: Payment, notes: nat, refundId: string, amount: int, key: string, refunds: seq<Refund>, i: nat)
    requires RefundTarget(pay, refundId, Some(amount), 0, key) == Some((refunds, i)) && i < |refunds|
    requires pay.refunded + refunds[i].amount < pay.amount && refunds[i].toWithdraw == 0
    ensures var step := Refunded("p", refundId, Some(amount), 0, key);
            && Next(Bought(fy, user, pay, notes), step, fy) == Bought(fy, user, Settled(pay, refunds, i, refundId, 0, Note(fy, notes + 1)), notes + 1)
            && AppliesNow(Bought(fy, user, pay, notes), step, fy, "p", refundId)
  {
    hide Settled, RefundTarget;
    var pay' := Settled(pay, refunds, i, refundId, 0, Note(fy, notes + 1));
    assert map["p" := pay]["p" := pay'] == map["p" := pay'];
    assert Taken(Counters(fy, notes), Note(fy, notes + 1)) == Counters(fy, notes + 1);
    assert NextNumber(Counters(fy, notes), NotesOf(fy(0))) == Note(fy, notes + 1);
  }

  // ---- A refund that counts twice ------------------------------------------------------------------

  const CLAIM := Refund("k", None, 30, Requested, 0, 0, 0, None)
  const CLAIMED_PAYMENT := Payment(Some("pay"), 100, REFUND_REQUESTED, [CLAIM], 0, false)

  lemma ClaimedPayment()
    ensures Claim(CAPTURED_PAYMENT, "k", 30, 0, 0) == Some(CLAIMED_PAYMENT)
  {
    assert [] + [CLAIM] == [CLAIM];
  }

  function DashboardRun(user: Id): seq<Step> {
    Buying(user) + [Claimed("p", "k", 30, 0, 0)] + [Refunded("p", "dash", Some(30), 0, "d1")] + [Accepted("p", "k", "ours")]
    + [Refunded("p", "dash", Some(30), 0, "d2")]
  }

  function Took(fy: int -> int): Payment {
    CAPTURED_PAYMENT.(refunds := [CLAIM.(id := Some("dash"), status := Processed, note := Some(Note(fy, 1)))], refunded := 30)
  }

  function Renamed(fy: int -> int): Payment {
    CAPTURED_PAYMENT.(refunds := [CLAIM.(id := Some("ours"), status := Processed, note := Some(Note(fy, 1)))], refunded := 30)
  }

  lemma DashTakesClaim(fy: int -> int)
    ensures RefundTarget(CLAIMED_PAYMENT, "dash", Some(30), 0, "d1") == Some(([CLAIM], 0))
    ensures Settled(CLAIMED_PAYMENT, [CLAIM], 0, "dash", 0, Note(fy, 1)) == Took(fy)
  {
    var taken := CLAIM.(id := Some("dash"), status := Processed, withdrawn := 0, note := Some(Note(fy, 1)));
    assert [CLAIM][0 := taken] == [taken];
    assert !SomeOpen([taken]);
  }

  lemma AnswerRenames(fy: int -> int)
    ensures MarkPending(Took(fy), "k", "ours").0 == Renamed(fy)
    ensures Spoils(Took(fy).refunds, "k", "ours")
  {
    var a, b := Took(fy).refunds[0], Renamed(fy).refunds[0];
    assert [a][0 := b] == [b];
    assert [a][1..] == [];
    assert FindKey([a], "k") == Some(0) && FindId([a], "dash") == Some(0) && FindIdFrom([a], 1, "dash") == None;
  }

  lemma DashAgain(fy: int -> int)
    ensures var d2 := Refund("d2", Some("dash"), 30, Pending, 0, 0, 0, None);
            RefundTarget(Renamed(fy), "dash", Some(30), 0, "d2") == Some((Renamed(fy).refunds + [d2], 1))
  {
    var b := Renamed(fy).refunds[0];
    assert [b][1..] == [];
    assert FindId([b], "dash") == None && FindLost([b], Some(30)) == None;
  }

  /** A refund of 30 made at the dashboard takes the place of our claim of 30, whose answer is still out;
      the answer renames the entry; reported once more, the dashboard's refund is counted again. */
  lemma DashboardRefundCountsTwice(owner: string -> Id, fy: int -> int, user: Id)
    ensures AllowedRun(EMPTY_SHOP, owner, DashboardRun(user), fy)
    ensures TimesApplied(EMPTY_SHOP, DashboardRun(user), fy, "p", "dash") == 2
  {
    var s0 := Buying(user);
    var s1 := s0 + [Claimed("p", "k", 30, 0, 0)];
    var s2 := s1 + [Refunded("p", "dash", Some(30), 0, "d1")];
    var s3 := s2 + [Accepted("p", "k", "ours")];
    ClaimedPayment();
    DashTakesClaim(fy);
    AnswerRenames(fy);
    DashAgain(fy);
    var again := Renamed(fy).refunds + [Refund("d2", Some("dash"), 30, Pending, 0, 0, 0, None)];
    hide Plays, Bought, RefundTarget, Settled, Claim, MarkPending, TimesApplied, AllowedRun;
    Bought0(owner, fy, user, "dash");
    PaymentStep(owner, fy, user, s0, CAPTURED_PAYMENT, 0, Claimed("p", "k", 30, 0, 0), CLAIMED_PAYMENT, "dash", 0);
    RefundStep(owner, fy, user, s1, CLAIMED_PAYMENT, 0, "dash", 30, "d1", [CLAIM], 0, 0);
    PaymentStep(owner, fy, user, s2, Took(fy), 1, Accepted("p", "k", "ours"), Renamed(fy), "dash", 1);
    RefundStep(owner, fy, user, s3, Renamed(fy), 1, "dash", 30, "d2", again, 1, 1);
    PlaysIs(owner, fy, DashboardRun(user), Bought(fy, user, Settled(Renamed(fy), again, 1, "dash", 0, Note(fy, 2)), 2), "dash", 2);
  }

  lemma PlaysIs(owner: string -> Id, fy: int -> int, steps: seq<Step>, w: Shop, r: string, n: nat)
    requires Plays(owner, fy, steps, w, r, n)
    ensures AllowedRun(EMPTY_SHOP, owner, steps, fy) && RunShop(EMPTY_SHOP, steps, fy) == w
    ensures TimesApplied(EMPTY_SHOP, steps, fy, "p", r) == n
  {
  }

  // ---- Another ---------------------------------------------------------------------------------------

  function ReleasedRun(user: Id): seq<Step> {
    Buying(user) + [Claimed("p", "k", 30, 0, 0)] + [Released("p", "k")] + [Refunded("p", "ours", Some(30), 0, "d1")]
    + [Accepted("p", "k", "ours")] + [Refunded("p", "ours", Some(30), 0, "d2")]
  }

  function GivenUp(): Payment { CAPTURED_PAYMENT.(refunds := [CLAIM.(status := Failed)]) }

  function Arrived(fy: int -> int): Refund { Refund("d1", Some("ours"), 30, Processed, 0, 0, 0, Some(Note(fy, 1))) }

  function Separate(fy: int -> int): Payment {
    CAPTURED_PAYMENT.(refunds := [CLAIM.(status := Failed), Arrived(fy)], refunded := 30)
  }

  function SameId(fy: int -> int): Payment {
    CAPTURED_PAYMENT.(refunds := [CLAIM.(status := Failed, id := Some("ours")), Arrived(fy)], refunded := 30)
  }

  lemma ReleasedSteps(fy: int -> int)
    ensures Release(CLAIMED_PAYMENT, "k") == Some(GivenUp())
    ensures var d1 := Refund("d1", Some("ours"), 30, Pending, 0, 0, 0, None);
            && RefundTarget(GivenUp(), "ours", Some(30), 0, "d1") == Some((GivenUp().refunds + [d1], 1))
            && Settled(GivenUp(), GivenUp().refunds + [d1], 1, "ours", 0, Note(fy, 1)) == Separate(fy)
  {
    var failed := CLAIM.(status := Failed);
    assert FindRequested([CLAIM], "k") == Some(0);
    assert [CLAIM][0 := failed] == [failed];
    assert [failed][1..] == [];
    assert FindId([failed], "ours") == None && FindLost([failed], Some(30)) == None;
    var d1 := Refund("d1", Some("ours"), 30, Pending, 0, 0, 0, None);
    assert ([failed] + [d1])[1 := Arrived(fy)] == [failed, Arrived(fy)];
    assert !SomeOpen([failed, Arrived(fy)]);
  }

  lemma LateAnswer(fy: int -> int)
    ensures MarkPending(Separate(fy), "k", "ours").0 == SameId(fy)
    ensures Spoils(Separate(fy).refunds, "k", "ours")
    ensures RefundTarget(SameId(fy), "ours", Some(30), 0, "d2") == Some((SameId(fy).refunds, 0))
  {
    var failed, named := CLAIM.(status := Failed), CLAIM.(status := Failed, id := Some("ours"));
    var list := [failed, Arrived(fy)];
    assert list[1..] == [Arrived(fy)];
    assert FindKey(list, "k") == Some(0) && FindId(list, "ours") == Some(1);
    assert list[0 := named] == [named, Arrived(fy)];
  }

  /** Our claim is released as stale although the gateway has it; the gateway's report makes a new entry;
      the late answer gives the released entry the same id; reported once more, the refund is found under
      the released entry and counted again. */
  lemma ReleasedClaimCountsTwice(owner: string -> Id, fy: int -> int, user: Id)
    ensures AllowedRun(EMPTY_SHOP, owner, ReleasedRun(user), fy)
    ensures TimesApplied(EMPTY_SHOP, ReleasedRun(user), fy, "p", "ours") == 2
  {
    var s0 := Buying(user);
    var s1 := s0 + [Claimed("p", "k", 30, 0, 0)];
    var s2 := s1 + [Released("p", "k")];
    var s3 := s2 + [Refunded("p", "ours", Some(30), 0, "d1")];
    var s4 := s3 + [Accepted("p", "k", "ours")];
    ClaimedPayment();
    ReleasedSteps(fy);
    LateAnswer(fy);
    var d1 := Refund("d1", Some("ours"), 30, Pending, 0, 0, 0, None);
    var first := GivenUp().refunds + [d1];
    hide Plays, Bought, RefundTarget, Settled, Claim, Release, MarkPending, TimesApplied, AllowedRun;
    Bought0(owner, fy, user, "ours");
    PaymentStep(owner, fy, user, s0, CAPTURED_PAYMENT, 0, Claimed("p", "k", 30, 0, 0), CLAIMED_PAYMENT, "ours", 0);
    PaymentStep(owner, fy, user, s1, CLAIMED_PAYMENT, 0, Released("p", "k"), GivenUp(), "ours", 0);
    RefundStep(owner, fy, user, s2, GivenUp(), 0, "ours", 30, "d1", first, 1, 0);
    PaymentStep(owner, fy, user, s3, Separate(fy), 1, Accepted("p", "k", "ours"), SameId(fy), "ours", 1);
    RefundStep(owner, fy, user, s4, SameId(fy), 1, "ours", 30, "d2", SameId(fy).refunds, 0, 1);
    PlaysIs(owner, fy, ReleasedRun(user), Bought(fy, user, Settled(SameId(fy), SameId(fy).refunds, 0, "ours", 0, Note(fy, 2)), 2), "ours", 2);
  }

  // ---- More refunded than was paid -------------------------------------------------------------------

  const CLAIM80 := Refund("k", None, 80, Requested, 0, 0, 0, None)
  const DASH50 := Refund("d1", Some("dash"), 50, Pending, 0, 0, 0, None)

  function BesideRun(user: Id): seq<Step> {
    Buying(user) + [Claimed("p", "k", 80, 0, 0)] + [Refunded("p", "dash", Some(50), 0, "d1")] + [Accepted("p", "k", "ours")]
  }

  function Done50(fy: int -> int): Refund { DASH50.(status := Processed, note := Some(Note(fy, 1))) }

  const CLAIMED80 := Payment(Some("pay"), 100, REFUND_REQUESTED, [CLAIM80], 0, false)

  function Beside(fy: int -> int): Payment { CLAIMED80.(refunds := [CLAIM80, Done50(fy)], refunded := 50) }

  function Answered80(fy: int -> int): Payment {
    Beside(fy).(status := REFUND_PENDING, refunds := [CLAIM80.(id := Some("ours"), status := Pending), Done50(fy)])
  }

  lemma BesideSteps(fy: int -> int)
    ensures Claim(CAPTURED_PAYMENT, "k", 80, 0, 0) == Some(CLAIMED80)
    ensures RefundTarget(CLAIMED80, "dash", Some(50), 0, "d1") == Some(([CLAIM80, DASH50], 1))
    ensures Settled(CLAIMED80, [CLAIM80, DASH50], 1, "dash", 0, Note(fy, 1)) == Beside(fy)
    ensures MarkPending(Beside(fy), "k", "ours").0 == Answered80(fy)
    ensures RefundTarget(Answered80(fy), "ours", Some(80), 0, "d2") == Some((Answered80(fy).refunds, 0))
  {
    assert [] + [CLAIM80] == [CLAIM80];
    assert [CLAIM80][1..] == [];
    assert FindId([CLAIM80], "dash") == None && FindLost([CLAIM80], Some(50)) == None;
    assert [CLAIM80] + [DASH50] == [CLAIM80, DASH50];
    assert [CLAIM80, DASH50][1 := Done50(fy)] == [CLAIM80, Done50(fy)];
    assert Open(CLAIM80) && CLAIM80 in [CLAIM80, Done50(fy)];
    var named := CLAIM80.(id := Some("ours"), status := Pending);
    assert [CLAIM80, Done50(fy)][0 := named] == [named, Done50(fy)];
    assert FindRequested([CLAIM80, Done50(fy)], "k") == Some(0);
  }

  /** A claim of 80 is under way when 50 of the 100 paid are refunded at the dashboard; the claim is
      answered and processed too, and 130 were refunded. */
  lemma MoreThanWasPaid(owner: string -> Id, fy: int -> int, user: Id)
    ensures var w := RunShop(EMPTY_SHOP, BesideRun(user), fy);
            var last := Refunded("p", "ours", Some(80), 0, "d2");
            && AllowedRun(EMPTY_SHOP, owner, BesideRun(user), fy) && Allowed(w, owner, last)
            && "p" in Next(w, last, fy).payments
            && var pay := Next(w, last, fy).payments["p"]; pay.amount == 100 && pay.refunded == 130
  {
    var w, last := Bought(fy, user, Answered80(fy), 1), Refunded("p", "ours", Some(80), 0, "d2");
    BesideRuns(owner, fy, user);
    PlaysIs(owner, fy, BesideRun(user), w, "dash", 1);
    LastRefund(owner, fy, user);
  }

  lemma LastApplies(owner: string -> Id, fy: int -> int, user: Id)
    ensures var w := Bought(fy, user, Answered80(fy), 1);
            && w.payments == map["p" := Answered80(fy)]
            && Applies(w, "p", "ours", Some(80), 0, "d2") && Allowed(w, owner, Refunded("p", "ours", Some(80), 0, "d2"))
  {
    BesideSteps(fy);
    hide RefundTarget;
  }

  lemma LastRefund(owner: string -> Id, fy: int -> int, user: Id)
    ensures var w, last := Bought(fy, user, Answered80(fy), 1), Refunded("p", "ours", Some(80), 0, "d2");
            && Allowed(w, owner, last)
            && "p" in Next(w, last, fy).payments
            && var pay := Next(w, last, fy).payments["p"]; pay.amount == 100 && pay.refunded == 130
  {
    hide Bought, Allowed, RefundTarget, MarkRefunded, Applies;
    LastApplies(owner, fy, user);
    BesideSteps(fy);
    B.RefundedPayments(Bought(fy, user, Answered80(fy), 1), "p", "ours", Some(80), 0, "d2", fy);
  }

  lemma BesideRuns(owner: string -> Id, fy: int -> int, user: Id)
    ensures Plays(owner, fy, BesideRun(user), Bought(fy, user, Answered80(fy), 1), "dash", 1)
  {
    var s0 := Buying(user);
    var s1 := s0 + [Claimed("p", "k", 80, 0, 0)];
    var s2 := s1 + [Refunded("p", "dash", Some(50), 0, "d1")];
    BesideSteps(fy);
    hide Plays, Bought, RefundTarget, Settled, Claim, MarkPending;
    Bought0(owner, fy, user, "dash");
    PaymentStep(owner, fy, user, s0, CAPTURED_PAYMENT, 0, Claimed("p", "k", 80, 0, 0), CLAIMED80, "dash", 0);
    RefundStep(owner, fy, user, s1, CLAIMED80, 0, "dash", 50, "d1", [CLAIM80, DASH50], 1, 0);
    PaymentStep(owner, fy, user, s2, Beside(fy), 1, Accepted("p", "k", "ours"), Answered80(fy), "dash", 1);
  }

  // ---- A refunded purchase whose lot fills again -----------------------------------------------------

  function HeldRun(user: Id): seq<Step> { Buying(user) + [Moved(C.Reserve(user, "s", 0))] + [Refunded("p", "dash", None, 0, "d1")] }

  function OneHeld(user: Id): C.Store {
    C.Store(
      map[user := C.Account(1, 1, [C.Lot(0, C.Purchased, 1, None)], 4)],
      [GrantOf(user), C.ReserveEntry(user, "s", 0)])
  }

  lemma ReserveHolds(user: Id)
    ensures C.Apply(TwoCredits(user), C.Reserve(user, "s", 0)).0 == OneHeld(user)
  {
    var st := TwoCredits(user);
    assert st.ledger[1..] == [];
    assert GrantOf(user).key == PurchaseKey("p") && C.ReserveKey("s")[0] == 'r' && PurchaseKey("p")[0] == 'p';
    assert C.FindEntry(st.ledger, C.ReserveKey("s")) == None;
    var lot := C.Lot(0, C.Purchased, 2, None);
    assert [lot][1..] == [];
    assert C.UsableLots([lot], 0) == [lot];
    assert C.AddToLot([lot], 0, -1) == [C.Lot(0, C.Purchased, 1, None)];
    var w := C.Post(C.Bump(st, user), C.ReserveEntry(user, "s", 0));
    assert w.ledger == [GrantOf(user), C.ReserveEntry(user, "s", 0)];
    assert w.accounts.Keys == {user};
  }

  lemma HeldIsPlayed(owner: string -> Id, fy: int -> int, user: Id)
    requires owner("s") == user
    ensures Plays(owner, fy, Buying(user) + [Moved(C.Reserve(user, "s", 0))], BoughtWith(fy, user, CAPTURED_PAYMENT, 0, OneHeld(user)), "dash", 0)
  {
    var w0, w1 := Bought(fy, user, CAPTURED_PAYMENT, 0), BoughtWith(fy, user, CAPTURED_PAYMENT, 0, OneHeld(user));
    Bought0(owner, fy, user, "dash");
    ReserveHolds(user);
    ForeignReserve(owner, w0, user);
    assert Next(w0, Moved(C.Reserve(user, "s", 0)), fy) == w1;
    hide Next, Plays, BoughtWith, Bought, Allowed;
    Then(owner, fy, Buying(user), w0, Moved(C.Reserve(user, "s", 0)), w1, "dash", 0);
  }

  /** The held purchase, and what its full refund leaves: the second credit is gone, the first held. */
  lemma RefundedWhileHeld(owner: string -> Id, fy: int -> int, user: Id)
    requires owner("s") == user
    ensures var w := RunShop(EMPTY_SHOP, HeldRun(user), fy);
            && AllowedRun(EMPTY_SHOP, owner, HeldRun(user), fy)
            && w.purchases == map["p" := PaidOrder(fy, user).(status := REFUNDED)]
            && CI.RemainingIn(w.credits, user, 0) == 0
            && G.GivesBack(w.credits, C.Settle(user, "s", true), user, 0)
  {
    var s1 := Buying(user) + [Moved(C.Reserve(user, "s", 0))];
    var w1 := BoughtWith(fy, user, CAPTURED_PAYMENT, 0, OneHeld(user));
    var last := Refunded("p", "dash", None, 0, "d1");
    HeldIsPlayed(owner, fy, user);
    FullRefund(fy, user, w1);
    assert Allowed(w1, owner, last);
    hide Next, Plays, BoughtWith, Allowed, RunShop, AllowedRun, CI.RemainingIn, G.GivesBack;
    Then(owner, fy, s1, w1, last, Next(w1, last, fy), "dash", 0);
    PlaysIs(owner, fy, HeldRun(user), Next(w1, last, fy), "dash", if AppliesNow(w1, last, fy, "p", "dash") then 1 else 0);
  }

  lemma ForeignReserve(owner: string -> Id, w: Shop, user: Id)
    requires owner("s") == user
    ensures Allowed(w, owner, Moved(C.Reserve(user, "s", 0))) && Allowed(w, owner, Moved(C.Settle(user, "s", true)))
  {
    assert (C.ReserveKey("s") + ":")[0] == 'r' && (C.SettleKey("s") + ":")[0] == 's' && "purchase:"[0] == 'p';
  }

  lemma FullRefundIs(fy: int -> int, user: Id, w1: Shop)
    requires w1 == BoughtWith(fy, user, CAPTURED_PAYMENT, 0, OneHeld(user))
    ensures var w := Next(w1, Refunded("p", "dash", None, 0, "d1"), fy);
            && w.purchases == map["p" := PaidOrder(fy, user).(status := REFUNDED)]
            && w.credits == C.Apply(OneHeld(user), C.Revoke(user, 0, RefundKey("p", "dash"), None)).0
  {
    var d1 := Refund("d1", Some("dash"), 100, Pending, 0, 0, 0, None);
    assert RefundTarget(CAPTURED_PAYMENT, "dash", None, 0, "d1") == Some(([] + [d1], 0));
    hide C.Apply, Settled, RefundTarget, ReleaseCoupon, OneHeld;
    assert map["p" := PaidOrder(fy, user)]["p" := PaidOrder(fy, user).(status := REFUNDED)] == map["p" := PaidOrder(fy, user).(status := REFUNDED)];
  }

  lemma FullRefund(fy: int -> int, user: Id, w1: Shop)
    requires w1 == BoughtWith(fy, user, CAPTURED_PAYMENT, 0, OneHeld(user))
    ensures var w := Next(w1, Refunded("p", "dash", None, 0, "d1"), fy);
            && w.purchases == map["p" := PaidOrder(fy, user).(status := REFUNDED)]
            && CI.RemainingIn(w.credits, user, 0) == 0
            && G.GivesBack(w.credits, C.Settle(user, "s", true), user, 0)
  {
    hide Next, C.Apply, OneHeld, BoughtWith, CI.RemainingIn, G.GivesBack;
    FullRefundIs(fy, user, w1);
    RevokedWhileHeld(user, C.Revoke(user, 0, RefundKey("p", "dash"), None));
  }

  lemma RevokedWhileHeld(user: Id, op: C.Op)
    requires op == C.Revoke(user, 0, RefundKey("p", "dash"), None)
    ensures var st := C.Apply(OneHeld(user), op).0;
            CI.RemainingIn(st, user, 0) == 0 && G.GivesBack(st, C.Settle(user, "s", true), user, 0)
  {
    var st, lot := OneHeld(user), C.Lot(0, C.Purchased, 1, None);
    var e := C.WithdrawEntry(user, 0, 1, op.key);
    assert RefundKey("p", "dash")[2] == 'f' && C.ReserveKey("s")[2] == 's' && PurchaseKey("p")[2] == 'r' && C.SettleKey("s")[2] == 't';
    assert !C.HasKey(st.ledger, op.key);
    assert [lot][1..] == [];
    assert C.AddToLot([lot], 0, -1) == [C.Lot(0, C.Purchased, 0, None)];
    var st' := C.Apply(st, op).0;
    assert st' == C.Post(C.Bump(st, user), e);
    assert st'.ledger == [GrantOf(user), C.ReserveEntry(user, "s", 0), e];
    assert C.ReserveEntry(user, "s", 0) == st'.ledger[1];
    assert C.AccountOf(st', user).lots == [C.Lot(0, C.Purchased, 0, None)];
  }

  /** A purchase is refunded in full while one of its credits is held by an interview: the refund leaves
      nothing in the lot, and the interview's refund puts one credit back. */
  lemma EmptiedLotRefills(owner: string -> Id, fy: int -> int, user: Id)
    requires owner("s") == user
    ensures var w := RunShop(EMPTY_SHOP, HeldRun(user), fy);
            var last := Moved(C.Settle(user, "s", true));
            && AllowedRun(EMPTY_SHOP, owner, HeldRun(user), fy) && Allowed(w, owner, last)
            && "p" in w.purchases && w.purchases["p"].status.REFUNDED? && w.purchases["p"].lot == Some(0)
            && CI.RemainingIn(w.credits, user, 0) == 0
            && CI.RemainingIn(Next(w, last, fy).credits, user, 0) == 1
  {
    RefundedWhileHeld(owner, fy, user);
    var w, last := RunShop(EMPTY_SHOP, HeldRun(user), fy), Moved(C.Settle(user, "s", true));
    ForeignReserve(owner, w, user);
    hide RunShop, AllowedRun, CI.RemainingIn, C.Apply, Allowed;
    assert T.Reachable(w, owner, fy);
    T.PaidLotGainsIff(w, owner, fy, last, "p");
    T.ReachableOk(w, owner, fy);
    T.LotInUse(w, owner, "p");
    SettleIsDisciplined(w, owner, last.op);
    G.LotGainsIff(w.credits, owner, last.op, user, 0);
  }

  lemma SettleIsDisciplined(w: Shop, owner: string -> Id, op: C.Op)
    requires Allowed(w, owner, Moved(op))
    ensures CR.Disciplined(w.credits, owner, op)
  {
  }

  // ---- A coupon past its limit -----------------------------------------------------------------------

  function CouponOrder(user: Id): Purchase { NewOrder(user).(coupon := Some(9)) }

  function CouponRun(): seq<Step> {
    [NewCoupon(9, Some(1), 1)] + [CountUses(9, 1)] + [CountUses(9, 2)] + [Ordered("a", CouponOrder(1))] + [Expired("a")]
    + [Ordered("b", CouponOrder(2))]
  }

  function CouponBook(used: int, held1: int, held2: int, redemptions: map<string, Redemption>): Book {
    Book(map[9 := Coupon(Some(1), 1, used)], map[(9, 1) := held1, (9, 2) := held2], redemptions)
  }

  function CouponShop(book: Book, purchases: map<string, Purchase>, payments: map<string, Payment>): Shop {
    Shop(purchases, payments, book, map[], C.EMPTY_STORE)
  }

  lemma CouponStart(owner: string -> Id, fy: int -> int)
    ensures Plays(owner, fy, [NewCoupon(9, Some(1), 1)] + [CountUses(9, 1)] + [CountUses(9, 2)],
                  CouponShop(CouponBook(0, 0, 0, map[]), map[], map[]), "", 0)
  {
    var w1 := CouponShop(Book(map[9 := Coupon(Some(1), 1, 0)], map[], map[]), map[], map[]);
    var w2 := w1.(book := w1.book.(held := map[(9, 1) := 0]));
    Nothing(owner, fy, "");
    Then(owner, fy, [], EMPTY_SHOP, NewCoupon(9, Some(1), 1), w1, "", 0);
    assert [] + [NewCoupon(9, Some(1), 1)] == [NewCoupon(9, Some(1), 1)];
    NoUsesYet(owner, fy, [NewCoupon(9, Some(1), 1)], w1, 1);
    Then(owner, fy, [NewCoupon(9, Some(1), 1)], w1, CountUses(9, 1), w2, "", 0);
    assert map[(9, 1) := 0][(9, 2) := 0] == map[(9, 1) := 0, (9, 2) := 0];
    NoUsesYet(owner, fy, [NewCoupon(9, Some(1), 1)] + [CountUses(9, 1)], w2, 2);
    Then(owner, fy, [NewCoupon(9, Some(1), 1)] + [CountUses(9, 1)], w2, CountUses(9, 2),
         CouponShop(CouponBook(0, 0, 0, map[]), map[], map[]), "", 0);
  }

  lemma NoUsesYet(owner: string -> Id, fy: int -> int, steps: seq<Step>, w: Shop, user: Id)
    requires Plays(owner, fy, steps, w, "", 0) && (9, user) !in w.book.held
    ensures EnsureCounter(w.book, 9, user) == w.book.(held := w.book.held[(9, user) := 0])
  {
    PlaysIs(owner, fy, steps, w, "", 0);
    hide AllowedRun, RunShop;
    assert T.Reachable(w, owner, fy);
    T.ReachableOk(w, owner, fy);
    U.NoUses(w.book, 9, user);
    assert U.UsesBy(w.book.redemptions, 9, user) == set p | p in w.book.redemptions && Counts(w.book.redemptions[p], 9, user);
  }

  function Released1(): map<string, Redemption> { map["a" := Redemption(9, 1, RELEASED)] }

  function Reserved1(): Shop {
    CouponShop(CouponBook(1, 1, 0, map["a" := Redemption(9, 1, RESERVED)]), map["a" := CouponOrder(1)], map["a" := UNPAID])
  }

  function Expired1(): Shop {
    CouponShop(CouponBook(0, 0, 0, Released1()), map["a" := CouponOrder(1).(status := EXPIRED)], map["a" := UNPAID])
  }

  lemma FirstOrders(fy: int -> int)
    ensures Next(CouponShop(CouponBook(0, 0, 0, map[]), map[], map[]), Ordered("a", CouponOrder(1)), fy) == Reserved1()
  {
  }

  lemma FirstExpires(fy: int -> int)
    ensures Next(Reserved1(), Expired("a"), fy) == Expired1()
  {
  }

  lemma CouponReleased(owner: string -> Id, fy: int -> int, start: seq<Step>)
    requires Plays(owner, fy, start, CouponShop(CouponBook(0, 0, 0, map[]), map[], map[]), "", 0)
    ensures Plays(owner, fy, start + [Ordered("a", CouponOrder(1))] + [Expired("a")], Expired1(), "", 0)
  {
    FirstOrders(fy);
    FirstExpires(fy);
    hide Next, Plays;
    Then(owner, fy, start, CouponShop(CouponBook(0, 0, 0, map[]), map[], map[]), Ordered("a", CouponOrder(1)), Reserved1(), "", 0);
    Then(owner, fy, start + [Ordered("a", CouponOrder(1))], Reserved1(), Expired("a"), Expired1(), "", 0);
  }

  function SoldOut(): Shop {
    CouponShop(
      CouponBook(1, 0, 1, Released1()["b" := Redemption(9, 2, RESERVED)]),
      map["a" := CouponOrder(1).(status := EXPIRED), "b" := CouponOrder(2)], map["a" := UNPAID, "b" := UNPAID])
  }

  lemma CouponSoldOut(owner: string -> Id, fy: int -> int)
    ensures Plays(owner, fy, CouponRun(), SoldOut(), "", 0)
  {
    CouponStart(owner, fy);
    var start := [NewCoupon(9, Some(1), 1)] + [CountUses(9, 1)] + [CountUses(9, 2)];
    CouponReleased(owner, fy, start);
    assert Next(Expired1(), Ordered("b", CouponOrder(2)), fy) == SoldOut();
    Then(owner, fy, start + [Ordered("a", CouponOrder(1))] + [Expired("a")], Expired1(), Ordered("b", CouponOrder(2)), SoldOut(), "", 0);
  }

  /** A coupon for one use is used twice: the first order expires, the second takes its use, and then the
      first is paid after all. */
  lemma LatePaymentOverruns(owner: string -> Id, fy: int -> int)
    ensures var w := RunShop(EMPTY_SHOP, CouponRun(), fy);
            var last := Paid("a", Some("pay"), 0, 0);
            && AllowedRun(EMPTY_SHOP, owner, CouponRun(), fy) && Allowed(w, owner, last)
            && 9 in w.book.coupons && w.book.coupons[9].maxUses == Some(1) && w.book.coupons[9].used == 1
            && 9 in Next(w, last, fy).book.coupons && Next(w, last, fy).book.coupons[9].used == 2
  {
    CouponSoldOut(owner, fy);
    PlaysIs(owner, fy, CouponRun(), SoldOut(), "", 0);
    PaidAfterAll(owner, fy);
  }

  lemma PaidAfterAll(owner: string -> Id, fy: int -> int)
    requires T.Reachable(SoldOut(), owner, fy)
    ensures var last := Paid("a", Some("pay"), 0, 0);
            && Allowed(SoldOut(), owner, last)
            && 9 in Next(SoldOut(), last, fy).book.coupons && Next(SoldOut(), last, fy).book.coupons[9].used == 2
  {
    var last := Paid("a", Some("pay"), 0, 0);
    LateOrder(owner, last);
    hide Next, Allowed, SoldOut, T.Late, ShopOk;
    T.ReachableOk(SoldOut(), owner, fy);
    T.LateTakesOne(SoldOut(), owner, last, fy, 9);
  }

  lemma LateOrder(owner: string -> Id, last: Step)
    requires last == Paid("a", Some("pay"), 0, 0)
    ensures Allowed(SoldOut(), owner, last) && T.Late(SoldOut(), last, 9, None)
    ensures 9 in SoldOut().book.coupons && SoldOut().book.coupons[9].used == 1
  {
  }

  // ---- A user past their own limit -------------------------------------------------------------------

  function OwnBook(used: int, redemptions: map<string, Redemption>): Book {
    Book(map[9 := Coupon(None, 1, used)], map[(9, 1) := used], redemptions)
  }

  function OwnRun(): seq<Step> {
    [NewCoupon(9, None, 1)] + [CountUses(9, 1)] + [Ordered("a", CouponOrder(1))] + [Expired("a")] + [Ordered("b", CouponOrder(1))]
  }

  lemma OwnStart(owner: string -> Id, fy: int -> int)
    ensures Plays(owner, fy, [NewCoupon(9, None, 1)] + [CountUses(9, 1)], CouponShop(OwnBook(0, map[]), map[], map[]), "", 0)
  {
    var w1 := CouponShop(Book(map[9 := Coupon(None, 1, 0)], map[], map[]), map[], map[]);
    Nothing(owner, fy, "");
    Then(owner, fy, [], EMPTY_SHOP, NewCoupon(9, None, 1), w1, "", 0);
    assert [] + [NewCoupon(9, None, 1)] == [NewCoupon(9, None, 1)];
    NoUsesYet(owner, fy, [NewCoupon(9, None, 1)], w1, 1);
    Then(owner, fy, [NewCoupon(9, None, 1)], w1, CountUses(9, 1), CouponShop(OwnBook(0, map[]), map[], map[]), "", 0);
  }

  function OwnExpired(): Shop {
    CouponShop(OwnBook(0, Released1()), map["a" := CouponOrder(1).(status := EXPIRED)], map["a" := UNPAID])
  }

  lemma OwnReleased(owner: string -> Id, fy: int -> int, start: seq<Step>)
    requires Plays(owner, fy, start, CouponShop(OwnBook(0, map[]), map[], map[]), "", 0)
    ensures Plays(owner, fy, start + [Ordered("a", CouponOrder(1))] + [Expired("a")], OwnExpired(), "", 0)
  {
    var w0 := CouponShop(OwnBook(0, map[]), map[], map[]);
    var w1 := CouponShop(OwnBook(1, map["a" := Redemption(9, 1, RESERVED)]), map["a" := CouponOrder(1)], map["a" := UNPAID]);
    assert Next(w0, Ordered("a", CouponOrder(1)), fy) == w1;
    Then(owner, fy, start, w0, Ordered("a", CouponOrder(1)), w1, "", 0);
    assert Next(w1, Expired("a"), fy) == OwnExpired();
    Then(owner, fy, start + [Ordered("a", CouponOrder(1))], w1, Expired("a"), OwnExpired(), "", 0);
  }

  function OwnTaken(): Shop {
    CouponShop(
      OwnBook(1, Released1()["b" := Redemption(9, 1, RESERVED)]),
      map["a" := CouponOrder(1).(status := EXPIRED), "b" := CouponOrder(1)], map["a" := UNPAID, "b" := UNPAID])
  }

  lemma OwnIsPlayed(owner: string -> Id, fy: int -> int)
    ensures Plays(owner, fy, OwnRun(), OwnTaken(), "", 0)
  {
    OwnStart(owner, fy);
    var start := [NewCoupon(9, None, 1)] + [CountUses(9, 1)];
    OwnReleased(owner, fy, start);
    assert Next(OwnExpired(), Ordered("b", CouponOrder(1)), fy) == OwnTaken();
    Then(owner, fy, start + [Ordered("a", CouponOrder(1))] + [Expired("a")], OwnExpired(), Ordered("b", CouponOrder(1)), OwnTaken(), "", 0);
  }

  /** A user who may use a coupon once uses it twice: their first order expires, their second takes the
      use, and then the first is paid after all. */
  lemma LatePaymentOverrunsUser(owner: string -> Id, fy: int -> int)
    ensures var w := RunShop(EMPTY_SHOP, OwnRun(), fy);
            var last := Paid("a", Some("pay"), 0, 0);
            && AllowedRun(EMPTY_SHOP, owner, OwnRun(), fy) && Allowed(w, owner, last)
            && 9 in w.book.coupons && w.book.coupons[9].perUserLimit == 1
            && (9, 1) in w.book.held && w.book.held[(9, 1)] == 1
            && (9, 1) in Next(w, last, fy).book.held && Next(w, last, fy).book.held[(9, 1)] == 2
  {
    OwnIsPlayed(owner, fy);
    PlaysIs(owner, fy, OwnRun(), OwnTaken(), "", 0);
    OwnPaidAfterAll(owner, fy);
  }

  lemma OwnPaidAfterAll(owner: string -> Id, fy: int -> int)
    requires T.Reachable(OwnTaken(), owner, fy)
    ensures var last := Paid("a", Some("pay"), 0, 0);
            && Allowed(OwnTaken(), owner, last)
            && (9, 1) in Next(OwnTaken(), last, fy).book.held && Next(OwnTaken(), last, fy).book.held[(9, 1)] == 2
  {
    var last := Paid("a", Some("pay"), 0, 0);
    OwnLateOrder(owner, last);
    hide Next, Allowed, OwnTaken, T.Late, ShopOk;
    T.ReachableOk(OwnTaken(), owner, fy);
    T.LateTakesOwn(OwnTaken(), owner, last, fy, 9, 1);
  }

  lemma OwnLateOrder(owner: string -> Id, last: Step)
    requires last == Paid("a", Some("pay"), 0, 0)
    ensures Allowed(OwnTaken(), owner, last) && T.Late(OwnTaken(), last, 9, Some(1))
    ensures 9 in OwnTaken().book.coupons && (9, 1) in OwnTaken().book.held && OwnTaken().book.held[(9, 1)] == 1
  {
  }
}

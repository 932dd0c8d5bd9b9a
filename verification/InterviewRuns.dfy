/** Interviews over the credit ledger: what every run of session events, saves and credit
    operations keeps, for all sessions at once. */
module InterviewRuns {
  import opened Wrappers
  import opened CreditLedger
  import opened CreditInvariant
  import opened CreditRuns
  import opened SessionMachine
  import opened InterviewState
  import opened SessionInvariant

  // ---- Runs of the whole system ----------------------------------------------------------------

  datatype WorldStep =
    | Create(id: string, session: Session)
    | Fire(input: Input)
    | Write(id: string, save: Save)
    | Relabel(id: string, to: State)
    | Move(op: Op)

  /** `transitionSession`: sets the state alone, with no effects. */
  function Relabelled(s: Session, to: State): Session {
    s.(state := to, live := InProgress(to), version := s.version + 1)
  }

  /** A session as it is first saved. */
  predicate NewSession(s: Session) {
    && (s.state.DRAFT? || s.state.READY?) && s.credit.NONE? && !s.live
    && s.clock.None? && s.planner.None? && s.resumeTo.None? && s.startedAt.None?
  }

  function NextWorld(w: World, step: WorldStep): World {
    match step
    case Create(id, s) => w.(sessions := w.sessions[id := s])
    case Fire(input) => ApplyEvent(w, input).0
    case Write(id, save) =>
      if id in w.sessions && SaveSession(w.sessions[id], save).Some?
      then w.(sessions := w.sessions[id := SaveSession(w.sessions[id], save).value]) else w
    case Relabel(id, to) =>
      if id in w.sessions then w.(sessions := w.sessions[id := Relabelled(w.sessions[id], to)]) else w
    case Move(op) => w.(credits := Apply(w.credits, op).0)
  }

  /** The states role analysis and cancellation move sessions between. */
  predicate RelabelPair(from: State, to: State) {
    match to
    case ROLE_ANALYSIS => from.DRAFT? || from.READY? || from.FAILED?
    case READY => from.ROLE_ANALYSIS?
    case FAILED => from.ROLE_ANALYSIS?
    case CANCELLED => from.DRAFT? || from.READY? || from.READY_TO_START? || from.FAILED?
    case _ => false
  }

  /** What the callers of these steps see to. */
  ghost predicate Allowed(w: World, owner: string -> Id, step: WorldStep) {
    match step
    case Create(id, s) => id !in w.sessions && NewSession(s) && s.user == owner(id)
    case Fire(input) => input.id in w.sessions ==> PatchOk(w.sessions[input.id], input)
    case Write(_, _) => true
    case Relabel(id, to) => id in w.sessions ==> RelabelPair(w.sessions[id].state, to) && w.sessions[id].startedAt.None?
    case Move(op) => !op.Reserve? && !op.Settle? && Disciplined(w.credits, owner, op)
  }

  // ---- The invariant ---------------------------------------------------------------------------

  /** The session's credit status says what the ledger holds for it. */
  ghost predicate Mirror(ledger: seq<Entry>, id: string, s: Session) {
    match s.credit
    case RESERVED => s.creditLot.Some? && ReserveEntry(s.user, id, s.creditLot.value) in ledger && !HasKey(ledger, SettleKey(id))
    case CONSUMED => s.creditLot.Some? && SettleEntry(s.user, id, false, s.creditLot.value) in ledger
    case REFUNDED => s.creditLot.Some? && SettleEntry(s.user, id, true, s.creditLot.value) in ledger
    case _ => !HasKey(ledger, ReserveKey(id)) && !HasKey(ledger, SettleKey(id))
  }

  ghost predicate SessionFits(w: World, owner: string -> Id, id: string)
    requires id in w.sessions
  {
    SessionOk(w.sessions[id]) && w.sessions[id].user == owner(id) && Mirror(w.credits.ledger, id, w.sessions[id])
  }

  ghost predicate WorldOk(w: World, owner: string -> Id) {
    && Inv(w.credits, owner)
    && (forall id <- w.sessions :: SessionFits(w, owner, id))
    && (forall id: string :: HasKey(w.credits.ledger, ReserveKey(id)) ==> id in w.sessions)
  }

  /** No entry of session `id` comes or goes. */
  ghost predicate SameEntries(l: seq<Entry>, l': seq<Entry>, id: string) {
    forall e: Entry :: e.key == ReserveKey(id) || e.key == SettleKey(id) ==> (e in l <==> e in l')
  }

  lemma SameEntriesSameMirror(l: seq<Entry>, l': seq<Entry>, id: string, s: Session)
    requires SameEntries(l, l', id)
    ensures Mirror(l, id, s) <==> Mirror(l', id, s)
    ensures HasKey(l, ReserveKey(id)) <==> HasKey(l', ReserveKey(id))
  {
    SameEntriesSameKeys(l, l', id);
    if s.creditLot.Some? {
      var lot := s.creditLot.value;
      assert ReserveEntry(s.user, id, lot).key == ReserveKey(id);
      assert SettleEntry(s.user, id, false, lot).key == SettleKey(id);
      assert SettleEntry(s.user, id, true, lot).key == SettleKey(id);
    }
  }

  lemma SameEntriesSameKeys(l: seq<Entry>, l': seq<Entry>, id: string)
    requires SameEntries(l, l', id)
    ensures HasKey(l, ReserveKey(id)) <==> HasKey(l', ReserveKey(id))
    ensures HasKey(l, SettleKey(id)) <==> HasKey(l', SettleKey(id))
  {
  }

  // ---- Credits moved by events -----------------------------------------------------------------

  /** The credit operation an event carries out when it is applied, if any. */
  function CreditOp(s: Session, input: Input): Option<Op> {
    if input.event.START? then
      if s.drill || Patched(s, input.patch).sponsored then None else Some(Reserve(s.user, input.id, input.now))
    else if !s.credit.RESERVED? then None
    else if input.event.RESUME_WINDOW_EXPIRED? || input.event.FINALIZE? then
      Some(Settle(s.user, input.id, !Meaningful(s, input.now, input.policy)))
    else if input.event.FAIL? then Some(Settle(s.user, input.id, true))
    else None
  }

  /** The edit a step ends with. */
  function FinalEdit(s: Session, input: Input, e: Edit): Option<Edit> {
    var t := Transit(s.state, input.event, SessionContext(e.s, input.now, input.policy));
    if t.Moved? then RunEffects(input, e, t.effects) else None
  }

  /** The credit fields after an event: unchanged unless a credit moved. */
  ghost predicate CreditFields(s: Session, input: Input, before: Store, s': Session) {
    match CreditOp(s, input)
    case None =>
      if input.event.START? then s'.credit in {FREE, SPONSORED} && s'.creditLot.None?
      else s'.credit == s.credit && s'.creditLot == s.creditLot
    case Some(op) =>
      if op.Reserve? then
        var out := Apply(before, op).1;
        out.ReservedFrom? && s'.credit.RESERVED? && s'.creditLot == Some(out.lot)
      else op.Settle? && s'.credit == (if op.refund then REFUNDED else CONSUMED) && s'.creditLot == s.creditLot
  }

  ghost predicate EventCredits(s: Session, input: Input, e: Edit, s': Session) {
    var r := FinalEdit(s, input, e);
    && r.Some?
    && r.value.credits == (if CreditOp(s, input).Some? then Apply(e.credits, CreditOp(s, input).value).0 else e.credits)
    && r.value.campaignUsed == e.campaignUsed
    && CreditFields(s, input, e.credits, s')
    && s'.user == s.user && s'.drill == s.drill
  }

  lemma StartCredits(s: Session, input: Input, e: Edit, s': Session)
    requires SessionOk(s) && Step(s, input, e, s') && input.event.START?
    ensures EventCredits(s, input, e, s')
  {
    ThreeEffects(input, e, RESERVE_CREDIT, START_CLOCK, START_NEXT_ROUND);
    var r := ReserveEffect(input, e).value;
    TwoEffects(input, r, START_CLOCK, START_NEXT_ROUND);
  }

  lemma SettlingCredits(s: Session, input: Input, e: Edit, s': Session)
    requires Step(s, input, e, s') && input.event in {RESUME_WINDOW_EXPIRED, FINALIZE}
    ensures EventCredits(s, input, e, s')
  {
    assert Patched(s, input.patch) == s;
    var ctx := SessionContext(s, input.now, input.policy);
    hide Apply;
    if input.event.FINALIZE? {
      SettleRuns(input, e, ctx, [ENQUEUE_EVALUATION]);
    } else {
      SettleRuns(input, e, ctx, []);
      assert SettleEffects(ctx) + [] == SettleEffects(ctx);
    }
  }

  lemma FailCredits(s: Session, input: Input, e: Edit, s': Session)
    requires SessionOk(s) && Step(s, input, e, s') && input.event.FAIL?
    ensures EventCredits(s, input, e, s')
  {
    assert Patched(s, input.patch) == s;
    FailEffects(input, e, Live(s.state), s.credit.RESERVED?);
  }

  /** Effects that leave the credits alone. */
  predicate Creditless(effect: Effect) { !effect.RESERVE_CREDIT? && !effect.CONSUME_CREDIT? && !effect.REFUND_CREDIT? }

  /** The same credits, and a session that pays the same way. */
  ghost predicate SameCredits(a: Edit, b: Edit) {
    && b.credits == a.credits && b.campaignUsed == a.campaignUsed
    && b.s.credit == a.s.credit && b.s.creditLot == a.s.creditLot && b.s.user == a.s.user && b.s.drill == a.s.drill
  }

  lemma CreditlessEffect(input: Input, e: Edit, effect: Effect)
    requires Creditless(effect) && RunEffect(input, e, effect).Some?
    ensures SameCredits(e, RunEffect(input, e, effect).value)
  {
  }

  lemma {:induction false} CreditlessRun(input: Input, e: Edit, effects: seq<Effect>)
    requires (forall x <- effects :: Creditless(x)) && RunEffects(input, e, effects).Some?
    ensures SameCredits(e, RunEffects(input, e, effects).value)
    decreases |effects|
  {
    if effects != [] {
      assert Creditless(effects[0]);
      CreditlessEffect(input, e, effects[0]);
      CreditlessRun(input, RunEffect(input, e, effects[0]).value, effects[1..]);
    }
  }

  lemma TransitCreditless(state: State, event: Event, ctx: Context)
    requires event !in {START, RESUME_WINDOW_EXPIRED, FINALIZE, FAIL} && Transit(state, event, ctx).Moved?
    ensures forall x <- Transit(state, event, ctx).effects :: Creditless(x)
  {
  }

  lemma OtherCredits(s: Session, input: Input, e: Edit, s': Session)
    requires Step(s, input, e, s')
    requires input.event !in {START, RESUME_WINDOW_EXPIRED, FINALIZE, FAIL}
    ensures EventCredits(s, input, e, s')
  {
    var ctx := SessionContext(e.s, input.now, input.policy);
    TransitCreditless(s.state, input.event, ctx);
    CreditlessRun(input, e, Transit(s.state, input.event, ctx).effects);
  }

  lemma StepCredits(s: Session, input: Input, e: Edit, s': Session)
    requires SessionOk(s) && Step(s, input, e, s')
    ensures EventCredits(s, input, e, s')
  {
    match input.event
    case START => StartCredits(s, input, e, s');
    case RESUME_WINDOW_EXPIRED => SettlingCredits(s, input, e, s');
    case FINALIZE => SettlingCredits(s, input, e, s');
    case FAIL => FailCredits(s, input, e, s');
    case _ => OtherCredits(s, input, e, s');
  }

  // ---- What a credit operation of a session does to the ledger ----------------------------------

  lemma AppendOnlyOf(l: seq<Entry>, e: Entry, id: string)
    requires e.key == ReserveKey(id) || e.key == SettleKey(id)
    ensures forall other: string :: other != id ==> SameEntries(l, l + [e], other)
  {
    forall other: string, x: Entry | other != id && (x.key == ReserveKey(other) || x.key == SettleKey(other))
      ensures x in l <==> x in l + [e]
    {
      SessionKeysDiffer(id, other);
      SessionKeysDiffer(other, id);
    }
  }

  lemma ReserveMirrors(st: Store, owner: string -> Id, op: Op, s': Session)
    requires op.Reserve? && Inv(st, owner) && !HasKey(st.ledger, ReserveKey(op.session)) && !HasKey(st.ledger, SettleKey(op.session))
    requires Apply(st, op).1.ReservedFrom? && s'.user == op.user && s'.credit.RESERVED? && s'.creditLot == Some(Apply(st, op).1.lot)
    ensures Mirror(Apply(st, op).0.ledger, op.session, s')
    ensures forall other: string :: other != op.session ==> SameEntries(st.ledger, Apply(st, op).0.ledger, other)
  {
    var e := ReserveEntry(op.user, op.session, Apply(st, op).1.lot);
    assert Apply(st, op).0.ledger == st.ledger + [e];
    assert e in st.ledger + [e];
    AppendOnlyOf(st.ledger, e, op.session);
    SessionKeysDiffer(op.session, op.session);
  }

  lemma SettleMirrors(st: Store, owner: string -> Id, op: Op, s: Session, s': Session)
    requires op.Settle? && Inv(st, owner) && s.credit.RESERVED? && s.user == op.user && Mirror(st.ledger, op.session, s)
    requires s'.user == s.user && s'.creditLot == s.creditLot && s'.credit == if op.refund then REFUNDED else CONSUMED
    ensures Mirror(Apply(st, op).0.ledger, op.session, s')
    ensures forall other: string :: other != op.session ==> SameEntries(st.ledger, Apply(st, op).0.ledger, other)
    ensures Apply(st, op).1 == Settled(if op.refund then INTERVIEW_REFUND else INTERVIEW_CONSUME, true)
  {
    var r := ReserveEntry(s.user, op.session, s.creditLot.value);
    var found := FindEntry(st.ledger, ReserveKey(op.session));
    assert r.key == ReserveKey(op.session);
    SameKeySameEntry(st.ledger, found.value, r);
    var e := SettleEntry(op.user, op.session, op.refund, s.creditLot.value);
    assert Apply(st, op).0.ledger == st.ledger + [e];
    assert e in st.ledger + [e];
    AppendOnlyOf(st.ledger, e, op.session);
  }

  // ---- Every step keeps the invariant ------------------------------------------------------------

  lemma SaveSessionOf(w: World, owner: string -> Id, w': World, id: string)
    requires WorldOk(w, owner) && Inv(w'.credits, owner)
    requires w'.sessions.Keys == w.sessions.Keys + {id} && SessionFits(w', owner, id)
    requires forall k <- w.sessions :: k != id ==> w'.sessions[k] == w.sessions[k]
    requires forall k: string :: k != id ==> SameEntries(w.credits.ledger, w'.credits.ledger, k)
    ensures WorldOk(w', owner)
  {
    var l, l' := w.credits.ledger, w'.credits.ledger;
    forall k | k in w'.sessions ensures SessionFits(w', owner, k) {
      if k != id {
        assert SessionFits(w, owner, k);
        SameEntriesSameMirror(l, l', k, w.sessions[k]);
      }
    }
    forall k: string | HasKey(l', ReserveKey(k)) ensures k in w'.sessions {
      if k != id { SameEntriesSameKeys(l, l', k); }
    }
  }

  /** An applied event is a step of its session, run on the stored credits. */
  lemma AppliedIsStep(w: World, owner: string -> Id, input: Input)
    requires WorldOk(w, owner) && Allowed(w, owner, Fire(input)) && ApplyEvent(w, input).1.Applied?
    ensures input.id in w.sessions
    ensures var s, s' := w.sessions[input.id], ApplyEvent(w, input).1.session;
            var e := Edit(w.credits, w.campaignUsed, Patched(s, input.patch));
            && Step(s, input, e, s')
            && FinalEdit(s, input, e).Some?
            && ApplyEvent(w, input).0 ==
               World(FinalEdit(s, input, e).value.credits, w.sessions[input.id := s'], FinalEdit(s, input, e).value.campaignUsed)
  {
  }

  lemma RefusedChangesNothing(w: World, input: Input)
    requires !ApplyEvent(w, input).1.Applied?
    ensures ApplyEvent(w, input).0 == w
  {
  }

  /** Whatever credit operation a step carries out keeps the credits in order and the session mirrored. */
  lemma CreditOpKeeps(credits: Store, owner: string -> Id, s: Session, input: Input, s': Session)
    requires Inv(credits, owner) && SessionOk(s) && s.user == owner(input.id) && Mirror(credits.ledger, input.id, s)
    requires CreditFields(s, input, credits, s') && s'.user == s.user
    requires input.event.START? ==> s.credit.NONE?
    ensures var op := CreditOp(s, input);
            var credits' := if op.Some? then Apply(credits, op.value).0 else credits;
            && Inv(credits', owner)
            && Mirror(credits'.ledger, input.id, s')
            && forall k: string :: k != input.id ==> SameEntries(credits.ledger, credits'.ledger, k)
  {
    var op := CreditOp(s, input);
    if op.Some? {
      ApplyKeepsInv(credits, owner, op.value);
      if op.value.Reserve? {
        ReserveMirrors(credits, owner, op.value, s');
      } else {
        SettleMirrors(credits, owner, op.value, s, s');
      }
    }
  }

  lemma FireKeepsOk(w: World, owner: string -> Id, input: Input)
    requires WorldOk(w, owner) && Allowed(w, owner, Fire(input))
    ensures WorldOk(ApplyEvent(w, input).0, owner)
    ensures ApplyEvent(w, input).0.campaignUsed == w.campaignUsed
  {
    if ApplyEvent(w, input).1.Applied? {
      AppliedIsStep(w, owner, input);
      var s, w' := w.sessions[input.id], ApplyEvent(w, input).0;
      var s', e := ApplyEvent(w, input).1.session, Edit(w.credits, w.campaignUsed, Patched(s, input.patch));
      assert SessionFits(w, owner, input.id);
      EventKeepsOk(s, input, e, s');
      StepCredits(s, input, e, s');
      StartsUnpaid(s, input, e, s');
      CreditOpKeeps(w.credits, owner, s, input, s');
      SaveSessionOf(w, owner, w', input.id);
    } else {
      RefusedChangesNothing(w, input);
    }
  }

  lemma StartsUnpaid(s: Session, input: Input, e: Edit, s': Session)
    requires SessionOk(s) && Step(s, input, e, s')
    ensures input.event.START? ==> s.credit.NONE?
  {
  }

  lemma WriteKeepsOk(w: World, owner: string -> Id, id: string, save: Save)
    requires WorldOk(w, owner)
    ensures WorldOk(NextWorld(w, Write(id, save)), owner)
  {
    if id in w.sessions && SaveSession(w.sessions[id], save).Some? {
      assert SessionFits(w, owner, id);
      SaveKeepsOk(w.sessions[id], save);
      SaveSessionOf(w, owner, NextWorld(w, Write(id, save)), id);
    }
  }

  /** Setting the state alone is safe exactly for sessions that never started. */
  lemma RelabelKeepsOkIffUnstarted(s: Session, to: State)
    requires SessionOk(s) && RelabelPair(s.state, to)
    ensures SessionOk(Relabelled(s, to)) <==> s.startedAt.None?
  {
  }

  lemma RelabelKeepsOk(w: World, owner: string -> Id, id: string, to: State)
    requires WorldOk(w, owner) && Allowed(w, owner, Relabel(id, to))
    ensures WorldOk(NextWorld(w, Relabel(id, to)), owner)
  {
    if id in w.sessions {
      assert SessionFits(w, owner, id);
      RelabelKeepsOkIffUnstarted(w.sessions[id], to);
      SaveSessionOf(w, owner, NextWorld(w, Relabel(id, to)), id);
    }
  }

  lemma CreateKeepsOk(w: World, owner: string -> Id, id: string, s: Session)
    requires WorldOk(w, owner) && Allowed(w, owner, Create(id, s))
    ensures WorldOk(NextWorld(w, Create(id, s)), owner)
  {
    if HasKey(w.credits.ledger, SettleKey(id)) { SettledWasReserved(w.credits.ledger, owner, id); }
    SaveSessionOf(w, owner, NextWorld(w, Create(id, s)), id);
  }

  /** Credit operations outside interviews add no entry of any session. */
  ghost predicate NoSessionEntries(l: seq<Entry>, l': seq<Entry>) {
    l <= l' && forall e <- l' :: e in l || !SessionKey(e.key)
  }

  lemma MoveAddsNoSessionEntries(st: Store, owner: string -> Id, op: Op)
    requires Disciplined(st, owner, op) && !op.Reserve? && !op.Settle?
    ensures NoSessionEntries(st.ledger, Apply(st, op).0.ledger)
  {
    if op.Deduct? {
      var lots, keys := UsableLots(AccountOf(st, op.user).lots, op.now), PartKeys(op.key);
      forall i: nat ensures !SessionKey(keys(i)) { CallerKeyParts(op.key, i); }
      if op.credits > 0 && TakeFrom(Bump(st, op.user), op.user, lots, 0, op.credits, keys).Some? {
        TakeFromInduction(
          (s: Store, i: nat) => NoSessionEntries(st.ledger, s.ledger),
          Bump(st, op.user), op.user, lots, 0, op.credits, keys, TakeFrom(Bump(st, op.user), op.user, lots, 0, op.credits, keys).value);
      }
    } else if op.Grant? || op.Revoke? {
      CallerKeyParts(op.key, 0);
    }
  }

  lemma MoveKeepsOk(w: World, owner: string -> Id, op: Op)
    requires WorldOk(w, owner) && Allowed(w, owner, Move(op))
    ensures WorldOk(NextWorld(w, Move(op)), owner)
  {
    var l, w' := w.credits.ledger, NextWorld(w, Move(op));
    ApplyKeepsInv(w.credits, owner, op);
    MoveAddsNoSessionEntries(w.credits, owner, op);
    forall id: string ensures SameEntries(l, w'.credits.ledger, id) {
      SessionKeysDiffer(id, id);
      assert forall e <- l :: e in w'.credits.ledger;
    }
    forall id | id in w'.sessions ensures SessionFits(w', owner, id) {
      assert SessionFits(w, owner, id);
      SameEntriesSameMirror(l, w'.credits.ledger, id, w.sessions[id]);
    }
    forall id: string | HasKey(w'.credits.ledger, ReserveKey(id)) ensures id in w'.sessions {
      SameEntriesSameKeys(l, w'.credits.ledger, id);
    }
  }

  lemma StepKeepsOk(w: World, owner: string -> Id, step: WorldStep)
    requires WorldOk(w, owner) && Allowed(w, owner, step)
    ensures WorldOk(NextWorld(w, step), owner)
    ensures NextWorld(w, step).campaignUsed == w.campaignUsed
  {
    match step
    case Create(id, s) => CreateKeepsOk(w, owner, id, s);
    case Fire(input) => FireKeepsOk(w, owner, input);
    case Write(id, save) => WriteKeepsOk(w, owner, id, save);
    case Relabel(id, to) => RelabelKeepsOk(w, owner, id, to);
    case Move(op) => MoveKeepsOk(w, owner, op);
  }

  const EMPTY_WORLD := World(EMPTY_STORE, map[], map[])

  function RunWorld(w: World, steps: seq<WorldStep>): World
    decreases |steps|
  {
    if steps == [] then w else RunWorld(NextWorld(w, steps[0]), steps[1..])
  }

  ghost predicate AllowedRun(w: World, owner: string -> Id, steps: seq<WorldStep>)
    decreases |steps|
  {
    steps == [] || (Allowed(w, owner, steps[0]) && AllowedRun(NextWorld(w, steps[0]), owner, steps[1..]))
  }

  /** Every run keeps the invariant; and no settlement ever returns a campaign's budget. */
  lemma {:induction false} RunKeepsOk(w: World, owner: string -> Id, steps: seq<WorldStep>)
    requires WorldOk(w, owner) && AllowedRun(w, owner, steps)
    ensures WorldOk(RunWorld(w, steps), owner)
    ensures RunWorld(w, steps).campaignUsed == w.campaignUsed
    decreases |steps|
  {
    if steps != [] {
      StepKeepsOk(w, owner, steps[0]);
      RunKeepsOk(NextWorld(w, steps[0]), owner, steps[1..]);
    }
  }

  lemma EmptyWorldOk(owner: string -> Id)
    ensures WorldOk(EMPTY_WORLD, owner)
  {
    EmptyInv(owner);
  }

  lemma {:induction false} OneMore(w: World, owner: string -> Id, steps: seq<WorldStep>, step: WorldStep)
    ensures RunWorld(w, steps + [step]) == NextWorld(RunWorld(w, steps), step)
    ensures AllowedRun(w, owner, steps + [step]) <==> AllowedRun(w, owner, steps) && Allowed(RunWorld(w, steps), owner, step)
    decreases |steps|
  {
    hide NextWorld, Allowed;
    if steps == [] {
      assert [step][1..] == [];
      assert steps + [step] == [step];
    } else {
      assert (steps + [step])[1..] == steps[1..] + [step];
      OneMore(NextWorld(w, steps[0]), owner, steps[1..], step);
    }
  }
}

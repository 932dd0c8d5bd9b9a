/** Interview time: what the clock of every session measures along a run, and what that means for
    interviews that expire. */
module InterviewTime {
  import opened Wrappers
  import opened SessionMachine
  import opened InterviewClock
  import opened InterviewState
  import opened SessionInvariant
  import opened InterviewRuns
  import L = CreditLedger

  // ---- One step --------------------------------------------------------------------------------

  predicate TimeOk(c: Clock, t: int) { c.runningSince.Some? ==> c.runningSince.value <= t }

  /** At time `t` the clock became another: no time used is lost, and none is added. */
  predicate KeepsTime(c: Clock, c': Clock, t: int) {
    && c'.activeMs >= c.activeMs && c'.budgetMs == c.budgetMs
    && (TimeOk(c, t) ==> TimeOk(c', t) && ElapsedMs(c', t) == ElapsedMs(c, t))
  }

  /** The same for a session, which has no clock before its start. */
  predicate SessionKeepsTime(s: Session, s': Session, t: int) {
    if s.clock.Some? then s'.clock.Some? && KeepsTime(s.clock.value, s'.clock.value, t)
    else s'.clock.Some? ==> s'.clock.value.activeMs == 0 && s'.clock.value.runningSince == Some(t)
  }

  lemma EffectKeepsTime(input: Input, e: Edit, effect: Effect)
    requires RunEffect(input, e, effect).Some? && (effect.START_CLOCK? ==> e.s.clock.None?)
    ensures SessionKeepsTime(e.s, RunEffect(input, e, effect).value.s, input.now)
  {
  }

  lemma {:induction false} EffectsKeepTime(input: Input, e: Edit, effects: seq<Effect>)
    requires RunEffects(input, e, effects).Some? && START_CLOCK !in effects
    ensures var s' := RunEffects(input, e, effects).value.s;
            if e.s.clock.Some? then s'.clock.Some? && KeepsTime(e.s.clock.value, s'.clock.value, input.now) else s'.clock.None?
    decreases |effects|
  {
    if effects != [] {
      assert effects[0] in effects;
      EffectKeepsTime(input, e, effects[0]);
      assert RunEffect(input, e, effects[0]).value.s.clock.Some? <==> e.s.clock.Some?;
      EffectsKeepTime(input, RunEffect(input, e, effects[0]).value, effects[1..]);
    }
  }

  lemma TransitStartsClock(state: State, event: Event, ctx: Context)
    requires !event.START? && Transit(state, event, ctx).Moved?
    ensures START_CLOCK !in Transit(state, event, ctx).effects
  {
  }

  lemma StepKeepsTime(s: Session, input: Input, e: Edit, s': Session)
    requires SessionOk(s) && Step(s, input, e, s')
    ensures SessionKeepsTime(s, s', input.now)
  {
    if input.event.START? {
      ThreeEffects(input, e, RESERVE_CREDIT, START_CLOCK, START_NEXT_ROUND);
      TwoEffects(input, ReserveEffect(input, e).value, START_CLOCK, START_NEXT_ROUND);
    } else {
      var ctx := SessionContext(e.s, input.now, input.policy);
      TransitStartsClock(s.state, input.event, ctx);
      EffectsKeepTime(input, e, Transit(s.state, input.event, ctx).effects);
    }
  }

  /** A step that reads the time reads this one. */
  predicate StepAt(step: WorldStep, t: int) {
    match step
    case Fire(input) => input.now == t
    case Write(_, Hold(now)) => now == t
    case Write(_, Release(now)) => now == t
    case Write(_, Question(_, _, now)) => now == t
    case _ => true
  }

  lemma SaveKeepsTime(s: Session, save: Save, t: int)
    requires SessionOk(s) && SaveSession(s, save).Some? && StepAt(Write("", save), t)
    ensures SessionKeepsTime(s, SaveSession(s, save).value, t)
  {
  }

  lemma WorldStepKeepsTime(w: World, owner: string -> L.Id, step: WorldStep, t: int, id: string)
    requires WorldOk(w, owner) && Allowed(w, owner, step) && StepAt(step, t) && id in w.sessions
    ensures id in NextWorld(w, step).sessions
    ensures SessionKeepsTime(w.sessions[id], NextWorld(w, step).sessions[id], t)
  {
    var s := w.sessions[id];
    assert SessionFits(w, owner, id);
    if step.Fire? && step.input.id == id && ApplyEvent(w, step.input).1.Applied? {
      AppliedIsStep(w, owner, step.input);
      StepKeepsTime(s, step.input, Edit(w.credits, w.campaignUsed, Patched(s, step.input.patch)), NextWorld(w, step).sessions[id]);
    } else if step.Write? && step.id == id && SaveSession(s, step.save).Some? {
      SaveKeepsTime(s, step.save, t);
    } else {
      assert NextWorld(w, step).sessions[id].clock == s.clock;
    }
  }

  // ---- Whole runs ------------------------------------------------------------------------------

  datatype Timed = Timed(at: int, step: WorldStep)

  ghost predicate AllowedTimed(w: World, owner: string -> L.Id, run: seq<Timed>, from: int)
    decreases |run|
  {
    run == [] ||
    (&& from <= run[0].at && StepAt(run[0].step, run[0].at) && Allowed(w, owner, run[0].step)
     && AllowedTimed(NextWorld(w, run[0].step), owner, run[1..], run[0].at))
  }

  function RunTimed(w: World, run: seq<Timed>): World
    decreases |run|
  {
    if run == [] then w else RunTimed(NextWorld(w, run[0].step), run[1..])
  }

  function EndOf(run: seq<Timed>, from: int): int { if run == [] then from else run[|run| - 1].at }

  /** The interview is live and the system is not working for it. */
  predicate Counting(w: World, id: string) {
    id in w.sessions && Live(w.sessions[id].state) && w.sessions[id].clock.Some? && !w.sessions[id].clock.value.held
  }

  /** The time a session spends live and not held along a run. */
  function CountedMs(w: World, run: seq<Timed>, id: string, from: int): int
    decreases |run|
  {
    if run == [] then 0
    else
      (if Counting(w, id) then run[0].at - from else 0) + CountedMs(NextWorld(w, run[0].step), run[1..], id, run[0].at)
  }

  function Elapsed(w: World, id: string, t: int): int {
    if id in w.sessions then SessionElapsedMs(w.sessions[id], t) else 0
  }

  ghost predicate TimesOk(w: World, id: string, t: int) {
    id in w.sessions && w.sessions[id].clock.Some? ==> TimeOk(w.sessions[id].clock.value, t)
  }

  lemma TimePasses(w: World, owner: string -> L.Id, id: string, from: int, to: int)
    requires WorldOk(w, owner) && TimesOk(w, id, from) && from <= to
    ensures TimesOk(w, id, to)
    ensures Elapsed(w, id, to) == Elapsed(w, id, from) + if Counting(w, id) then to - from else 0
  {
    if id in w.sessions { assert SessionFits(w, owner, id); }
  }

  lemma StepTakesNoTime(w: World, owner: string -> L.Id, step: WorldStep, id: string, t: int)
    requires WorldOk(w, owner) && Allowed(w, owner, step) && StepAt(step, t) && TimesOk(w, id, t)
    ensures TimesOk(NextWorld(w, step), id, t) && Elapsed(NextWorld(w, step), id, t) == Elapsed(w, id, t)
  {
    if id in w.sessions {
      WorldStepKeepsTime(w, owner, step, t, id);
    }
  }

  /** Along any run with non-decreasing times, the elapsed interview time grows by exactly the time
      the session was live and not held. */
  lemma {:induction false} ElapsedIsLiveTime(w: World, owner: string -> L.Id, run: seq<Timed>, id: string, from: int)
    requires WorldOk(w, owner) && TimesOk(w, id, from) && AllowedTimed(w, owner, run, from)
    ensures WorldOk(RunTimed(w, run), owner)
    ensures Elapsed(RunTimed(w, run), id, EndOf(run, from)) == Elapsed(w, id, from) + CountedMs(w, run, id, from)
    decreases |run|
  {
    if run != [] {
      var step, t := run[0].step, run[0].at;
      TimePasses(w, owner, id, from, t);
      StepTakesNoTime(w, owner, step, id, t);
      StepKeepsOk(w, owner, step);
      ElapsedIsLiveTime(NextWorld(w, step), owner, run[1..], id, t);
      assert EndOf(run, from) == EndOf(run[1..], t);
    }
  }

  /** From the empty system, elapsed time is the time spent live and not held, and nothing else. */
  lemma ElapsedFromTheStart(owner: string -> L.Id, run: seq<Timed>, id: string, from: int)
    requires AllowedTimed(EMPTY_WORLD, owner, run, from)
    ensures Elapsed(RunTimed(EMPTY_WORLD, run), id, EndOf(run, from)) == CountedMs(EMPTY_WORLD, run, id, from)
  {
    EmptyWorldOk(owner);
    ElapsedIsLiveTime(EMPTY_WORLD, owner, run, id, from);
  }

  predicate Started(w: World, id: string) { id in w.sessions && w.sessions[id].clock.Some? }

  /** Whatever the clocks of the servers say, recorded interview time never decreases. */
  lemma ActiveMsNeverDecreases(w: World, owner: string -> L.Id, step: WorldStep, id: string)
    requires WorldOk(w, owner) && Allowed(w, owner, step) && Started(w, id)
    ensures Started(NextWorld(w, step), id)
    ensures NextWorld(w, step).sessions[id].clock.value.activeMs >= w.sessions[id].clock.value.activeMs
  {
    var t := match step
      case Fire(input) => input.now
      case Write(_, Hold(now)) => now
      case Write(_, Release(now)) => now
      case Write(_, Question(_, _, now)) => now
      case _ => 0;
    WorldStepKeepsTime(w, owner, step, t, id);
  }
}

/** The AI configuration as one process keeps it: loads are shared, an invalidation outdates the
    cache and the load under way, and a failed reload goes on serving the last value. */
module ConfigCache {
  import opened Wrappers

  /** A revision of the stored configuration; every change makes a later one. */
  type Revision = nat

  datatype Cached = Cached(value: Revision, expiresAt: int)

  /** The source's own variables; `inflight` names the load that callers share. */
  datatype Source = Source(cached: Option<Cached>, inflight: Option<nat>, generation: nat)

  datatype Got = Served(value: Revision) | Joined(load: nat) | Started(load: nat)

  /** How long a value is served again after a reload failed. */
  function RetryMs(ttlMs: nat): nat { if ttlMs < 5000 then ttlMs else 5000 }

  function Getting(s: Source, now: int, next: nat): (Source, Got) {
    if s.cached.Some? && s.cached.value.expiresAt > now then (s, Served(s.cached.value.value))
    else if s.inflight.Some? then (s, Joined(s.inflight.value))
    else (s.(inflight := Some(next)), Started(next))
  }

  function Landed(s: Source, load: nat): Source { if s.inflight == Some(load) then s.(inflight := None) else s }

  function Loaded(s: Source, ttlMs: nat, load: nat, started: nat, value: Revision, now: int): Source {
    Landed(if started == s.generation then s.(cached := Some(Cached(value, now + ttlMs))) else s, load)
  }

  /** The value a failed load answers with; none when the failure is passed on. */
  function Failed(s: Source, ttlMs: nat, load: nat, now: int): (Source, Option<Revision>) {
    match s.cached
    case None => (Landed(s, load), None)
    case Some(c) => (Landed(s.(cached := Some(Cached(c.value, now + RetryMs(ttlMs)))), load), Some(c.value))
  }

  function Invalidated(s: Source): Source {
    Source(if s.cached.Some? then Some(Cached(s.cached.value.value, 0)) else None, None, s.generation + 1)
  }

  class CachedConfigSource {
    const ttlMs: nat
    var cached: Option<Cached>
    var inflight: Option<nat>
    var generation: nat

    function State(): Source reads this { Source(cached, inflight, generation) }

    constructor (ttlMs: nat)
      ensures State() == Source(None, None, 0) && this.ttlMs == ttlMs
    {
      this.ttlMs, cached, inflight, generation := ttlMs, None, None, 0;
    }

    method Get(now: int, next: nat) returns (got: Got)
      modifies this
      ensures (State(), got) == Getting(old(State()), now, next)
    {
      if cached.Some? && cached.value.expiresAt > now { return Served(cached.value.value); }
      if inflight.None? {
        inflight := Some(next);
        return Started(next);
      }
      got := Joined(inflight.value);
    }

    /** The end of a load: what it read, or None when it failed, and what its callers get. */
    method Reload(load: nat, started: nat, read: Option<Revision>, now: int) returns (answer: Option<Revision>)
      modifies this
      ensures read.Some? ==> State() == Loaded(old(State()), ttlMs, load, started, read.value, now) && answer == read
      ensures read.None? ==> (State(), answer) == Failed(old(State()), ttlMs, load, now)
    {
      answer := read;
      if read.Some? {
        if started == generation { cached := Some(Cached(read.value, now + ttlMs)); }
      } else if cached.Some? {
        cached := Some(Cached(cached.value.value, now + RetryMs(ttlMs)));
        answer := Some(cached.value.value);
      }
      if inflight == Some(load) { inflight := None; }
    }

    method Invalidate()
      modifies this
      ensures State() == Invalidated(old(State()))
    {
      generation, inflight := generation + 1, None;
      if cached.Some? { cached := Some(Cached(cached.value.value, 0)); }
    }
  }

  // ---- The source among its callers --------------------------------------------------------------

  /** A load under way: the generation and last invalidated revision when it began, and what it read. */
  datatype Load = Load(started: nat, since: Revision, read: Option<Revision>)

  /** A caller waiting for a load, and an answered one: `since` is the revision at the last
      invalidation before the call. */
  datatype Waiter = Waiter(load: nat, since: Revision)
  datatype Answer = Answer(since: Revision, value: Revision)

  datatype World = World(
    source: Source, stored: Revision, since: Revision,
    loads: map<nat, Load>, waiting: map<nat, Waiter>, answers: map<nat, Answer>)

  datatype Step =
    | Change
    | Invalidate
    | Get(caller: nat, next: nat, now: int)
    | Read(load: nat)
    | Succeed(load: nat, now: int)
    | Fail(load: nat, now: int)

  const EMPTY := World(Source(None, None, 0), 0, 0, map[], map[], map[])

  function Answered(w: World, load: nat, value: Revision): map<nat, Answer> {
    w.answers + map c | c in w.waiting && w.waiting[c].load == load :: Answer(w.waiting[c].since, value)
  }

  /** The load is over and nobody waits for it. */
  function Ended(w: World, load: nat, source: Source, answers: map<nat, Answer>): World {
    w.(source := source, loads := w.loads - {load}, answers := answers,
       waiting := map c | c in w.waiting && w.waiting[c].load != load :: w.waiting[c])
  }

  function Next(w: World, ttlMs: nat, step: Step): World {
    match step
    case Change => w.(stored := w.stored + 1)
    case Invalidate => w.(source := Invalidated(w.source), since := w.stored)
    case Get(caller, next, now) =>
      var (source, got) := Getting(w.source, now, next);
      (match got
       case Served(v) => w.(source := source, answers := w.answers[caller := Answer(w.since, v)])
       case Joined(k) => w.(source := source, waiting := w.waiting[caller := Waiter(k, w.since)])
       case Started(k) =>
         w.(source := source, waiting := w.waiting[caller := Waiter(k, w.since)],
            loads := w.loads[k := Load(w.source.generation, w.since, None)]))
    case Read(k) => if k in w.loads then w.(loads := w.loads[k := w.loads[k].(read := Some(w.stored))]) else w
    case Succeed(k, now) =>
      if k in w.loads && w.loads[k].read.Some? then
        var v := w.loads[k].read.value;
        Ended(w, k, Loaded(w.source, ttlMs, k, w.loads[k].started, v, now), Answered(w, k, v))
      else w
    case Fail(k, now) =>
      if k in w.loads then
        var (source, answer) := Failed(w.source, ttlMs, k, now);
        Ended(w, k, source, if answer.Some? then Answered(w, k, answer.value) else w.answers)
      else w
  }

  /** Callers and loads are new, and clocks are past zero. */
  predicate Sound(w: World, step: Step) {
    match step
    case Get(caller, next, now) => caller !in w.waiting && caller !in w.answers && next !in w.loads && now > 0
    case Succeed(_, now) => now > 0
    case Fail(_, now) => now > 0
    case _ => true
  }

  // ---- Loads are shared --------------------------------------------------------------------------

  /** The load of the current generation is the shared one; older ones belong to older generations,
      one each, and to older invalidations. */
  ghost predicate Shared(w: World) {
    && w.since <= w.stored
    && (w.source.inflight.Some? ==> w.source.inflight.value in w.loads && w.loads[w.source.inflight.value].started == w.source.generation)
    && (forall k <- w.loads :: w.loads[k].started <= w.source.generation && w.loads[k].since <= w.since)
    && (forall k <- w.loads :: w.loads[k].started == w.source.generation ==> w.source.inflight == Some(k) && w.loads[k].since == w.since)
    && (forall j <- w.loads, k <- w.loads :: w.loads[j].started == w.loads[k].started ==> j == k)
    && (forall k <- w.loads :: w.loads[k].read.Some? ==> w.loads[k].since <= w.loads[k].read.value)
    && (forall c <- w.waiting :: w.waiting[c].load in w.loads && w.waiting[c].since == w.loads[w.waiting[c].load].since)
  }

  /** A call waits for the shared load. */
  lemma WaitKeepsShared(w: World, caller: nat, k: nat)
    requires Shared(w) && w.source.inflight == Some(k) && caller !in w.waiting
    ensures Shared(w.(waiting := w.waiting[caller := Waiter(k, w.since)]))
  {
  }

  /** A new load becomes the shared one when there is none. */
  lemma StartKeepsShared(w: World, k: nat)
    requires Shared(w) && w.source.inflight.None? && k !in w.loads
    ensures Shared(w.(source := w.source.(inflight := Some(k)), loads := w.loads[k := Load(w.source.generation, w.since, None)]))
  {
    var loads := w.loads[k := Load(w.source.generation, w.since, None)];
    assert forall j <- w.loads :: j != k && loads[j] == w.loads[j] && w.loads[j].started < w.source.generation;
    assert forall j <- loads :: j == k || j in w.loads;
  }

  lemma AnswerKeepsShared(w: World, answers: map<nat, Answer>)
    requires Shared(w)
    ensures Shared(w.(answers := answers))
  {
  }

  lemma GetKeepsShared(w: World, ttlMs: nat, step: Step)
    requires step.Get? && Shared(w) && Sound(w, step)
    ensures Shared(Next(w, ttlMs, step))
  {
    hide Shared;
    match Getting(w.source, step.now, step.next).1
    case Served(_) => AnswerKeepsShared(w, Next(w, ttlMs, step).answers);
    case Joined(k) => WaitKeepsShared(w, step.caller, k);
    case Started(k) =>
      StartKeepsShared(w, k);
      WaitKeepsShared(
        w.(source := w.source.(inflight := Some(k)), loads := w.loads[k := Load(w.source.generation, w.since, None)]), step.caller, k);
  }

  lemma ReadKeepsShared(w: World, ttlMs: nat, step: Step)
    requires step.Read? && Shared(w)
    ensures Shared(Next(w, ttlMs, step))
  {
    var w' := Next(w, ttlMs, step);
    assert w'.loads.Keys == w.loads.Keys;
    assert forall k <- w.loads :: w'.loads[k].started == w.loads[k].started && w'.loads[k].since == w.loads[k].since;
  }

  /** A load that ends leaves the others as they were. */
  lemma EndKeepsShared(w: World, load: nat, source: Source, answers: map<nat, Answer>)
    requires Shared(w) && load in w.loads
    requires source.generation == w.source.generation && source.inflight == Landed(w.source, load).inflight
    ensures Shared(Ended(w, load, source, answers))
  {
    var w' := Ended(w, load, source, answers);
    assert forall k <- w'.loads :: k in w.loads && k != load && w'.loads[k] == w.loads[k];
    assert forall c <- w'.waiting :: c in w.waiting && w'.waiting[c] == w.waiting[c];
  }

  lemma InvalidateKeepsShared(w: World, ttlMs: nat)
    requires Shared(w)
    ensures Shared(Next(w, ttlMs, Invalidate))
  {
  }

  lemma StepKeepsShared(w: World, ttlMs: nat, step: Step)
    requires Shared(w) && Sound(w, step)
    ensures Shared(Next(w, ttlMs, step))
  {
    match step
    case Get(_, _, _) => GetKeepsShared(w, ttlMs, step);
    case Read(_) => ReadKeepsShared(w, ttlMs, step);
    case Succeed(k, now) =>
      if k in w.loads && w.loads[k].read.Some? {
        EndKeepsShared(w, k, Next(w, ttlMs, step).source, Next(w, ttlMs, step).answers);
      }
    case Fail(k, now) =>
      if k in w.loads { EndKeepsShared(w, k, Next(w, ttlMs, step).source, Next(w, ttlMs, step).answers); }
    case Invalidate => InvalidateKeepsShared(w, ttlMs);
    case Change =>
  }

  // ---- Answers are fresh --------------------------------------------------------------------------

  /** A value that can still be served, and every answer given, is no older than the last
      invalidation before it. */
  ghost predicate FreshOk(w: World) {
    && (w.source.cached.Some? && w.source.cached.value.expiresAt > 0 ==> w.since <= w.source.cached.value.value)
    && (forall c <- w.answers :: w.answers[c].since <= w.answers[c].value)
  }

  /** A failing load finds a cached value that the last invalidation outdated. */
  predicate Revives(w: World, step: Step) {
    && step.Fail? && step.load in w.loads
    && w.source.cached.Some? && w.source.cached.value.value < w.since
  }

  /** Exactly one kind of step loses freshness: a failed load that revives an outdated value. */
  lemma StepKeepsFreshIff(w: World, ttlMs: nat, step: Step)
    requires Shared(w) && FreshOk(w) && Sound(w, step)
    ensures FreshOk(Next(w, ttlMs, step)) <==> !Revives(w, step)
  {
  }

  // ---- Runs ---------------------------------------------------------------------------------------

  function Run(w: World, ttlMs: nat, steps: seq<Step>): World
    decreases |steps|
  {
    if steps == [] then w else Run(Next(w, ttlMs, steps[0]), ttlMs, steps[1..])
  }

  ghost predicate SoundRun(w: World, ttlMs: nat, steps: seq<Step>)
    decreases |steps|
  {
    steps == [] || (Sound(w, steps[0]) && SoundRun(Next(w, ttlMs, steps[0]), ttlMs, steps[1..]))
  }

  ghost predicate NeverRevives(w: World, ttlMs: nat, steps: seq<Step>)
    decreases |steps|
  {
    steps == [] || (!Revives(w, steps[0]) && NeverRevives(Next(w, ttlMs, steps[0]), ttlMs, steps[1..]))
  }

  lemma {:induction false} RunKeepsShared(w: World, ttlMs: nat, steps: seq<Step>)
    requires Shared(w) && SoundRun(w, ttlMs, steps)
    ensures Shared(Run(w, ttlMs, steps))
    decreases |steps|
  {
    if steps != [] {
      StepKeepsShared(w, ttlMs, steps[0]);
      RunKeepsShared(Next(w, ttlMs, steps[0]), ttlMs, steps[1..]);
    }
  }

  lemma {:induction false} RunKeepsFresh(w: World, ttlMs: nat, steps: seq<Step>)
    requires Shared(w) && FreshOk(w) && SoundRun(w, ttlMs, steps) && NeverRevives(w, ttlMs, steps)
    ensures FreshOk(Run(w, ttlMs, steps))
    decreases |steps|
  {
    if steps != [] {
      StepKeepsShared(w, ttlMs, steps[0]);
      StepKeepsFreshIff(w, ttlMs, steps[0]);
      RunKeepsFresh(Next(w, ttlMs, steps[0]), ttlMs, steps[1..]);
    }
  }

  /** However calls, loads, changes and invalidations interleave, there is one load per generation:
      never more under way than one for each invalidation and one more. */
  lemma OneLoadPerGeneration(ttlMs: nat, steps: seq<Step>)
    requires SoundRun(EMPTY, ttlMs, steps)
    ensures var w := Run(EMPTY, ttlMs, steps);
            && |w.loads| <= w.source.generation + 1
            && forall j <- w.loads, k <- w.loads :: w.loads[j].started == w.loads[k].started ==> j == k
  {
    RunKeepsShared(EMPTY, ttlMs, steps);
    var w := Run(EMPTY, ttlMs, steps);
    CountGenerations(w.loads.Keys, k => if k in w.loads then w.loads[k].started else 0, w.source.generation + 1);
  }

  lemma {:induction false} CountGenerations(ids: set<nat>, started: nat -> int, bound: nat)
    requires forall k <- ids :: 0 <= started(k) < bound
    requires forall j <- ids, k <- ids :: started(j) == started(k) ==> j == k
    ensures |ids| <= bound
    decreases bound
  {
    if bound > 0 {
      if k :| k in ids && started(k) == bound - 1 {
        CountGenerations(ids - {k}, started, bound - 1);
      } else {
        CountGenerations(ids, started, bound - 1);
      }
    } else {
      assert ids == {};
    }
  }

  /** After an invalidation every call is answered with a configuration at least as new as the one
      stored then, so long as no failing load finds an outdated value to revive. */
  lemma AnswersAreFresh(ttlMs: nat, steps: seq<Step>, caller: nat)
    requires SoundRun(EMPTY, ttlMs, steps) && NeverRevives(EMPTY, ttlMs, steps)
    requires caller in Run(EMPTY, ttlMs, steps).answers
    ensures var a := Run(EMPTY, ttlMs, steps).answers[caller]; a.since <= a.value
  {
    RunKeepsFresh(EMPTY, ttlMs, steps);
  }

  lemma OneMore(w: World, ttlMs: nat, step: Step, rest: seq<Step>)
    ensures Run(w, ttlMs, [step] + rest) == Run(Next(w, ttlMs, step), ttlMs, rest)
    ensures SoundRun(w, ttlMs, [step] + rest) <==> Sound(w, step) && SoundRun(Next(w, ttlMs, step), ttlMs, rest)
  {
    assert ([step] + rest)[1..] == rest;
  }

  lemma ThreeMore(w: World, ttlMs: nat, a: Step, b: Step, c: Step, rest: seq<Step>)
    ensures var w1 := Next(w, ttlMs, a);
            var w2 := Next(w1, ttlMs, b);
            var steps := [a] + ([b] + ([c] + rest));
            && Run(w, ttlMs, steps) == Run(Next(w2, ttlMs, c), ttlMs, rest)
            && (SoundRun(w, ttlMs, steps) <==>
                Sound(w, a) && Sound(w1, b) && Sound(w2, c) && SoundRun(Next(w2, ttlMs, c), ttlMs, rest))
  {
    var w1 := Next(w, ttlMs, a);
    OneMore(w, ttlMs, a, [b] + ([c] + rest));
    OneMore(w1, ttlMs, b, [c] + rest);
    OneMore(Next(w1, ttlMs, b), ttlMs, c, rest);
  }

  function LateFailure(ttlMs: nat): seq<Step> {
    [Get(0, 0, 1), Read(0), Succeed(0, 1), Get(1, 1, 1 + ttlMs), Change, Invalidate, Fail(1, 1 + ttlMs), Get(2, 2, 2 + ttlMs)]
  }

  /** Revision 0 is loaded; it expires, a reload begins and revision 1 is stored; the reload fails. */
  function FirstLoad(ttlMs: nat): World {
    World(Source(Some(Cached(0, 1 + ttlMs)), None, 0), 0, 0, map[], map[], map[0 := Answer(0, 0)])
  }

  function OutdatedLoad(ttlMs: nat): World {
    World(Source(Some(Cached(0, 0)), None, 1), 1, 1, map[1 := Load(0, 0, None)], map[1 := Waiter(1, 0)], map[0 := Answer(0, 0)])
  }

  function RevivedLoad(ttlMs: nat): World {
    World(Source(Some(Cached(0, 1 + ttlMs + RetryMs(ttlMs))), None, 1), 1, 1, map[], map[], map[0 := Answer(0, 0), 1 := Answer(0, 0)])
  }

  lemma FirstLoadRuns(ttlMs: nat)
    ensures var a := Next(EMPTY, ttlMs, Get(0, 0, 1)); var b := Next(a, ttlMs, Read(0));
            Next(b, ttlMs, Succeed(0, 1)) == FirstLoad(ttlMs)
  {
    var b := Next(Next(EMPTY, ttlMs, Get(0, 0, 1)), ttlMs, Read(0));
    assert b.loads == map[0 := Load(0, 0, Some(0))] && b.waiting == map[0 := Waiter(0, 0)];
    assert b.loads - {0} == map[];
    assert Answered(b, 0, 0) == map[0 := Answer(0, 0)];
  }

  lemma OutdatedLoadRuns(ttlMs: nat)
    ensures Next(Next(Next(FirstLoad(ttlMs), ttlMs, Get(1, 1, 1 + ttlMs)), ttlMs, Change), ttlMs, Invalidate) == OutdatedLoad(ttlMs)
  {
  }

  lemma RevivedLoadRuns(ttlMs: nat)
    ensures Next(OutdatedLoad(ttlMs), ttlMs, Fail(1, 1 + ttlMs)) == RevivedLoad(ttlMs)
  {
    var w := OutdatedLoad(ttlMs);
    assert w.loads - {1} == map[];
    assert Answered(w, 1, 0) == map[0 := Answer(0, 0), 1 := Answer(0, 0)];
  }

  /** A load that began before the invalidation and fails after it puts the old value back: the
      next caller is given it although the newer configuration was stored before the call. */
  lemma LateFailureRevives(ttlMs: nat)
    requires ttlMs > 1
    ensures var steps := LateFailure(ttlMs);
            && SoundRun(EMPTY, ttlMs, steps)
            && 2 in Run(EMPTY, ttlMs, steps).answers
            && Run(EMPTY, ttlMs, steps).answers[2] == Answer(1, 0)
  {
    var w1, w2, w3 := FirstLoad(ttlMs), OutdatedLoad(ttlMs), RevivedLoad(ttlMs);
    FirstLoadRuns(ttlMs);
    OutdatedLoadRuns(ttlMs);
    RevivedLoadRuns(ttlMs);
    var last := [Fail(1, 1 + ttlMs), Get(2, 2, 2 + ttlMs)];
    OneMore(w3, ttlMs, last[1], []);
    OneMore(w2, ttlMs, last[0], [last[1]]);
    var middle := [Get(1, 1, 1 + ttlMs)] + ([Change] + ([Invalidate] + last));
    ThreeMore(w1, ttlMs, Get(1, 1, 1 + ttlMs), Change, Invalidate, last);
    ThreeMore(EMPTY, ttlMs, Get(0, 0, 1), Read(0), Succeed(0, 1), middle);
    assert LateFailure(ttlMs) == [Get(0, 0, 1)] + ([Read(0)] + ([Succeed(0, 1)] + middle));
  }
}

/** Which configuration a call is answered with, and when: how long a loaded value serves, and whom a load serves. */
module ConfigServing {
  import opened Wrappers
  import opened ConfigCache

  /** Nothing loaded, failed or invalidated. */
  predicate Idle(step: Step) { step.Change? || step.Read? || step.Get? }

  lemma {:induction false} IdleKeepsCached(w: World, ttlMs: nat, steps: seq<Step>)
    requires forall s <- steps :: Idle(s)
    ensures Run(w, ttlMs, steps).source.cached == w.source.cached
    decreases |steps|
  {
    if steps != [] {
      assert Idle(steps[0]);
      IdleKeepsCached(Next(w, ttlMs, steps[0]), ttlMs, steps[1..]);
    }
  }

  /** The value a load's end leaves for serving, and until when: what was read, for the time to live, unless
      it was invalidated meanwhile; after a failure the last value, for five seconds at most. */
  function Leaves(w: World, ttlMs: nat, end: Step): Option<(Revision, int)>
    requires (end.Succeed? || end.Fail?) && end.load in w.loads
  {
    if end.Succeed? then
      if w.loads[end.load].read.Some? && w.loads[end.load].started == w.source.generation
      then Some((w.loads[end.load].read.value, end.now + ttlMs)) else None
    else if w.source.cached.Some?
      then Some((w.source.cached.value.value, if ttlMs < 5000 then end.now + ttlMs else end.now + 5000)) else None
  }

  /** Until the next load ends or an invalidation, a call is answered at once, with that value, exactly while
      its time lasts; after that it waits for a load, which it starts if none is under way. */
  lemma ServedWhileItLastsIff(w: World, ttlMs: nat, end: Step, steps: seq<Step>, get: Step)
    requires (end.Succeed? || end.Fail?) && end.load in w.loads && Leaves(w, ttlMs, end).Some?
    requires (forall s <- steps :: Idle(s)) && get.Get?
    ensures var w' := Run(Next(w, ttlMs, end), ttlMs, steps);
            var after := Next(w', ttlMs, get);
            var (value, until) := Leaves(w, ttlMs, end).value;
            && (get.now < until ==>
                  && get.caller in after.answers && after.answers[get.caller] == Answer(w'.since, value)
                  && after.waiting == w'.waiting && after.loads == w'.loads)
            && (get.now >= until ==>
                  && get.caller in after.waiting && after.answers == w'.answers
                  && after.source.inflight == Some(after.waiting[get.caller].load)
                  && (w'.source.inflight.Some? ==> after.source.inflight == w'.source.inflight && after.loads == w'.loads)
                  && (w'.source.inflight.None? ==>
                        after.source.inflight == Some(get.next) && after.loads == w'.loads[get.next := Load(w'.source.generation, w'.since, None)]))
  {
    IdleKeepsCached(Next(w, ttlMs, end), ttlMs, steps);
  }

  /** The end of a load answers those who waited for it, and nobody else: with what it read, or after a
      failure with the last value; only a failure with nothing to fall back on leaves them without. */
  lemma LoadAnswersItsCallers(w: World, ttlMs: nat, end: Step, caller: nat)
    requires (end.Succeed? || end.Fail?) && end.load in w.loads && (end.Succeed? ==> w.loads[end.load].read.Some?)
    requires caller in w.waiting && caller !in w.answers
    ensures var w' := Next(w, ttlMs, end);
            var mine := w.waiting[caller].load == end.load;
            && (caller in w'.waiting <==> !mine)
            && (caller in w'.answers <==> mine && (end.Succeed? || w.source.cached.Some?))
            && (caller in w'.answers ==>
                  w'.answers[caller] == Answer(
                    w.waiting[caller].since,
                    if end.Succeed? then w.loads[end.load].read.value else w.source.cached.value.value))
            && end.load !in w'.loads && w'.source.inflight != Some(end.load)
  {
  }
}

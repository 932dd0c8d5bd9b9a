/** No object of a deleted recording is forgotten, however its writers, deletes and sweeps interleave. */
module MediaSafety {
  import opened Wrappers
  import opened Media

  /** The object belongs to a writer still in flight, or to an upload that crashed. */
  predicate Owned(w: World, k: Key) {
    match k
    case Segment(idx) => k in w.lost || exists id <- w.uploads :: w.uploads[id].idx == idx && !w.uploads[id].phase.Checked?
    case File => exists id <- w.builds :: w.builds[id].put
  }

  /** The record names the key. */
  predicate Listed(a: Asset, k: Key) {
    || k in a.keys
    || (a.deletion.DELETING? && (k.File? || k.idx in a.segments))
  }

  /** The sweep will come by: to resume the delete, or to delete the keys once more. */
  predicate Due(a: Asset) { a.deletion.DELETING? || (a.deletion.DELETED? && a.sweepAfter.Some?) }

  /** The promise about a recording once its delete has begun. */
  predicate NoOrphan(w: World) {
    !w.asset.deletion.NONE? ==> forall k <- w.objects :: Owned(w, k) || (Listed(w.asset, k) && Due(w.asset))
  }

  // ---- The invariant ---------------------------------------------------------------------------

  /** Before a delete every segment object is attached or in flight. */
  predicate AttachedOk(w: World) {
    w.asset.deletion.NONE? ==> forall k <- w.objects :: k.Segment? ==> k.idx in w.asset.segments || Owned(w, k)
  }

  predicate UploadsOk(w: World) {
    forall id <- w.uploads ::
      && (w.uploads[id].phase.Refused? && w.asset.deletion.NONE? ==> w.uploads[id].idx in w.asset.segments)
      && (w.uploads[id].phase.Cleaning? || w.uploads[id].phase.Noting? ==> !w.asset.deletion.NONE?)
  }

  /** No build writes any more from this time on. */
  predicate BuildsOver(w: World, limit: int) { w.asset.deletionAt + SWEEP_DELAY_MS <= limit }

  predicate FileOk(w: World) {
    && w.asset.deletionAt <= w.now
    && (w.asset.deletion.DELETED? ==> File in w.asset.keys)
    && (w.asset.deletion.DELETED? && w.asset.sweepAfter.Some? ==> BuildsOver(w, w.asset.sweepAfter.value))
    && (w.asset.deletion.DELETED? && w.asset.sweepAfter.None? ==> File !in w.objects && BuildsOver(w, w.now))
  }

  /** A delete in progress has read all the segments: none is attached any more. */
  predicate DeletersOk(w: World) {
    forall id <- w.deleters ::
      && !w.asset.deletion.NONE? && w.deleters[id].at <= w.now
      && (w.asset.deletion.DELETING? ==> File in w.deleters[id].keys && SegmentKeys(w.asset) <= w.deleters[id].keys)
  }

  /** What a sweep has deleted stays away, unless a writer in flight has it or a key was noted since. */
  predicate SweeperOk(w: World, s: Sweeper) {
    && w.asset.deletion.DELETED? && s.sweepAfter <= w.now && s.left <= s.keys && File in s.keys
    && BuildsOver(w, s.sweepAfter)
    && (File !in s.left ==> File !in w.objects)
    && (w.asset.sweepAfter == Some(s.sweepAfter) ==>
          w.asset.keys == s.keys && forall k <- w.objects :: k in s.keys && k !in s.left ==> Owned(w, k))
  }

  predicate SweepersOk(w: World) { forall id <- w.sweepers :: SweeperOk(w, w.sweepers[id]) }

  predicate MediaOk(w: World) {
    AttachedOk(w) && UploadsOk(w) && FileOk(w) && DeletersOk(w) && SweepersOk(w) && NoOrphan(w)
  }

  // ---- The steps -------------------------------------------------------------------------------

  lemma TimeKeepsOk(w: World, now: int)
    requires MediaOk(w) && w.now <= now
    ensures MediaOk(w.(now := now))
  {
    var w' := w.(now := now);
    assert forall k :: Owned(w, k) == Owned(w', k);
    assert forall id <- w.sweepers :: SweeperOk(w, w.sweepers[id]);
  }

  /** An upload with its object in storage keeps it through its later phases. */
  lemma PhaseKeepsOwned(w: World, id: nat, phase: Phase, k: Key)
    requires id in w.uploads && !phase.Checked? && Owned(w, k)
    ensures Owned(Uploading(w, id, phase), k)
  {
    if k.Segment? && k !in w.lost {
      var u :| u in w.uploads && w.uploads[u].idx == k.idx && !w.uploads[u].phase.Checked?;
      assert u in Uploading(w, id, phase).uploads;
    }
  }

  /** When an upload is over, what others own is still owned. */
  lemma DoneKeepsOthers(w: World, id: nat, k: Key)
    requires id in w.uploads && Owned(w, k) && k != Segment(w.uploads[id].idx)
    ensures Owned(w.(uploads := w.uploads - {id}), k)
  {
    if k.Segment? && k !in w.lost {
      var u :| u in w.uploads && w.uploads[u].idx == k.idx && !w.uploads[u].phase.Checked?;
      assert u in (w.uploads - {id});
    }
  }

  lemma UploadStartKeepsOk(w: World, id: nat, idx: nat)
    requires MediaOk(w) && id !in w.uploads
    ensures MediaOk(Do(w, UploadStart(id, idx)))
  {
    var w' := Do(w, UploadStart(id, idx));
    forall k | Owned(w, k) ensures Owned(w', k) {
      if k.Segment? && k !in w.lost {
        var u :| u in w.uploads && w.uploads[u].idx == k.idx && !w.uploads[u].phase.Checked?;
        assert w'.uploads[u] == w.uploads[u];
      }
    }
    forall s | s in w'.sweepers ensures SweeperOk(w', w'.sweepers[s]) { assert SweeperOk(w, w.sweepers[s]); }
  }

  lemma UploadPutKeepsOk(w: World, id: nat)
    requires MediaOk(w) && id in w.uploads && w.uploads[id].phase.Checked?
    ensures MediaOk(Do(w, UploadPut(id)))
  {
    var w' := Do(w, UploadPut(id));
    var mine := Segment(w.uploads[id].idx);
    assert id in w'.uploads && w'.uploads[id].idx == mine.idx && !w'.uploads[id].phase.Checked?;
    assert Owned(w', mine);
    forall k | Owned(w, k) ensures Owned(w', k) { PhaseKeepsOwned(w, id, Stored, k); }
    forall s | s in w'.sweepers ensures SweeperOk(w', w'.sweepers[s]) { assert SweeperOk(w, w.sweepers[s]); }
  }

  lemma UploadAttachKeepsOk(w: World, id: nat)
    requires MediaOk(w) && id in w.uploads && w.uploads[id].phase.Stored?
    ensures MediaOk(Do(w, UploadAttach(id)))
  {
    var w' := Do(w, UploadAttach(id));
    if Attach(w.asset, w.uploads[id].idx).Some? {
      forall k | Owned(w, k) && k != Segment(w.uploads[id].idx) ensures Owned(w', k) { DoneKeepsOthers(w, id, k); }
    } else {
      forall k | Owned(w, k) ensures Owned(w', k) { PhaseKeepsOwned(w, id, Refused, k); }
    }
    forall s | s in w'.sweepers ensures SweeperOk(w', w'.sweepers[s]) { assert SweeperOk(w, w.sweepers[s]); }
  }

  lemma UploadRereadKeepsOk(w: World, id: nat)
    requires MediaOk(w) && id in w.uploads && w.uploads[id].phase.Refused?
    ensures MediaOk(Do(w, UploadReread(id)))
  {
    var w' := Do(w, UploadReread(id));
    if w.asset.deletion.NONE? {
      forall k | Owned(w, k) && k != Segment(w.uploads[id].idx) ensures Owned(w', k) { DoneKeepsOthers(w, id, k); }
    } else {
      forall k | Owned(w, k) ensures Owned(w', k) { PhaseKeepsOwned(w, id, Cleaning, k); }
    }
    forall s | s in w'.sweepers ensures SweeperOk(w', w'.sweepers[s]) { assert SweeperOk(w, w.sweepers[s]); }
  }

  lemma UploadCleanKeepsOk(w: World, id: nat, ok: bool)
    requires MediaOk(w) && id in w.uploads && w.uploads[id].phase.Cleaning?
    ensures MediaOk(Do(w, UploadClean(id, ok)))
  {
    var w' := Do(w, UploadClean(id, ok));
    if ok {
      forall k | Owned(w, k) && k != Segment(w.uploads[id].idx) ensures Owned(w', k) { DoneKeepsOthers(w, id, k); }
    } else {
      forall k | Owned(w, k) ensures Owned(w', k) { PhaseKeepsOwned(w, id, Noting, k); }
    }
    forall s | s in w'.sweepers ensures SweeperOk(w', w'.sweepers[s]) { assert SweeperOk(w, w.sweepers[s]); }
  }

  lemma UploadNoteKeepsOk(w: World, id: nat)
    requires MediaOk(w) && id in w.uploads && w.uploads[id].phase.Noting?
    ensures MediaOk(Do(w, UploadNote(id)))
  {
    var w' := Do(w, UploadNote(id));
    forall k | Owned(w, k) && k != Segment(w.uploads[id].idx) ensures Owned(w', k) { DoneKeepsOthers(w, id, k); }
    forall s | s in w'.sweepers ensures SweeperOk(w', w'.sweepers[s]) { assert SweeperOk(w, w.sweepers[s]); }
  }

  /** What a crashed upload stored is remembered as lost. */
  lemma UploadCrashKeepsOk(w: World, id: nat)
    requires MediaOk(w) && id in w.uploads
    ensures MediaOk(Do(w, UploadCrash(id)))
  {
    var w' := Do(w, UploadCrash(id));
    forall k | Owned(w, k) ensures Owned(w', k) {
      if k.Segment? && k !in w'.lost {
        var u :| u in w.uploads && w.uploads[u].idx == k.idx && !w.uploads[u].phase.Checked?;
        assert u in w'.uploads && w'.uploads[u] == w.uploads[u];
      }
    }
    forall s | s in w'.sweepers ensures SweeperOk(w', w'.sweepers[s]) { assert SweeperOk(w, w.sweepers[s]); }
  }

  // ---- Finalising and builds ---------------------------------------------------------------------

  /** Changes to the file's record before a delete touch nothing that is promised. */
  lemma FileRecordKeepsOk(w: World, a: Asset)
    requires MediaOk(w) && w.asset.deletion.NONE?
    requires a.deletion.NONE? && a.deletionAt == w.asset.deletionAt && a.segments == w.asset.segments && a.keys == w.asset.keys && a.sweepAfter == w.asset.sweepAfter
    ensures MediaOk(w.(asset := a))
  {
    var w' := w.(asset := a);
    assert forall k :: Owned(w, k) == Owned(w', k);
  }

  lemma ClaimKeepsOk(w: World, id: nat)
    requires MediaOk(w) && id !in w.builds && Claimable(w.asset, w.now)
    ensures MediaOk(Do(w, Claim(id)))
  {
    var w' := Do(w, Claim(id));
    forall k | Owned(w, k) ensures Owned(w', k) {
      if k.File? {
        var b :| b in w.builds && w.builds[b].put;
        assert w'.builds[b] == w.builds[b];
      }
    }
  }

  /** A sweep only runs when no build writes any more. */
  lemma SweeperWaits(w: World, s: nat)
    requires MediaOk(w) && s in w.sweepers
    ensures w.asset.deletion.DELETED? && BuildsOver(w, w.now)
  {
    assert SweeperOk(w, w.sweepers[s]);
  }

  lemma BuildPutKeepsOk(w: World, id: nat)
    requires MediaOk(w) && id in w.builds && (w.asset.deletion.DELETED? ==> w.now < w.asset.deletionAt + SWEEP_DELAY_MS)
    ensures MediaOk(Do(w, BuildPut(id)))
  {
    var w' := Do(w, BuildPut(id));
    assert w'.builds[id].put;
    forall k | Owned(w, k) ensures Owned(w', k) {
      if k.File? {
        var b :| b in w.builds && w.builds[b].put;
        assert b in w'.builds && w'.builds[b].put;
      }
    }
    if s :| s in w.sweepers { SweeperWaits(w, s); }
  }

  lemma BuildGoneKeepsOk(w: World, id: nat, a: Asset)
    requires MediaOk(w)
    requires a.deletion == w.asset.deletion && a.deletionAt == w.asset.deletionAt && a.segments == w.asset.segments && a.keys == w.asset.keys && a.sweepAfter == w.asset.sweepAfter
    ensures MediaOk(w.(asset := a, builds := w.builds - {id}))
  {
    var w' := w.(asset := a, builds := w.builds - {id});
    forall s | s in w'.sweepers ensures SweeperOk(w', w'.sweepers[s]) { assert SweeperOk(w, w.sweepers[s]); }
  }

  // ---- Deletes -----------------------------------------------------------------------------------

  lemma DeleteStartKeepsOk(w: World, id: nat, at: int)
    requires MediaOk(w) && id !in w.deleters && !w.asset.deletion.DELETED? && at <= w.now
    ensures MediaOk(Do(w, DeleteStart(id, at)))
  {
    var w' := Do(w, DeleteStart(id, at));
    assert forall k :: Owned(w, k) == Owned(w', k);
  }

  lemma ObjectGoneKeepsOk(w: World, gone: set<Key>)
    requires MediaOk(w) && !w.asset.deletion.NONE?
    ensures MediaOk(w.(objects := w.objects - gone))
  {
    var w' := w.(objects := w.objects - gone);
    assert forall k :: Owned(w, k) == Owned(w', k);
    forall s | s in w'.sweepers ensures SweeperOk(w', w'.sweepers[s]) { assert SweeperOk(w, w.sweepers[s]); }
  }

  lemma DeleteEndKeepsOk(w: World, id: nat)
    requires MediaOk(w) && id in w.deleters
    ensures MediaOk(w.(asset := MarkDeleted(w.asset, w.deleters[id].keys, w.deleters[id].at), deleters := w.deleters - {id}))
  {
    var w' := w.(asset := MarkDeleted(w.asset, w.deleters[id].keys, w.deleters[id].at), deleters := w.deleters - {id});
    assert forall k :: Owned(w, k) == Owned(w', k);
    forall s | s in w'.sweepers ensures SweeperOk(w', w'.sweepers[s]) { assert SweeperOk(w, w.sweepers[s]); }
    if w.asset.deletion.DELETING? {
      forall k | k in w'.objects ensures Owned(w', k) || k in w'.asset.keys {
        if k.Segment? && k.idx in w.asset.segments { assert k in SegmentKeys(w.asset); }
      }
    }
  }

  lemma DeleterStepKeepsOk(w: World, deleters: map<nat, Deleter>)
    requires MediaOk(w) && DeletersOk(w.(deleters := deleters))
    ensures MediaOk(w.(deleters := deleters))
  {
    var w' := w.(deleters := deleters);
    assert forall k :: Owned(w, k) == Owned(w', k);
    forall s | s in w'.sweepers ensures SweeperOk(w', w'.sweepers[s]) { assert SweeperOk(w, w.sweepers[s]); }
  }

  lemma DeleteObjectKeepsOk(w: World, id: nat, key: Key)
    requires MediaOk(w) && id in w.deleters
    ensures MediaOk(Do(w, DeleteObject(id, key)))
  {
    var d := w.deleters[id];
    ObjectGoneKeepsOk(w, {key} * d.left);
    DeleterStepKeepsOk(w.(objects := w.objects - ({key} * d.left)), w.deleters[id := d.(left := d.left - {key})]);
  }

  // ---- Sweeps ------------------------------------------------------------------------------------

  lemma SweepStartKeepsOk(w: World, id: nat)
    requires MediaOk(w) && id !in w.sweepers
    requires w.asset.deletion.DELETED? && w.asset.sweepAfter.Some? && w.asset.sweepAfter.value <= w.now
    ensures MediaOk(Do(w, SweepStart(id)))
  {
    var w' := Do(w, SweepStart(id));
    assert forall k :: Owned(w, k) == Owned(w', k);
    forall s | s in w'.sweepers ensures SweeperOk(w', w'.sweepers[s]) {
      if s != id { assert SweeperOk(w, w.sweepers[s]); }
    }
  }

  lemma SweepObjectKeepsOk(w: World, id: nat, key: Key)
    requires MediaOk(w) && id in w.sweepers
    ensures MediaOk(Do(w, SweepObject(id, key)))
  {
    assert SweeperOk(w, w.sweepers[id]);
    var gone := {key} * w.sweepers[id].left;
    ObjectGoneKeepsOk(w, gone);
    var w1, w' := w.(objects := w.objects - gone), Do(w, SweepObject(id, key));
    assert forall k :: Owned(w1, k) == Owned(w', k);
    forall s | s in w'.sweepers ensures SweeperOk(w', w'.sweepers[s]) { assert SweeperOk(w1, w1.sweepers[s]); }
  }

  lemma SweepEndKeepsOk(w: World, id: nat)
    requires MediaOk(w) && id in w.sweepers && w.sweepers[id].left == {}
    ensures MediaOk(Do(w, SweepEnd(id)))
  {
    assert SweeperOk(w, w.sweepers[id]);
    var w' := Do(w, SweepEnd(id));
    assert forall k :: Owned(w, k) == Owned(w', k);
    forall s | s in w'.sweepers ensures SweeperOk(w', w'.sweepers[s]) { assert SweeperOk(w, w.sweepers[s]); }
  }

  lemma SweepCrashKeepsOk(w: World, id: nat)
    requires MediaOk(w)
    ensures MediaOk(Do(w, SweepCrash(id)))
  {
    var w' := Do(w, SweepCrash(id));
    assert forall k :: Owned(w, k) == Owned(w', k);
    forall s | s in w'.sweepers ensures SweeperOk(w', w'.sweepers[s]) { assert SweeperOk(w, w.sweepers[s]); }
  }

  // ---- Every step and every run ------------------------------------------------------------------

  lemma UploadKeepsOk(w: World, act: Act)
    requires MediaOk(w) && (act.UploadStart? ==> act.id !in w.uploads)
    requires act.UploadStart? || act.UploadPut? || act.UploadAttach? || act.UploadReread? || act.UploadClean? || act.UploadNote? || act.UploadCrash?
    ensures MediaOk(Do(w, act))
  {
    if act.UploadStart? {
      UploadStartKeepsOk(w, act.id, act.idx);
    } else if act.id in w.uploads {
      match act
      case UploadPut(id) => if w.uploads[id].phase.Checked? { UploadPutKeepsOk(w, id); }
      case UploadAttach(id) => if w.uploads[id].phase.Stored? { UploadAttachKeepsOk(w, id); }
      case UploadReread(id) => if w.uploads[id].phase.Refused? { UploadRereadKeepsOk(w, id); }
      case UploadClean(id, ok) => if w.uploads[id].phase.Cleaning? { UploadCleanKeepsOk(w, id, ok); }
      case UploadNote(id) => if w.uploads[id].phase.Noting? { UploadNoteKeepsOk(w, id); }
      case UploadCrash(id) => UploadCrashKeepsOk(w, id);
    }
  }

  lemma FileKeepsOk(w: World, act: Act)
    requires MediaOk(w) && (act.Claim? ==> act.id !in w.builds)
    requires act.BuildPut? && act.id in w.builds && w.asset.deletion.DELETED? ==> w.now < w.asset.deletionAt + SWEEP_DELAY_MS
    requires act.Finalise? || act.RequestRebuild? || act.Claim? || act.BuildPut? || act.BuildEnd? || act.BuildCrash?
    ensures MediaOk(Do(w, act))
  {
    match act
    case Finalise(status) => if w.asset.deletion.NONE? { FileRecordKeepsOk(w, Finalised(w.asset, status, w.now)); }
    case RequestRebuild => if w.asset.deletion.NONE? { FileRecordKeepsOk(w, Rebuild(w.asset, w.now)); }
    case Claim(id) => if Claimable(w.asset, w.now) { ClaimKeepsOk(w, id); }
    case BuildPut(id) => if id in w.builds { BuildPutKeepsOk(w, id); }
    case BuildEnd(id, outcome) =>
      if id in w.builds {
        BuildGoneKeepsOk(w, id, CompleteBuild(w.asset, w.builds[id].claimedAt, w.builds[id].attempts, outcome, w.now).0);
      }
    case BuildCrash(id) => BuildGoneKeepsOk(w, id, w.asset);
  }

  lemma DeleteKeepsOk(w: World, act: Act)
    requires MediaOk(w) && (act.DeleteStart? ==> act.id !in w.deleters && act.at <= w.now) && (act.SweepStart? ==> act.id !in w.sweepers)
    requires act.DeleteStart? || act.DeleteObject? || act.DeleteEnd? || act.DeleteCrash? || act.SweepStart? || act.SweepObject? || act.SweepEnd? || act.SweepCrash?
    ensures MediaOk(Do(w, act))
  {
    match act
    case DeleteStart(id, at) => if !w.asset.deletion.DELETED? { DeleteStartKeepsOk(w, id, at); }
    case DeleteObject(id, key) => if id in w.deleters { DeleteObjectKeepsOk(w, id, key); }
    case DeleteEnd(id) => if id in w.deleters && w.deleters[id].left == {} { DeleteEndKeepsOk(w, id); }
    case DeleteCrash(id) => DeleterStepKeepsOk(w, w.deleters - {id});
    case SweepStart(id) =>
      if w.asset.deletion.DELETED? && w.asset.sweepAfter.Some? && w.asset.sweepAfter.value <= w.now { SweepStartKeepsOk(w, id); }
    case SweepObject(id, key) => if id in w.sweepers { SweepObjectKeepsOk(w, id, key); }
    case SweepEnd(id) => if id in w.sweepers && w.sweepers[id].left == {} { SweepEndKeepsOk(w, id); }
    case SweepCrash(id) => SweepCrashKeepsOk(w, id);
  }

  lemma StepKeepsOk(w: World, step: Step)
    requires MediaOk(w) && Allowed(w, step)
    ensures MediaOk(Next(w, step))
  {
    hide MediaOk;
    TimeKeepsOk(w, step.at);
    var w1 := w.(now := step.at);
    var act := step.act;
    if act.UploadStart? || act.UploadPut? || act.UploadAttach? || act.UploadReread? || act.UploadClean? || act.UploadNote? || act.UploadCrash? {
      UploadKeepsOk(w1, act);
    } else if act.Finalise? || act.RequestRebuild? || act.Claim? || act.BuildPut? || act.BuildEnd? || act.BuildCrash? {
      FileKeepsOk(w1, act);
    } else {
      DeleteKeepsOk(w1, act);
    }
  }

  lemma {:induction false} RunKeepsOk(w: World, steps: seq<Step>)
    requires MediaOk(w) && AllowedRun(w, steps)
    ensures MediaOk(Run(w, steps))
    decreases |steps|
  {
    if steps != [] {
      StepKeepsOk(w, steps[0]);
      RunKeepsOk(Next(w, steps[0]), steps[1..]);
    }
  }

  /** In every reachable state, each stored segment or joined file of a deleted recording is named on
      its record with a sweep due, belongs to a writer in flight, or was left by an upload that crashed. */
  lemma NothingIsForgotten(steps: seq<Step>)
    requires AllowedRun(NEW_WORLD, steps)
    ensures NoOrphan(Run(NEW_WORLD, steps))
  {
    RunKeepsOk(NEW_WORLD, steps);
  }

  /** When no writer is in flight and no sweep is due, nothing of a deleted recording is left but what
      crashed uploads stored. */
  lemma DeletedIsGone(steps: seq<Step>)
    requires AllowedRun(NEW_WORLD, steps)
    requires var w := Run(NEW_WORLD, steps);
             w.asset.deletion.DELETED? && w.asset.sweepAfter.None? && w.uploads == map[] && w.builds == map[]
    ensures Run(NEW_WORLD, steps).objects <= Run(NEW_WORLD, steps).lost
  {
    NothingIsForgotten(steps);
    var w := Run(NEW_WORLD, steps);
    assert forall k <- w.objects :: Owned(w, k);
  }

  // ---- Fencing -----------------------------------------------------------------------------------

  /** The claim's time identifies it only to the millisecond: were the file queued and claimed again
      in the very millisecond of the first claim, the first build could still mark it. */
  lemma SameMillisecondClaims(a: Asset, now: int)
    requires Claimable(a, now) && a.segments != {}
    ensures var again := Finalised(Claimed(a, now), COMPLETE, now);
            && !Standing(again, now) && Claimable(again, now)
            && Standing(Claimed(again, now), now)
  {
  }

  /** A build that reports while its claim stands is tried again exactly after a failure with attempts
      left; a file built is READY and can be played, one without the tool is UNAVAILABLE, and after the
      last attempt it is FAILED until someone asks for it again. */
  lemma BuildsAreRetried(a: Asset, claimedAt: int, attempts: nat, outcome: Outcome, now: int, later: int)
    requires Standing(a, claimedAt) && Closed(a)
    ensures var a' := CompleteBuild(a, claimedAt, attempts, outcome, now).0;
            && (Claimable(a', later) <==> outcome.BuildFailed? && attempts < 3)
            && (a'.file.status.READY? <==> outcome.Built?) && (outcome.Built? ==> a'.file.stored)
            && (a'.file.status.UNAVAILABLE? <==> outcome.NoTool?)
            && (Claimable(Rebuild(a', now), later) <==> Claimable(a', later) || !a'.file.status.PENDING?)
  {
  }

  /** A deleted recording lists no segment and has no file to play. */
  predicate Bare(a: Asset) { a.deletion.DELETED? ==> a.segments == {} && a.file.status.NO_FILE? && !a.file.stored }

  lemma DoKeepsBare(w: World, act: Act)
    requires Bare(w.asset)
    ensures Bare(Do(w, act).asset) && (w.asset.deletion.DELETED? ==> Do(w, act).asset.deletion.DELETED?)
  {
  }

  /** Once deleted, a recording stays deleted, with nothing to list or play, whatever comes late. */
  lemma {:induction false} DeletedStaysBare(w: World, steps: seq<Step>)
    requires Bare(w.asset)
    ensures Bare(Run(w, steps).asset) && (w.asset.deletion.DELETED? ==> Run(w, steps).asset.deletion.DELETED?)
    decreases |steps|
  {
    if steps != [] {
      DoKeepsBare(w.(now := steps[0].at), steps[0].act);
      DeletedStaysBare(Next(w, steps[0]), steps[1..]);
    }
  }
}

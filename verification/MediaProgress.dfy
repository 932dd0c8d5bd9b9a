/** What becomes of uploads and builds: listed segments are stored, an upload ends listed or cleaned up,
    and a build that was abandoned is claimed again when its lease is over. */
module MediaProgress {
  import opened Wrappers
  import opened Media
  import opened MediaFencing

  // ---- Segments ----------------------------------------------------------------------------------

  /** While no delete has begun, nobody deletes, and every listed segment is in storage, as is that of an
      upload past its storing; one that was refused is listed already. */
  ghost predicate Kept(w: World) {
    w.asset.deletion.NONE? ==>
      && w.deleters == map[] && w.sweepers == map[]
      && (forall i: nat :: i in w.asset.segments ==> Segment(i) in w.objects) && w.lost <= w.objects
      && (forall u <- w.uploads :: UploadKept(w, w.uploads[u]))
  }

  ghost predicate UploadKept(w: World, u: Upload) {
    match u.phase
    case Checked => true
    case Stored => Segment(u.idx) in w.objects
    case Refused => Segment(u.idx) in w.objects && u.idx in w.asset.segments
    case _ => false
  }

  predicate UploadAct(act: Act) {
    act.UploadStart? || act.UploadPut? || act.UploadAttach? || act.UploadReread? || act.UploadClean? || act.UploadNote? || act.UploadCrash?
  }

  lemma UploadActKeeps(w: World, act: Act)
    requires Kept(w) && UploadAct(act)
    ensures Kept(Do(w, act))
  {
  }

  lemma OtherActKeeps(w: World, act: Act)
    requires Kept(w) && !UploadAct(act)
    ensures Kept(Do(w, act))
  {
  }

  lemma {:induction false} RunIsKept(w: World, steps: seq<Step>)
    requires Kept(w)
    ensures Kept(Run(w, steps))
    decreases |steps|
  {
    if steps != [] {
      var w1 := w.(now := steps[0].at);
      if UploadAct(steps[0].act) { UploadActKeeps(w1, steps[0].act); } else { OtherActKeeps(w1, steps[0].act); }
      RunIsKept(Next(w, steps[0]), steps[1..]);
    }
  }

  /** However uploads, retries and builds interleave, every segment a recording lists is in storage, until
      the recording is deleted; and what crashed uploads are said to have stored is there, too. */
  lemma ListedIsStored(steps: seq<Step>, i: nat)
    requires var w := Run(NEW_WORLD, steps); w.asset.deletion.NONE? && i in w.asset.segments
    ensures Segment(i) in Run(NEW_WORLD, steps).objects && Run(NEW_WORLD, steps).lost <= Run(NEW_WORLD, steps).objects
  {
    RunIsKept(NEW_WORLD, steps);
  }

  /** An upload begins exactly when no delete has begun and its segment is not listed yet, and then stores. */
  lemma UploadBeginsIff(w: World, id: nat, idx: nat)
    requires id !in w.uploads
    ensures var w' := Do(Do(w, UploadStart(id, idx)), UploadPut(id));
            && (id in w'.uploads <==> w.asset.deletion.NONE? && idx !in w.asset.segments)
            && (id in w'.uploads ==> w'.uploads[id] == Upload(idx, Stored) && w'.objects == w.objects + {Segment(idx)})
            && (id !in w'.uploads ==> w' == w)
  {
  }

  /** An upload whose object is stored ends listed exactly when no delete has begun, be it by its own doing
      or another's with the same index; otherwise it cleans up: its object is deleted, or, when storage
      fails, left for a sweep half an hour later. */
  lemma UploadEnds(steps: seq<Step>, id: nat, clean: bool)
    requires var w := Run(NEW_WORLD, steps); id in w.uploads && w.uploads[id].phase.Stored?
    ensures var w := Run(NEW_WORLD, steps);
            var idx := w.uploads[id].idx;
            var end := Do(Do(Do(Do(w, UploadAttach(id)), UploadReread(id)), UploadClean(id, clean)), UploadNote(id));
            && id !in end.uploads
            && (w.asset.deletion.NONE? ==>
                  && idx in end.asset.segments && Segment(idx) in end.objects
                  && end.asset.segments == w.asset.segments + {idx} && end.objects == w.objects)
            && (!w.asset.deletion.NONE? ==>
                  && end.asset.segments == w.asset.segments
                  && (clean ==> end.objects == w.objects - {Segment(idx)} && end.asset == w.asset)
                  && (!clean ==> end.objects == w.objects && Segment(idx) in end.asset.keys && end.asset.sweepAfter == Some(w.now + 1_800_000)))
  {
    RunIsKept(NEW_WORLD, steps);
    var w := Run(NEW_WORLD, steps);
    hide Run, Kept;
    if w.asset.deletion.NONE? { EndsListed(w, id, clean); } else { EndsClean(w, id, clean); }
  }

  lemma EndsListed(w: World, id: nat, clean: bool)
    requires Kept(w) && w.asset.deletion.NONE? && id in w.uploads && w.uploads[id].phase.Stored?
    ensures var end := Do(Do(Do(Do(w, UploadAttach(id)), UploadReread(id)), UploadClean(id, clean)), UploadNote(id));
            end == w.(uploads := w.uploads - {id}, asset := w.asset.(segments := w.asset.segments + {w.uploads[id].idx}))
            && Segment(w.uploads[id].idx) in end.objects
  {
    var w2 := Do(Do(w, UploadAttach(id)), UploadReread(id));
    assert w.uploads[id := w.uploads[id].(phase := Refused)] - {id} == w.uploads - {id};
    assert w2 == w.(uploads := w.uploads - {id}, asset := w.asset.(segments := w.asset.segments + {w.uploads[id].idx}));
    GoneUpload(w2, id, clean);
    hide Do;
  }

  lemma GoneUpload(w: World, id: nat, clean: bool)
    requires id !in w.uploads
    ensures Do(Do(w, UploadClean(id, clean)), UploadNote(id)) == w
  {
  }

  lemma EndsClean(w: World, id: nat, clean: bool)
    requires !w.asset.deletion.NONE? && id in w.uploads && w.uploads[id].phase.Stored?
    ensures var end := Do(Do(Do(Do(w, UploadAttach(id)), UploadReread(id)), UploadClean(id, clean)), UploadNote(id));
            var key := Segment(w.uploads[id].idx);
            && id !in end.uploads && end.asset.segments == w.asset.segments
            && (clean ==> end.objects == w.objects - {key} && end.asset == w.asset)
            && (!clean ==> end.objects == w.objects && key in end.asset.keys && end.asset.sweepAfter == Some(w.now + 1_800_000))
  {
    var w2 := Do(Do(w, UploadAttach(id)), UploadReread(id));
    assert id in w2.uploads && w2.uploads[id] == w.uploads[id].(phase := Cleaning) && w2.asset == w.asset && w2.objects == w.objects && w2.now == w.now;
    CleansUp(w2, id, clean);
    hide Do;
  }

  lemma CleansUp(w: World, id: nat, clean: bool)
    requires !w.asset.deletion.NONE? && id in w.uploads && w.uploads[id].phase.Cleaning?
    ensures var end := Do(Do(w, UploadClean(id, clean)), UploadNote(id));
            var key := Segment(w.uploads[id].idx);
            && id !in end.uploads && end.asset.segments == w.asset.segments
            && (clean ==> end.objects == w.objects - {key} && end.asset == w.asset)
            && (!clean ==> end.objects == w.objects && key in end.asset.keys && end.asset.sweepAfter == Some(w.now + 1_800_000))
  {
  }

  // ---- Deleted recordings ------------------------------------------------------------------------

  /** As it was when its delete began, or emptied by it. */
  predicate Frozen(a: Asset, b: Asset) {
    && !b.deletion.NONE? && b.status == a.status
    && (b.segments == a.segments || b.segments == {})
    && (b.file == a.file || b.file.status.NO_FILE?)
    && (a.deletion.DELETED? ==> b.deletion.DELETED? && b.segments == a.segments && b.file == a.file && b.deletionAt == a.deletionAt)
  }

  lemma StepKeepsFrozen(w: World, act: Act)
    requires !w.asset.deletion.NONE?
    ensures Frozen(w.asset, Do(w, act).asset)
    ensures w.asset.deletion.DELETED? ==> Do(w, act).deleters.Keys <= w.deleters.Keys
  {
  }

  lemma FrozenOn(a: Asset, b: Asset, c: Asset)
    requires Frozen(a, b) && Frozen(b, c)
    ensures Frozen(a, c)
  {
  }

  /** Once its delete has begun, nothing that comes late closes, extends or builds a recording: it stays as it
      was until it is emptied, and deleted it stays for good, with no further delete. */
  lemma {:induction false} DeletedIsFrozen(w: World, steps: seq<Step>)
    requires !w.asset.deletion.NONE?
    ensures Frozen(w.asset, Run(w, steps).asset)
    ensures w.asset.deletion.DELETED? ==> Run(w, steps).deleters.Keys <= w.deleters.Keys
    decreases |steps|
  {
    if steps != [] {
      StepKeepsFrozen(w.(now := steps[0].at), steps[0].act);
      hide Do;
      DeletedIsFrozen(Next(w, steps[0]), steps[1..]);
      FrozenOn(w.asset, Next(w, steps[0]).asset, Run(w, steps).asset);
    }
  }

  // ---- Builds ------------------------------------------------------------------------------------

  predicate Given(w: World, step: Step) { step.act.Claim? && step.act.id !in w.builds && step.act.id in Next(w, step).builds }

  /** After a claim and any steps that leave it standing, be its build at work or gone, another claim is
      given exactly when more than half an hour has passed, and the recording is still closed. */
  lemma AbandonedIsClaimedIff(w: World, first: Step, steps: seq<Step>, again: Step)
    requires Given(w, first) && Quiet(Next(w, first), steps)
    requires again.act.Claim? && again.act.id !in Run(Next(w, first), steps).builds
    ensures var w' := Run(Next(w, first), steps);
            Given(w', again) <==> Closed(w'.asset) && again.at > first.at + 1_800_000
  {
    ClaimStandsIff(Next(w, first), steps, first.at);
  }

  /** A recording closed with segments can be built at once, and again after every late segment, unless it
      is being deleted; one without segments has no file to build. */
  lemma ClosedIsBuilt(a: Asset, status: Status, now: int, later: int)
    requires a.segments != {} || a.file.status.NO_FILE?
    ensures Claimable(Finalised(a, status, now), later) <==>
            a.deletion.NONE? && a.segments != {} && (status.COMPLETE? || status.PARTIAL?)
  {
  }
}

/** Exactly when a file of a deleted recording is forgotten: by which step, in any run whatever. */
module MediaForgotten {
  import opened Wrappers
  import opened Media
  import opened MediaSafety
  import R = MediaRuns

  // ---- The joined file ---------------------------------------------------------------------------

  predicate Writing(w: World) { exists b <- w.builds :: w.builds[b].put }

  /** A joined file of a recording in deletion, or deleted, has a writer, or a delete or sweep to come. */
  predicate FileKnown(w: World) { !w.asset.deletion.NONE? && File in w.objects ==> Writing(w) || Due(w.asset) }

  /** The only build that still has the file in hand. */
  predicate LastWriter(w: World, id: nat) {
    id in w.builds && w.builds[id].put && forall b <- w.builds :: b != id ==> !w.builds[b].put
  }

  /** The steps that forget the file of a deleted recording: its last writer ends, or crashes, when the
      sweep is over; or the sweep ends when the writer is already gone. */
  predicate Forgets(w: World, step: Step) {
    && w.asset.deletion.DELETED? && File in w.objects
    && match step.act
       case BuildEnd(id, _) => LastWriter(w, id) && w.asset.sweepAfter.None?
       case BuildCrash(id) => LastWriter(w, id) && w.asset.sweepAfter.None?
       case SweepEnd(id) =>
         && id in w.sweepers && w.sweepers[id].left == {} && w.asset.sweepAfter == Some(w.sweepers[id].sweepAfter)
         && !Writing(w)
       case _ => false
  }

  predicate BuildAct(act: Act) { act.Claim? || act.BuildPut? || act.BuildEnd? || act.BuildCrash? || act.Finalise? || act.RequestRebuild? }

  lemma UploadForgetsNot(w: World, act: Act)
    requires R.UploadAct(act) && FileKnown(w)
    ensures FileKnown(Do(w, act))
  {
    assert Do(w, act).builds == w.builds;
    assert File in Do(w, act).objects ==> File in w.objects;
  }

  lemma GoneWriter(w: World, id: nat, a: Asset)
    requires FileKnown(w) && a.deletion == w.asset.deletion && a.sweepAfter == w.asset.sweepAfter
    ensures !FileKnown(w.(asset := a, builds := w.builds - {id})) <==>
            w.asset.deletion.DELETED? && File in w.objects && LastWriter(w, id) && w.asset.sweepAfter.None?
  {
    var w' := w.(asset := a, builds := w.builds - {id});
    if Writing(w) && !LastWriter(w, id) {
      var b :| b in w.builds && w.builds[b].put && b != id;
      assert b in w'.builds && w'.builds[b].put;
    }
    assert LastWriter(w, id) ==> !Writing(w');
  }

  lemma BuildForgetsIff(w: World, act: Act)
    requires BuildAct(act) && FileKnown(w) && (act.Claim? ==> act.id !in w.builds)
    ensures !FileKnown(Do(w, act)) <==> Forgets(w, Step(w.now, act))
  {
    var w' := Do(w, act);
    match act
    case Claim(id) =>
      if Writing(w) {
        var b :| b in w.builds && w.builds[b].put;
        assert b in w'.builds && w'.builds[b].put;
      }
    case BuildPut(id) =>
      if id in w.builds && !w.builds[id].put {
        assert id in w'.builds && w'.builds[id].put;
      }
    case BuildEnd(id, outcome) =>
      if id in w.builds {
        GoneWriter(w, id, CompleteBuild(w.asset, w.builds[id].claimedAt, w.builds[id].attempts, outcome, w.now).0);
      }
    case BuildCrash(id) => GoneWriter(w, id, w.asset);
    case Finalise(_) => assert w'.builds == w.builds;
    case RequestRebuild => assert w'.builds == w.builds;
  }

  lemma DeleteForgetsIff(w: World, act: Act)
    requires !BuildAct(act) && !R.UploadAct(act) && FileKnown(w)
    ensures !FileKnown(Do(w, act)) <==> Forgets(w, Step(w.now, act))
  {
    assert Do(w, act).builds == w.builds;
    assert Do(w, act).objects <= w.objects;
  }

  /** A step forgets the joined file if and only if it is one of the three. */
  lemma FileForgottenIff(w: World, step: Step)
    requires FileKnown(w) && Permitted(w, step)
    ensures !FileKnown(Next(w, step)) <==> Forgets(w, step)
  {
    var w1 := w.(now := step.at);
    assert FileKnown(w1) && Forgets(w1, Step(w1.now, step.act)) == Forgets(w, step);
    hide Do, FileKnown, Forgets;
    if R.UploadAct(step.act) {
      UploadForgetsNot(w1, step.act);
      NoUploadForgets(w, step);
    } else if BuildAct(step.act) {
      BuildForgetsIff(w1, step.act);
    } else {
      DeleteForgetsIff(w1, step.act);
    }
  }

  lemma NoUploadForgets(w: World, step: Step)
    ensures R.UploadAct(step.act) ==> !Forgets(w, step)
  {
  }

  // ---- The segments ------------------------------------------------------------------------------

  /** The run without what builds write: their puts come to nothing. */
  function Unwritten(steps: seq<Step>): seq<Step>
    decreases |steps|
  {
    if steps == [] then [] else (if steps[0].act.BuildPut? then [] else [steps[0]]) + Unwritten(steps[1..])
  }

  /** The same record, and the same uploads, deletes and sweeps under way. */
  predicate SameRecord(w: World, v: World) {
    && v.now <= w.now && v.asset == w.asset && v.lost == w.lost && v.uploads == w.uploads
    && v.deleters == w.deleters && v.sweepers == w.sweepers
  }

  ghost predicate SameSegments(a: set<Key>, b: set<Key>) { forall idx: nat :: Segment(idx) in a <==> Segment(idx) in b }

  predicate SameClaims(a: map<nat, Build>, b: map<nat, Build>) {
    a.Keys == b.Keys && forall id <- a :: b[id].claimedAt == a[id].claimedAt && b[id].attempts == a[id].attempts
  }

  /** The same but for the joined file in storage, and what builds wrote. */
  ghost predicate Alike(w: World, v: World) {
    SameRecord(w, v) && SameSegments(w.objects, v.objects) && SameClaims(w.builds, v.builds)
  }

  lemma StoringKeepsAlike(w: World, v: World, act: Act)
    requires Alike(w, v) && v.now == w.now && (act.UploadPut? || act.UploadClean?)
    ensures Alike(Do(w, act), Do(v, act))
  {
    assert Do(w, act).builds == w.builds && Do(v, act).builds == v.builds;
  }

  lemma EarlyUploadKeepsRecord(w: World, v: World, act: Act)
    requires SameRecord(w, v) && v.now == w.now && (act.UploadStart? || act.UploadPut? || act.UploadAttach?)
    ensures SameRecord(Do(w, act), Do(v, act))
  {
  }

  lemma LateUploadKeepsRecord(w: World, v: World, act: Act)
    requires SameRecord(w, v) && v.now == w.now && (act.UploadReread? || act.UploadClean? || act.UploadNote? || act.UploadCrash?)
    ensures SameRecord(Do(w, act), Do(v, act))
  {
  }

  lemma UploadKeepsRecord(w: World, v: World, act: Act)
    requires SameRecord(w, v) && v.now == w.now && R.UploadAct(act)
    ensures SameRecord(Do(w, act), Do(v, act))
  {
    hide Do, SameRecord;
    if act.UploadStart? || act.UploadPut? || act.UploadAttach? {
      EarlyUploadKeepsRecord(w, v, act);
    } else {
      LateUploadKeepsRecord(w, v, act);
    }
  }

  lemma UploadKeepsStorage(w: World, act: Act)
    requires R.UploadAct(act) && !act.UploadPut? && !act.UploadClean?
    ensures Do(w, act).builds == w.builds && Do(w, act).objects == w.objects
  {
  }

  lemma OtherUploadKeepsAlike(w: World, v: World, act: Act)
    requires Alike(w, v) && v.now == w.now && R.UploadAct(act) && !act.UploadPut? && !act.UploadClean?
    ensures Alike(Do(w, act), Do(v, act))
  {
    hide Do, SameRecord, SameSegments, SameClaims;
    UploadKeepsRecord(w, v, act);
    UploadKeepsStorage(w, act);
    UploadKeepsStorage(v, act);
  }

  lemma UploadKeepsAlike(w: World, v: World, act: Act)
    requires Alike(w, v) && v.now == w.now && R.UploadAct(act)
    ensures Alike(Do(w, act), Do(v, act))
  {
    hide Alike, Do;
    if act.UploadPut? || act.UploadClean? {
      StoringKeepsAlike(w, v, act);
    } else {
      OtherUploadKeepsAlike(w, v, act);
    }
  }

  lemma BuildKeepsAlike(w: World, v: World, act: Act)
    requires Alike(w, v) && v.now == w.now && BuildAct(act) && !act.BuildPut?
    ensures Alike(Do(w, act), Do(v, act))
  {
    assert Do(w, act).objects == w.objects && Do(v, act).objects == v.objects;
  }

  lemma DeleteKeepsAlike(w: World, v: World, act: Act)
    requires Alike(w, v) && v.now == w.now && !R.UploadAct(act) && !BuildAct(act)
    ensures Alike(Do(w, act), Do(v, act))
  {
    assert Do(w, act).builds == w.builds && Do(v, act).builds == v.builds;
  }

  lemma PutKeepsAlike(w: World, v: World, step: Step)
    requires Alike(w, v) && step.act.BuildPut? && w.now <= step.at
    ensures Alike(Next(w, step), v)
  {
  }

  lemma StepKeepsAlike(w: World, v: World, step: Step)
    requires Alike(w, v) && Permitted(w, step) && !step.act.BuildPut?
    ensures Alike(Next(w, step), Next(v, step)) && Allowed(v, step)
  {
    var w1, v1 := w.(now := step.at), v.(now := step.at);
    assert Alike(w1, v1);
    assert Allowed(v, step);
    hide Do, Alike, Permitted;
    if R.UploadAct(step.act) {
      UploadKeepsAlike(w1, v1, step.act);
    } else if BuildAct(step.act) {
      BuildKeepsAlike(w1, v1, step.act);
    } else {
      DeleteKeepsAlike(w1, v1, step.act);
    }
  }

  lemma {:induction false} UnwrittenIsAlike(w: World, v: World, steps: seq<Step>)
    requires Alike(w, v) && PermittedRun(w, steps)
    ensures AllowedRun(v, Unwritten(steps)) && Alike(Run(w, steps), Run(v, Unwritten(steps)))
    decreases |steps|
  {
    if steps != [] {
      if steps[0].act.BuildPut? {
        PutKeepsAlike(w, v, steps[0]);
        hide Next, Alike, Permitted, Allowed;
        assert [] + Unwritten(steps[1..]) == Unwritten(steps[1..]);
        UnwrittenIsAlike(Next(w, steps[0]), v, steps[1..]);
      } else {
        StepKeepsAlike(w, v, steps[0]);
        hide Next, Alike, Permitted, Allowed;
        assert ([steps[0]] + Unwritten(steps[1..]))[1..] == Unwritten(steps[1..]);
        UnwrittenIsAlike(Next(w, steps[0]), Next(v, steps[0]), steps[1..]);
      }
    }
  }

  /** No segment of a deleted recording is ever forgotten, whatever builds do. */
  predicate SegmentsKnown(w: World) {
    !w.asset.deletion.NONE? ==> forall k <- w.objects :: k.Segment? ==> Owned(w, k) || (Listed(w.asset, k) && Due(w.asset))
  }

  lemma SegmentsAreNeverForgotten(steps: seq<Step>)
    requires PermittedRun(NEW_WORLD, steps)
    ensures SegmentsKnown(Run(NEW_WORLD, steps))
  {
    UnwrittenIsAlike(NEW_WORLD, NEW_WORLD, steps);
    NothingIsForgotten(Unwritten(steps));
    AlikeSegments(Run(NEW_WORLD, steps), Run(NEW_WORLD, Unwritten(steps)));
  }

  lemma AlikeSegments(w: World, v: World)
    requires Alike(w, v) && NoOrphan(v)
    ensures SegmentsKnown(w)
  {
    forall k | k in w.objects && k.Segment? ensures k in v.objects && Owned(v, k) == Owned(w, k) {
      assert k == Segment(k.idx);
    }
  }

  // ---- Everything --------------------------------------------------------------------------------

  /** In any run, something of a deleted recording is forgotten exactly when its joined file is. */
  lemma OnlyTheFileIsForgotten(steps: seq<Step>)
    requires PermittedRun(NEW_WORLD, steps)
    ensures NoOrphan(Run(NEW_WORLD, steps)) <==> FileKnown(Run(NEW_WORLD, steps))
  {
    SegmentsAreNeverForgotten(steps);
    R.RunKeepsKeyed(NEW_WORLD, steps);
    KnownParts(Run(NEW_WORLD, steps));
  }

  lemma KnownParts(w: World)
    requires SegmentsKnown(w) && R.Keyed(w)
    ensures NoOrphan(w) <==> FileKnown(w)
  {
    assert Owned(w, File) == Writing(w);
    if FileKnown(w) && !w.asset.deletion.NONE? {
      forall k | k in w.objects ensures Owned(w, k) || (Listed(w.asset, k) && Due(w.asset)) {
        if k.File? { assert k == File; }
      }
    }
  }

  /** After any run, a step takes the recording from nothing forgotten to something forgotten if and only
      if it is the end or crash of the file's last writer once the sweep is over, or the end of the sweep
      once the writer is gone. */
  lemma StepForgetsIff(steps: seq<Step>, step: Step)
    requires PermittedRun(NEW_WORLD, steps) && Permitted(Run(NEW_WORLD, steps), step)
    requires NoOrphan(Run(NEW_WORLD, steps))
    ensures !NoOrphan(Next(Run(NEW_WORLD, steps), step)) <==> Forgets(Run(NEW_WORLD, steps), step)
  {
    hide NoOrphan, FileKnown, Forgets, Next, Permitted;
    OnlyTheFileIsForgotten(steps);
    FileForgottenIff(Run(NEW_WORLD, steps), step);
    R.OneMore(NEW_WORLD, steps, step);
    OnlyTheFileIsForgotten(steps + [step]);
  }

  /** No step of the run forgets. */
  predicate NeverForgets(w: World, steps: seq<Step>)
    decreases |steps|
  {
    steps == [] || (!Forgets(w, steps[0]) && NeverForgets(Next(w, steps[0]), steps[1..]))
  }

  /** The file is known all along the run. */
  predicate AlwaysKnown(w: World, steps: seq<Step>)
    decreases |steps|
  {
    FileKnown(w) && (steps == [] || AlwaysKnown(Next(w, steps[0]), steps[1..]))
  }

  lemma {:induction false} AlwaysKnownIff(w: World, steps: seq<Step>)
    requires PermittedRun(w, steps) && FileKnown(w)
    ensures AlwaysKnown(w, steps) <==> NeverForgets(w, steps)
    decreases |steps|
  {
    if steps != [] {
      FileForgottenIff(w, steps[0]);
      hide Next, FileKnown, Forgets, Permitted;
      if !Forgets(w, steps[0]) { AlwaysKnownIff(Next(w, steps[0]), steps[1..]); }
    }
  }

  lemma {:induction false} KnownAtAnyTime(w: World, steps: seq<Step>)
    ensures AlwaysKnown(w, steps) <==> forall n: nat :: n <= |steps| ==> FileKnown(Run(w, steps[..n]))
    decreases |steps|
  {
    hide Next, FileKnown;
    assert Run(w, steps[..0]) == w;
    if steps != [] {
      KnownAtAnyTime(Next(w, steps[0]), steps[1..]);
      forall n: nat | n < |steps| ensures Run(Next(w, steps[0]), steps[1..][..n]) == Run(w, steps[..n + 1]) {
        assert steps[..n + 1][1..] == steps[1..][..n];
      }
      if forall n: nat :: n <= |steps[1..]| ==> FileKnown(Run(Next(w, steps[0]), steps[1..][..n])) {
        forall n: nat | 0 < n <= |steps| ensures FileKnown(Run(w, steps[..n])) {
          assert FileKnown(Run(Next(w, steps[0]), steps[1..][..n - 1]));
        }
      }
      if forall n: nat :: n <= |steps| ==> FileKnown(Run(w, steps[..n])) {
        forall n: nat | n <= |steps[1..]| ensures FileKnown(Run(Next(w, steps[0]), steps[1..][..n])) {
          assert FileKnown(Run(w, steps[..n + 1]));
        }
      }
    }
  }

  lemma {:induction false} PrefixPermitted(w: World, steps: seq<Step>, n: nat)
    requires PermittedRun(w, steps) && n <= |steps|
    ensures PermittedRun(w, steps[..n])
    decreases n
  {
    if n > 0 {
      assert steps[..n][1..] == steps[1..][..n - 1];
      PrefixPermitted(Next(w, steps[0]), steps[1..], n - 1);
    }
  }

  /** At no time along a run is anything of a deleted recording forgotten if and only if none of its steps
      is one that forgets. */
  lemma NothingForgottenIff(steps: seq<Step>)
    requires PermittedRun(NEW_WORLD, steps)
    ensures (forall n: nat :: n <= |steps| ==> NoOrphan(Run(NEW_WORLD, steps[..n]))) <==> NeverForgets(NEW_WORLD, steps)
  {
    forall n: nat | n <= |steps| ensures NoOrphan(Run(NEW_WORLD, steps[..n])) <==> FileKnown(Run(NEW_WORLD, steps[..n])) {
      PrefixPermitted(NEW_WORLD, steps, n);
      OnlyTheFileIsForgotten(steps[..n]);
    }
    KnownAtAnyTime(NEW_WORLD, steps);
    AlwaysKnownIff(NEW_WORLD, steps);
  }
}

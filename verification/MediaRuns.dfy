/** Deletes and the builds under way: when a build is always in time, and runs of the code in which it
    is not and its file is forgotten. */
module MediaRuns {
  import opened Wrappers
  import opened Media
  import opened MediaSafety

  // ---- What every delete knows -------------------------------------------------------------------

  /** Every delete has the joined file among its keys. */
  predicate Keyed(w: World) {
    && (w.asset.deletion.DELETED? ==> File in w.asset.keys)
    && (forall id <- w.deleters :: File in w.deleters[id].keys)
  }

  lemma {:induction false} RunKeepsKeyed(w: World, steps: seq<Step>)
    requires Keyed(w)
    ensures Keyed(Run(w, steps))
    decreases |steps|
  {
    if steps != [] {
      StepKeepsKeyed(w, steps[0]);
      RunKeepsKeyed(Next(w, steps[0]), steps[1..]);
    }
  }

  predicate DeleteAct(act: Act) { act.DeleteStart? || act.DeleteObject? || act.DeleteEnd? || act.DeleteCrash? }

  predicate UploadAct(act: Act) {
    act.UploadStart? || act.UploadPut? || act.UploadAttach? || act.UploadReread? || act.UploadClean? || act.UploadNote? || act.UploadCrash?
  }

  predicate DeletesUntouched(w: World, w': World) {
    && w'.deleters == w.deleters && w.asset.keys <= w'.asset.keys
    && w'.asset.deletion == w.asset.deletion && w'.asset.deletionAt == w.asset.deletionAt
  }

  lemma UploadsLeaveDeletes(w: World, act: Act)
    requires UploadAct(act)
    ensures DeletesUntouched(w, Do(w, act))
  {
  }

  lemma BuildsLeaveDeletes(w: World, act: Act)
    requires !UploadAct(act) && !DeleteAct(act)
    ensures DeletesUntouched(w, Do(w, act))
  {
  }

  /** No other step changes the deletes, or takes a key off the record. */
  lemma OthersLeaveDeletes(w: World, step: Step)
    requires !DeleteAct(step.act)
    ensures DeletesUntouched(w, Next(w, step))
  {
    hide Do;
    var w1 := w.(now := step.at);
    if UploadAct(step.act) {
      UploadsLeaveDeletes(w1, step.act);
    } else {
      BuildsLeaveDeletes(w1, step.act);
    }
  }

  lemma StepKeepsKeyed(w: World, step: Step)
    requires Keyed(w)
    ensures Keyed(Next(w, step))
  {
    if DeleteAct(step.act) {
      DeleteKeepsKeyed(w, step);
    } else {
      OthersLeaveDeletes(w, step);
    }
  }

  lemma DeleteKeepsKeyed(w: World, step: Step)
    requires Keyed(w) && DeleteAct(step.act)
    ensures Keyed(Next(w, step))
  {
    match step.act
    case DeleteStart(_, _) =>
    case DeleteObject(_, _) =>
    case DeleteEnd(_) =>
    case DeleteCrash(_) =>
  }

  // ---- Deletes that are given their own time -------------------------------------------------------

  /** A delete is given the time it begins, and a build writes within the sweep's delay of its claim. */
  predicate Prompt(w: World, step: Step) {
    && (step.act.DeleteStart? ==> step.act.at == step.at)
    && (step.act.BuildPut? && step.act.id in w.builds ==> step.at < w.builds[step.act.id].claimedAt + SWEEP_DELAY_MS)
  }

  predicate PromptRun(w: World, steps: seq<Step>)
    decreases |steps|
  {
    steps == [] || (Prompt(w, steps[0]) && PromptRun(Next(w, steps[0]), steps[1..]))
  }

  /** Builds were claimed before the delete that is under way or over. */
  predicate ClaimedBefore(w: World) {
    && (forall b <- w.builds :: w.builds[b].claimedAt <= w.now)
    && (w.asset.deletion.DELETED? ==> forall b <- w.builds :: w.builds[b].claimedAt <= w.asset.deletionAt)
    && (forall d <- w.deleters :: !w.asset.deletion.NONE?)
    && (forall d <- w.deleters, b <- w.builds :: w.builds[b].claimedAt <= w.deleters[d].at)
  }

  lemma DeleteKeepsClaimedBefore(w: World, step: Step)
    requires ClaimedBefore(w) && Permitted(w, step) && Prompt(w, step) && DeleteAct(step.act)
    ensures ClaimedBefore(Next(w, step))
  {
    match step.act
    case DeleteStart(_, _) =>
    case DeleteObject(_, _) =>
    case DeleteEnd(_) =>
    case DeleteCrash(_) =>
  }

  /** Builds are only added by claims, and none is claimed once a delete has begun. */
  lemma BuildsOf(w: World, step: Step)
    requires !DeleteAct(step.act)
    ensures forall b <- Next(w, step).builds ::
              (b in w.builds && Next(w, step).builds[b].claimedAt == w.builds[b].claimedAt)
              || (w.asset.deletion.NONE? && Next(w, step).builds[b].claimedAt == step.at)
  {
    match step.act
    case Claim(_) =>
    case BuildPut(_) =>
    case BuildEnd(_, _) =>
    case BuildCrash(_) =>
    case _ =>
  }

  lemma StepKeepsClaimedBefore(w: World, step: Step)
    requires ClaimedBefore(w) && Permitted(w, step) && Prompt(w, step)
    ensures ClaimedBefore(Next(w, step)) && Timely(w, step)
  {
    TimeIs(w, step);
    if DeleteAct(step.act) {
      DeleteKeepsClaimedBefore(w, step);
    } else {
      OthersLeaveDeletes(w, step);
      BuildsOf(w, step);
      hide Next;
    }
  }

  lemma TimeIs(w: World, step: Step)
    ensures Next(w, step).now == step.at
  {
  }

  lemma {:induction false} PromptIsAllowed(w: World, steps: seq<Step>)
    requires ClaimedBefore(w) && PermittedRun(w, steps) && PromptRun(w, steps)
    ensures AllowedRun(w, steps)
    decreases |steps|
  {
    if steps != [] {
      StepKeepsClaimedBefore(w, steps[0]);
      hide Next, ClaimedBefore, Permitted, Prompt, Timely;
      PromptIsAllowed(Next(w, steps[0]), steps[1..]);
    }
  }

  /** When deletes are given their own time, builds that write within the sweep's delay of their claim
      leave nothing behind. */
  lemma PromptBuildsAreSwept(steps: seq<Step>)
    requires PermittedRun(NEW_WORLD, steps) && PromptRun(NEW_WORLD, steps)
    ensures NoOrphan(Run(NEW_WORLD, steps))
  {
    PromptIsAllowed(NEW_WORLD, steps);
    NothingIsForgotten(steps);
  }

  // ---- A delete that is part of a long sweep -------------------------------------------------------

  lemma {:induction false} OneMore(w: World, steps: seq<Step>, step: Step)
    ensures Run(w, steps + [step]) == Next(Run(w, steps), step)
    ensures PermittedRun(w, steps + [step]) <==> PermittedRun(w, steps) && Permitted(Run(w, steps), step)
    decreases |steps|
  {
    hide Next, Permitted;
    if steps == [] {
      assert [step][1..] == [];
      assert steps + [step] == [step];
    } else {
      assert (steps + [step])[1..] == steps[1..] + [step];
      OneMore(Next(w, steps[0]), steps[1..], step);
    }
  }

  ghost predicate Plays(steps: seq<Step>, w: World) { PermittedRun(NEW_WORLD, steps) && Run(NEW_WORLD, steps) == w }

  lemma Then(steps: seq<Step>, w: World, step: Step, w': World)
    requires Plays(steps, w) && Permitted(w, step) && Next(w, step) == w'
    ensures Plays(steps + [step], w')
  {
    hide Next, Permitted;
    OneMore(NEW_WORLD, steps, step);
  }

  const MINUTE := 60_000

  const SEGMENT := Segment(0)

  /** A recording of one segment is closed at 0, and its file is claimed after nine minutes. */
  function Recorded(): World {
    NEW_WORLD.(asset := NEW_ASSET.(status := COMPLETE, segments := {0}, file := PlayFile(PENDING, false, 0, 0)), objects := {SEGMENT})
  }

  function Building(): World {
    Recorded().(
      now := 9 * MINUTE,
      asset := Recorded().asset.(file := PlayFile(PROCESSING, false, 9 * MINUTE, 1)),
      builds := map[0 := Build(9 * MINUTE, 1, false)])
  }

  /** The sweep that began at 0 reaches the recording after ten minutes and deletes it. */
  function Swept(now: int, sweepAfter: Option<int>): World {
    Building().(
      now := now, objects := {},
      asset := Asset(COMPLETE, {}, PlayFile(NO_FILE, false, 0, 0), DELETED, 0, {SEGMENT, File}, sweepAfter))
  }

  const RECORDING_RUN := [Step(0, UploadStart(0, 0))] + [Step(0, UploadPut(0))] + [Step(0, UploadAttach(0))] + [Step(0, Finalise(COMPLETE))]

  const DELETE_RUN := [Step(10 * MINUTE, DeleteStart(0, 0))] + [Step(10 * MINUTE, DeleteObject(0, SEGMENT))]
    + [Step(10 * MINUTE, DeleteObject(0, File))] + [Step(10 * MINUTE, DeleteEnd(0))]

  lemma Records()
    ensures Plays(RECORDING_RUN, Recorded())
  {
    var w1 := NEW_WORLD.(uploads := map[0 := Upload(0, Checked)]);
    var w2 := NEW_WORLD.(uploads := map[0 := Upload(0, Stored)], objects := {SEGMENT});
    var w3 := NEW_WORLD.(asset := NEW_ASSET.(segments := {0}), objects := {SEGMENT});
    assert Plays([], NEW_WORLD);
    assert Next(NEW_WORLD, Step(0, UploadStart(0, 0))) == w1;
    Then([], NEW_WORLD, Step(0, UploadStart(0, 0)), w1);
    assert [] + [Step(0, UploadStart(0, 0))] == [Step(0, UploadStart(0, 0))];
    assert map[0 := Upload(0, Checked)][0 := Upload(0, Stored)] == map[0 := Upload(0, Stored)];
    assert {} + {SEGMENT} == {SEGMENT};
    Then([Step(0, UploadStart(0, 0))], w1, Step(0, UploadPut(0)), w2);
    assert map[0 := Upload(0, Stored)] - {0} == map[];
    assert {} + {0} == {0};
    Then([Step(0, UploadStart(0, 0))] + [Step(0, UploadPut(0))], w2, Step(0, UploadAttach(0)), w3);
    Then([Step(0, UploadStart(0, 0))] + [Step(0, UploadPut(0))] + [Step(0, UploadAttach(0))], w3, Step(0, Finalise(COMPLETE)), Recorded());
  }

  function DeletingWith(left: set<Key>, objects: set<Key>): World {
    Building().(
      now := 10 * MINUTE, objects := objects, asset := Building().asset.(deletion := DELETING),
      deleters := map[0 := Deleter(0, {SEGMENT, File}, left)])
  }

  lemma DeleteBegins()
    ensures Next(Building(), Step(10 * MINUTE, DeleteStart(0, 0))) == DeletingWith({SEGMENT, File}, {SEGMENT})
  {
    assert SegmentKeys(Building().asset) == {SEGMENT};
    assert {SEGMENT} + {File} + {} == {SEGMENT, File};
  }

  lemma DeleteGoesOn()
    ensures Next(DeletingWith({SEGMENT, File}, {SEGMENT}), Step(10 * MINUTE, DeleteObject(0, SEGMENT))) == DeletingWith({File}, {})
    ensures Next(DeletingWith({File}, {}), Step(10 * MINUTE, DeleteObject(0, File))) == DeletingWith({}, {})
  {
    assert {SEGMENT, File} - {SEGMENT} == {File} && {SEGMENT} - {SEGMENT} == {} && {File} - {File} == {};
    assert {SEGMENT} * {SEGMENT, File} == {SEGMENT} && {File} * {File} == {File};
  }

  lemma DeleteEnds()
    ensures Next(DeletingWith({}, {}), Step(10 * MINUTE, DeleteEnd(0))) == Swept(10 * MINUTE, Some(30 * MINUTE))
  {
    assert {} + {SEGMENT, File} == {SEGMENT, File};
    assert map[0 := Deleter(0, {SEGMENT, File}, {})] - {0} == map[];
  }

  lemma Deletes(steps: seq<Step>)
    requires Plays(steps, Building())
    ensures Plays(steps + DELETE_RUN, Swept(10 * MINUTE, Some(30 * MINUTE)))
  {
    var d0, d1, d2, d3 := Step(10 * MINUTE, DeleteStart(0, 0)), Step(10 * MINUTE, DeleteObject(0, SEGMENT)),
      Step(10 * MINUTE, DeleteObject(0, File)), Step(10 * MINUTE, DeleteEnd(0));
    DeleteBegins();
    DeleteGoesOn();
    DeleteEnds();
    assert Permitted(Building(), d0) && Permitted(DeletingWith({SEGMENT, File}, {SEGMENT}), d1);
    assert Permitted(DeletingWith({File}, {}), d2) && Permitted(DeletingWith({}, {}), d3);
    hide Next, Plays, Permitted, DeletingWith, Swept, Building;
    Then(steps, Building(), d0, DeletingWith({SEGMENT, File}, {SEGMENT}));
    Then(steps + [d0], DeletingWith({SEGMENT, File}, {SEGMENT}), d1, DeletingWith({File}, {}));
    Then(steps + [d0] + [d1], DeletingWith({File}, {}), d2, DeletingWith({}, {}));
    Then(steps + [d0] + [d1] + [d2], DeletingWith({}, {}), d3, Swept(10 * MINUTE, Some(30 * MINUTE)));
    assert steps + [d0] + [d1] + [d2] + [d3] == steps + DELETE_RUN;
  }

  const SWEEP_RUN := [Step(30 * MINUTE, SweepStart(0))] + [Step(30 * MINUTE, SweepObject(0, SEGMENT))]
    + [Step(30 * MINUTE, SweepObject(0, File))] + [Step(30 * MINUTE, SweepEnd(0))]

  function Sweeping(left: set<Key>): World {
    Swept(30 * MINUTE, Some(30 * MINUTE)).(sweepers := map[0 := Sweeper(30 * MINUTE, {SEGMENT, File}, left)])
  }

  lemma SweepBegins()
    ensures Next(Swept(10 * MINUTE, Some(30 * MINUTE)), Step(30 * MINUTE, SweepStart(0))) == Sweeping({SEGMENT, File})
  {
  }

  lemma SweepSteps()
    ensures Next(Sweeping({SEGMENT, File}), Step(30 * MINUTE, SweepObject(0, SEGMENT))) == Sweeping({File})
    ensures Next(Sweeping({File}), Step(30 * MINUTE, SweepObject(0, File))) == Sweeping({})
    ensures Next(Sweeping({}), Step(30 * MINUTE, SweepEnd(0))) == Swept(30 * MINUTE, None)
  {
    assert {SEGMENT, File} - {SEGMENT} == {File} && {File} - {File} == {};
    assert map[0 := Sweeper(30 * MINUTE, {SEGMENT, File}, {})] - {0} == map[];
  }

  lemma Sweeps(steps: seq<Step>)
    requires Plays(steps, Swept(10 * MINUTE, Some(30 * MINUTE)))
    ensures Plays(steps + SWEEP_RUN, Swept(30 * MINUTE, None))
  {
    var d0, d1, d2, d3 := Step(30 * MINUTE, SweepStart(0)), Step(30 * MINUTE, SweepObject(0, SEGMENT)),
      Step(30 * MINUTE, SweepObject(0, File)), Step(30 * MINUTE, SweepEnd(0));
    SweepBegins();
    SweepSteps();
    assert Permitted(Swept(10 * MINUTE, Some(30 * MINUTE)), d0) && Permitted(Sweeping({SEGMENT, File}), d1);
    assert Permitted(Sweeping({File}), d2) && Permitted(Sweeping({}), d3);
    hide Next, Plays, Permitted, Sweeping, Swept;
    Then(steps, Swept(10 * MINUTE, Some(30 * MINUTE)), d0, Sweeping({SEGMENT, File}));
    Then(steps + [d0], Sweeping({SEGMENT, File}), d1, Sweeping({File}));
    Then(steps + [d0] + [d1], Sweeping({File}), d2, Sweeping({}));
    Then(steps + [d0] + [d1] + [d2], Sweeping({}), d3, Swept(30 * MINUTE, None));
    assert steps + [d0] + [d1] + [d2] + [d3] == steps + SWEEP_RUN;
  }

  function LongSweep(): seq<Step> {
    RECORDING_RUN + [Step(9 * MINUTE, Claim(0))] + DELETE_RUN + SWEEP_RUN + [Step(35 * MINUTE, BuildPut(0))] + [Step(35 * MINUTE, BuildEnd(0, Built))]
  }

  /** A sweep begins at 0. A build claims the file at nine minutes. The sweep deletes the recording at ten,
      in its own time, so that the next sweep clears it at thirty. The build writes at thirty-five, within
      the delay of its claim, and leaves its file behind. */
  lemma LongSweepForgets()
    ensures PermittedRun(NEW_WORLD, LongSweep()) && !NoOrphan(Run(NEW_WORLD, LongSweep()))
    ensures 35 * MINUTE < Building().builds[0].claimedAt + SWEEP_DELAY_MS
  {
    var w := Swept(30 * MINUTE, None);
    var written := w.(now := 35 * MINUTE, objects := {File}, builds := map[0 := Build(9 * MINUTE, 1, true)]);
    var forgotten := written.(builds := map[]);
    Records();
    Then(RECORDING_RUN, Recorded(), Step(9 * MINUTE, Claim(0)), Building());
    Deletes(RECORDING_RUN + [Step(9 * MINUTE, Claim(0))]);
    Sweeps(RECORDING_RUN + [Step(9 * MINUTE, Claim(0))] + DELETE_RUN);
    var steps := RECORDING_RUN + [Step(9 * MINUTE, Claim(0))] + DELETE_RUN + SWEEP_RUN;
    Writes();
    hide Plays;
    Then(steps, w, Step(35 * MINUTE, BuildPut(0)), written);
    Then(steps + [Step(35 * MINUTE, BuildPut(0))], written, Step(35 * MINUTE, BuildEnd(0, Built)), forgotten);
    PlaysIs(LongSweep(), forgotten);
    assert File in forgotten.objects && !Owned(forgotten, File);
  }

  lemma PlaysIs(steps: seq<Step>, w: World)
    requires Plays(steps, w)
    ensures PermittedRun(NEW_WORLD, steps) && Run(NEW_WORLD, steps) == w
  {
  }

  lemma Writes()
    ensures var w := Swept(30 * MINUTE, None);
            var written := w.(now := 35 * MINUTE, objects := {File}, builds := map[0 := Build(9 * MINUTE, 1, true)]);
            && Next(w, Step(35 * MINUTE, BuildPut(0))) == written
            && Next(written, Step(35 * MINUTE, BuildEnd(0, Built))) == written.(builds := map[])
  {
    assert {} + {File} == {File};
    assert map[0 := Build(9 * MINUTE, 1, false)][0 := Build(9 * MINUTE, 1, true)] == map[0 := Build(9 * MINUTE, 1, true)];
    assert map[0 := Build(9 * MINUTE, 1, true)] - {0} == map[];
  }

  // ---- A build that writes while the recording is swept ----------------------------------------------

  const OVERTAKEN_RUN := [Step(30 * MINUTE, SweepStart(0))] + [Step(30 * MINUTE, SweepObject(0, File))]
    + [Step(31 * MINUTE, BuildPut(0))] + [Step(31 * MINUTE, BuildEnd(0, Built))] + [Step(31 * MINUTE, SweepObject(0, SEGMENT))]

  function Overtaken(left: set<Key>, objects: set<Key>, builds: map<nat, Build>): World {
    Sweeping(left).(now := 31 * MINUTE, objects := objects, builds := builds)
  }

  lemma OvertakenSweep()
    ensures Next(Sweeping({SEGMENT, File}), Step(30 * MINUTE, SweepObject(0, File))) == Sweeping({SEGMENT})
    ensures Next(Overtaken({SEGMENT}, {File}, map[]), Step(31 * MINUTE, SweepObject(0, SEGMENT))) == Overtaken({}, {File}, map[])
  {
    assert {SEGMENT, File} - {File} == {SEGMENT} && {SEGMENT} - {SEGMENT} == {};
    assert {SEGMENT} * {SEGMENT} == {SEGMENT} && {File} - {SEGMENT} == {File};
  }

  lemma OvertakingBuild()
    ensures Next(Sweeping({SEGMENT}), Step(31 * MINUTE, BuildPut(0))) == Overtaken({SEGMENT}, {File}, map[0 := Build(9 * MINUTE, 1, true)])
    ensures Next(Overtaken({SEGMENT}, {File}, map[0 := Build(9 * MINUTE, 1, true)]), Step(31 * MINUTE, BuildEnd(0, Built)))
            == Overtaken({SEGMENT}, {File}, map[])
  {
    assert {} + {File} == {File};
    assert map[0 := Build(9 * MINUTE, 1, false)][0 := Build(9 * MINUTE, 1, true)] == map[0 := Build(9 * MINUTE, 1, true)];
    assert map[0 := Build(9 * MINUTE, 1, true)] - {0} == map[];
  }

  /** The build writes when the sweep has just deleted its file, and ends; nothing is forgotten yet. */
  lemma Overtakes(steps: seq<Step>)
    requires Plays(steps, Swept(10 * MINUTE, Some(30 * MINUTE)))
    ensures Plays(steps + OVERTAKEN_RUN, Overtaken({}, {File}, map[]))
  {
    var d0, d1, d2 := Step(30 * MINUTE, SweepStart(0)), Step(30 * MINUTE, SweepObject(0, File)), Step(31 * MINUTE, BuildPut(0));
    var d3, d4 := Step(31 * MINUTE, BuildEnd(0, Built)), Step(31 * MINUTE, SweepObject(0, SEGMENT));
    var written := Overtaken({SEGMENT}, {File}, map[0 := Build(9 * MINUTE, 1, true)]);
    var ended := Overtaken({SEGMENT}, {File}, map[]);
    SweepBegins();
    OvertakenSweep();
    OvertakingBuild();
    assert Permitted(Swept(10 * MINUTE, Some(30 * MINUTE)), d0) && Permitted(Sweeping({SEGMENT, File}), d1) && Permitted(Sweeping({SEGMENT}), d2);
    assert Permitted(written, d3) && Permitted(ended, d4);
    hide Next, Plays, Permitted, Sweeping, Swept, Overtaken;
    Then(steps, Swept(10 * MINUTE, Some(30 * MINUTE)), d0, Sweeping({SEGMENT, File}));
    Then(steps + [d0], Sweeping({SEGMENT, File}), d1, Sweeping({SEGMENT}));
    Then(steps + [d0] + [d1], Sweeping({SEGMENT}), d2, written);
    Then(steps + [d0] + [d1] + [d2], written, d3, ended);
    Then(steps + [d0] + [d1] + [d2] + [d3], ended, d4, Overtaken({}, {File}, map[]));
    assert steps + [d0] + [d1] + [d2] + [d3] + [d4] == steps + OVERTAKEN_RUN;
  }

  function SweepOvertaken(): seq<Step> { RECORDING_RUN + [Step(9 * MINUTE, Claim(0))] + DELETE_RUN + OVERTAKEN_RUN }

  /** The build writes between the sweep's delete of its file and the end of the sweep, which then leaves
      the file behind although the build was over before. */
  lemma SweepForgets()
    ensures PermittedRun(NEW_WORLD, SweepOvertaken()) && NoOrphan(Run(NEW_WORLD, SweepOvertaken()))
    ensures var last := Step(31 * MINUTE, SweepEnd(0));
            Permitted(Run(NEW_WORLD, SweepOvertaken()), last) && !NoOrphan(Next(Run(NEW_WORLD, SweepOvertaken()), last))
  {
    Records();
    Then(RECORDING_RUN, Recorded(), Step(9 * MINUTE, Claim(0)), Building());
    Deletes(RECORDING_RUN + [Step(9 * MINUTE, Claim(0))]);
    Overtakes(RECORDING_RUN + [Step(9 * MINUTE, Claim(0))] + DELETE_RUN);
    PlaysIs(SweepOvertaken(), Overtaken({}, {File}, map[]));
    LeftBehind();
  }

  lemma LeftBehind()
    ensures var w, last := Overtaken({}, {File}, map[]), Step(31 * MINUTE, SweepEnd(0));
            NoOrphan(w) && Permitted(w, last) && !NoOrphan(Next(w, last))
  {
    var w := Overtaken({}, {File}, map[]);
    var w' := Next(w, Step(31 * MINUTE, SweepEnd(0)));
    assert File in w'.objects && !Owned(w', File);
  }
}

/** Builds of the joined file: a build can mark the file exactly while its claim stands. */
module MediaFencing {
  import opened Media

  /** A claim that is given, at this time. */
  predicate ClaimsAt(w: World, step: Step, time: int) { step.act.Claim? && step.at == time && Claimable(w.asset, step.at) }

  /** What ends a standing claim: closing the recording again, another claim, a delete, or the end of the
      build that holds it. */
  predicate Breaks(w: World, step: Step) {
    match step.act
    case Finalise(_) => w.asset.deletion.NONE? && w.asset.segments != {}
    case Claim(_) => Claimable(w.asset, step.at)
    case DeleteStart(_, _) => !w.asset.deletion.DELETED?
    case BuildEnd(id, _) => id in w.builds && Standing(w.asset, w.builds[id].claimedAt)
    case _ => false
  }

  /** Nothing along the run ends a claim. */
  predicate Quiet(w: World, steps: seq<Step>)
    decreases |steps|
  {
    steps == [] || (!Breaks(w, steps[0]) && Quiet(Next(w, steps[0]), steps[1..]))
  }

  /** The last claim that was given along the run was given at this very time, and nothing ended it. */
  predicate ReclaimedAt(w: World, steps: seq<Step>, time: int)
    decreases |steps|
  {
    steps != [] &&
    ((ClaimsAt(w, steps[0], time) && Quiet(Next(w, steps[0]), steps[1..])) || ReclaimedAt(Next(w, steps[0]), steps[1..], time))
  }

  /** Steps that do not touch the file's record, or a delete. */
  lemma OtherStepStands(w: World, step: Step, time: int)
    requires !step.act.Finalise? && !step.act.RequestRebuild? && !step.act.Claim? && !step.act.BuildEnd? && !step.act.DeleteStart? && !step.act.DeleteEnd?
    ensures Standing(Next(w, step).asset, time) <==> Standing(w.asset, time)
  {
    match step.act
    case UploadAttach(_) =>
    case UploadNote(_) =>
    case SweepEnd(_) =>
    case _ =>
  }

  lemma FileStepStandsIff(w: World, step: Step, time: int)
    requires step.act.Finalise? || step.act.RequestRebuild? || step.act.Claim? || step.act.BuildEnd?
    ensures Standing(Next(w, step).asset, time) <==> ClaimsAt(w, step, time) || (Standing(w.asset, time) && !Breaks(w, step))
  {
    match step.act
    case Finalise(_) =>
    case RequestRebuild =>
    case Claim(_) =>
    case BuildEnd(_, _) =>
  }

  lemma DeleteStepStandsIff(w: World, step: Step, time: int)
    requires step.act.DeleteStart? || step.act.DeleteEnd?
    ensures Standing(Next(w, step).asset, time) <==> Standing(w.asset, time) && !Breaks(w, step)
  {
    match step.act
    case DeleteStart(_, _) =>
    case DeleteEnd(_) =>
  }

  lemma StepStandsIff(w: World, step: Step, time: int)
    ensures Standing(Next(w, step).asset, time) <==> ClaimsAt(w, step, time) || (Standing(w.asset, time) && !Breaks(w, step))
  {
    hide Next, Standing;
    if step.act.Finalise? || step.act.RequestRebuild? || step.act.Claim? || step.act.BuildEnd? {
      FileStepStandsIff(w, step, time);
    } else if step.act.DeleteStart? || step.act.DeleteEnd? {
      DeleteStepStandsIff(w, step, time);
    } else {
      OtherStepStands(w, step, time);
    }
  }

  /** A claim stands at the end of a run if and only if it stood before and nothing ended it, or the file
      was claimed again in the very same millisecond, which the record cannot tell apart. */
  lemma {:induction false} ClaimStandsIff(w: World, steps: seq<Step>, time: int)
    ensures Standing(Run(w, steps).asset, time) <==> (Standing(w.asset, time) && Quiet(w, steps)) || ReclaimedAt(w, steps, time)
    decreases |steps|
  {
    if steps != [] {
      StepStandsIff(w, steps[0], time);
      hide Next, Standing, ClaimsAt;
      ClaimStandsIff(Next(w, steps[0]), steps[1..], time);
      if ClaimsAt(w, steps[0], time) { ClaimBreaks(w, steps[0], time); }
    }
  }

  lemma ClaimBreaks(w: World, step: Step, time: int)
    requires ClaimsAt(w, step, time)
    ensures Breaks(w, step)
  {
  }

  /** Once its millisecond is over, a claim that was lost never stands again. */
  lemma {:induction false} LostStaysLost(w: World, steps: seq<Step>, time: int)
    requires PermittedRun(w, steps) && time < w.now && !Standing(w.asset, time)
    ensures !Standing(Run(w, steps).asset, time)
    decreases |steps|
  {
    if steps != [] {
      StepStandsIff(w, steps[0], time);
      Ticks(w, steps[0]);
      hide Next, Standing;
      LostStaysLost(Next(w, steps[0]), steps[1..], time);
    }
  }

  lemma Ticks(w: World, step: Step)
    ensures Next(w, step).now == step.at
  {
  }

  predicate Ends(step: Step, id: nat) { (step.act.BuildEnd? || step.act.BuildCrash?) && step.act.id == id }

  lemma BuildStays(w: World, step: Step, id: nat)
    requires Permitted(w, step) && id in w.builds && !Ends(step, id)
    ensures id in Next(w, step).builds && Next(w, step).builds[id].claimedAt == w.builds[id].claimedAt
  {
  }

  lemma {:induction false} BuildGoesOn(w: World, steps: seq<Step>, id: nat)
    requires PermittedRun(w, steps) && id in w.builds && forall s <- steps :: !Ends(s, id)
    ensures id in Run(w, steps).builds && Run(w, steps).builds[id].claimedAt == w.builds[id].claimedAt
    decreases |steps|
  {
    if steps != [] {
      assert !Ends(steps[0], id);
      BuildStays(w, steps[0], id);
      hide Next, Permitted;
      BuildGoesOn(Next(w, steps[0]), steps[1..], id);
    }
  }

  /** What a build that reports success leaves: the file READY, or the record as it was. */
  function Marked(a: Asset, at: int): Asset { a.(file := a.file.(status := READY, stored := true, at := at)) }

  /** From a build's claim to its report, whatever else happens: the report marks the file READY if and
      only if nothing ended the claim in between, or the same millisecond's claim was given again; and
      otherwise it changes nothing. */
  lemma BuildMarksIff(w: World, id: nat, time: int, steps: seq<Step>, at: int)
    requires Permitted(w, Step(time, Claim(id))) && ClaimsAt(w, Step(time, Claim(id)), time)
    requires PermittedRun(Next(w, Step(time, Claim(id))), steps) && forall s <- steps :: !Ends(s, id)
    ensures var w1 := Next(w, Step(time, Claim(id)));
            var w2 := Run(w1, steps);
            Next(w2, Step(at, BuildEnd(id, Built))).asset ==
            if Quiet(w1, steps) || ReclaimedAt(w1, steps, time) then Marked(w2.asset, at) else w2.asset
  {
    var w1 := Next(w, Step(time, Claim(id)));
    assert id in w1.builds && w1.builds[id].claimedAt == time && Standing(w1.asset, time);
    BuildGoesOn(w1, steps, id);
    ClaimStandsIff(w1, steps, time);
  }

  /** So unless the file is claimed again in the claim's own millisecond, a build whose claim was ended
      never marks the file. */
  lemma {:induction false} NoOtherClaim(w: World, steps: seq<Step>, time: int)
    requires forall s <- steps :: s.act.Claim? ==> s.at != time
    ensures !ReclaimedAt(w, steps, time)
    decreases |steps|
  {
    if steps != [] {
      assert steps[0].act.Claim? ==> steps[0].at != time;
      NoOtherClaim(Next(w, steps[0]), steps[1..], time);
    }
  }

  lemma FencedBuildsMarkNothing(w: World, id: nat, time: int, steps: seq<Step>, at: int)
    requires Permitted(w, Step(time, Claim(id))) && ClaimsAt(w, Step(time, Claim(id)), time)
    requires PermittedRun(Next(w, Step(time, Claim(id))), steps) && forall s <- steps :: !Ends(s, id)
    requires forall s <- steps :: s.act.Claim? ==> s.at != time
    ensures var w1 := Next(w, Step(time, Claim(id)));
            var w2 := Run(w1, steps);
            Next(w2, Step(at, BuildEnd(id, Built))).asset == if Quiet(w1, steps) then Marked(w2.asset, at) else w2.asset
  {
    BuildMarksIff(w, id, time, steps, at);
    NoOtherClaim(Next(w, Step(time, Claim(id))), steps, time);
  }
}

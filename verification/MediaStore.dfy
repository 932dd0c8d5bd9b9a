/** The recording's record and its stored objects, as one caller at a time changes them. */
module MediaStore {
  import opened Wrappers
  import opened Media

  /** One more than the largest index. */
  function PastLast(idxs: seq<nat>): nat {
    if idxs == [] then 0
    else
      var rest := PastLast(idxs[1..]);
      if idxs[0] + 1 > rest then idxs[0] + 1 else rest
  }

  lemma PastLastIs(idxs: seq<nat>)
    ensures forall i <- idxs :: i < PastLast(idxs)
    ensures idxs != [] ==> PastLast(idxs) > 0 && PastLast(idxs) - 1 in idxs
  {
    if idxs != [] {
      PastLastIs(idxs[1..]);
      assert idxs == [idxs[0]] + idxs[1..];
    }
  }

  /** The indexes below the number expected, or below one past the last stored, that were never stored. */
  method MissingSegments(idxs: seq<nat>, expected: Option<nat>) returns (missing: seq<nat>)
    ensures forall i :: i in missing <==> 0 <= i < expected.GetOr(PastLast(idxs)) && i !in idxs
    ensures forall j, k :: 0 <= j < k < |missing| ==> missing[j] < missing[k]
    ensures expected.None? ==> forall i <- missing :: exists j <- idxs :: i < j
  {
    PastLastIs(idxs);
    var count := expected.GetOr(PastLast(idxs));
    missing := [];
    var i := 0;
    while i < count
      invariant 0 <= i <= count
      invariant forall m :: m in missing <==> 0 <= m < i && m !in idxs
      invariant forall j, k :: 0 <= j < k < |missing| ==> missing[j] < missing[k]
    {
      if i !in idxs {
        assert forall j :: 0 <= j < |missing| ==> missing[j] in missing;
        missing := missing + [i];
      }
      i := i + 1;
    }
  }

  class MediaStore {
    var asset: Asset
    var objects: set<Key>

    constructor ()
      ensures asset == NEW_ASSET && objects == {}
    {
      asset, objects := NEW_ASSET, {};
    }

    /** Deletes the objects one by one; false when storage fails on one, and what is left stays. */
    method DeleteObjects(keys: set<Key>, failing: set<Key>) returns (ok: bool)
      modifies this`objects
      ensures ok <==> keys !! failing
      ensures ok ==> objects == old(objects) - keys
      ensures old(objects) - keys <= objects <= old(objects)
    {
      var left := keys;
      while left != {}
        invariant left <= keys && keys - left !! failing
        invariant objects == old(objects) - (keys - left)
        decreases left
      {
        var key :| key in left;
        if key in failing { return false; }
        objects := objects - {key};
        left := left - {key};
      }
      ok := true;
    }

    /** Marks the record, removes the objects and marks it for good, unless storage refuses one of them. */
    method DeleteMediaAsset(now: int, failing: set<Key>) returns (deleted: bool)
      modifies this
      ensures old(asset).deletion.DELETED? ==> !deleted && asset == old(asset) && objects == old(objects)
      ensures var marked := MarkDeleting(old(asset), now);
              var keys := KeysToDelete(marked);
              !old(asset).deletion.DELETED? ==>
                && (deleted <==> keys !! failing)
                && (deleted ==> asset == MarkDeleted(marked, keys, now) && objects == old(objects) - keys)
                && (!deleted ==> asset == marked && old(objects) - keys <= objects <= old(objects))
      ensures deleted ==>
                && asset.deletion.DELETED? && asset.segments == {} && asset.file.status.NO_FILE? && !asset.file.stored
                && asset.sweepAfter == Some(now + 1_800_000)
                && (forall i <- old(asset).segments :: Segment(i) !in objects && Segment(i) in asset.keys)
                && (forall k <- old(asset).keys :: k !in objects && k in asset.keys)
                && File !in objects && File in asset.keys
      ensures !deleted && !old(asset).deletion.DELETED? ==> asset == old(asset).(deletion := DELETING, deletionAt := now)
    {
      if asset.deletion.DELETED? { return false; }
      asset := asset.(deletion := DELETING, deletionAt := now);
      var keys := KeysToDelete(asset);
      var ok := DeleteObjects(keys, failing);
      if !ok { return false; }
      asset := asset.(
        segments := {}, file := PlayFile(NO_FILE, false, now, 0), deletion := DELETED, deletionAt := now,
        keys := asset.keys + keys, sweepAfter := Some(now + SWEEP_DELAY_MS));
      deleted := true;
    }

    method NoteOrphanedMediaKey(key: Key, now: int)
      modifies this`asset
      ensures asset == NoteKey(old(asset), key, now)
    {
      if asset.deletion.NONE? { return; }
      asset := asset.(keys := asset.keys + {key}, sweepAfter := Some(now + SWEEP_DELAY_MS));
    }

    method ClaimMediaFileBuild(now: int) returns (claim: Option<int>)
      modifies this`asset
      ensures claim == (if Claimable(old(asset), now) then Some(now) else None)
      ensures asset == (if Claimable(old(asset), now) then Claimed(old(asset), now) else old(asset))
      ensures claim.Some? ==> Standing(asset, claim.value)
      ensures claim.Some? <==>
                && old(asset).deletion.NONE? && old(asset).status in {COMPLETE, PARTIAL}
                && (old(asset).file.status.PENDING? || (old(asset).file.status.PROCESSING? && now > old(asset).file.at + 1_800_000))
    {
      if !asset.deletion.NONE? || !(asset.status.COMPLETE? || asset.status.PARTIAL?) { return None; }
      if !asset.file.status.PENDING? && !(asset.file.status.PROCESSING? && asset.file.at < now - FILE_LEASE_MS) { return None; }
      asset := asset.(file := asset.file.(status := PROCESSING, at := now, attempts := asset.file.attempts + 1));
      claim := Some(now);
    }

    method CompleteMediaFileBuild(claimedAt: int, attempts: nat, outcome: Outcome, now: int) returns (recorded: bool)
      modifies this`asset
      ensures (asset, recorded) == CompleteBuild(old(asset), claimedAt, attempts, outcome, now)
    {
      if !asset.deletion.NONE? || !asset.file.status.PROCESSING? || asset.file.at != claimedAt { return false; }
      match outcome {
        case Built => asset := asset.(file := asset.file.(status := READY, stored := true, at := now));
        case BuildFailed =>
          var status := if attempts < FILE_MAX_ATTEMPTS then PENDING else FAILED;
          asset := asset.(file := asset.file.(status := status, at := now));
        case NoTool => asset := asset.(file := asset.file.(status := UNAVAILABLE, at := now));
      }
      recorded := true;
    }

    /** The last part of a sweep: a deleted recording's keys are deleted once more when they are due. */
    method SweepDeleted(now: int, failing: set<Key>) returns (swept: bool)
      modifies this
      ensures var due := old(asset).deletion.DELETED? && old(asset).sweepAfter.Some? && old(asset).sweepAfter.value <= now;
              && (swept <==> due && old(asset).keys !! failing)
              && (swept ==> objects == old(objects) - old(asset).keys && asset == MarkSwept(old(asset), old(asset).sweepAfter.value))
              && (swept ==> asset == old(asset).(sweepAfter := None))
              && (!swept ==> asset == old(asset))
              && (!due ==> objects == old(objects))
    {
      if !asset.deletion.DELETED? || asset.sweepAfter.None? || asset.sweepAfter.value > now { return false; }
      var ok := DeleteObjects(asset.keys, failing);
      if !ok { return false; }
      asset := asset.(sweepAfter := None);
      swept := true;
    }
  }
}

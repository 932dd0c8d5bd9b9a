/** Recordings: uploads, joined-file builds, deletes and sweeps as steps that interleave. Only one
    recording is modelled; manifests are left out. */
module Media {
  import opened Wrappers

  /** An object in storage: a segment by its index, or the joined file. */
  datatype Key = Segment(idx: nat) | File

  datatype Deletion = NONE | DELETING | DELETED

  datatype Status = RECORDING | COMPLETE | PARTIAL | EMPTY

  datatype FileStatus = NO_FILE | PENDING | PROCESSING | READY | FAILED | UNAVAILABLE

  datatype PlayFile = PlayFile(status: FileStatus, stored: bool, at: int, attempts: nat)

  /** `deletionAt` is the time the latest delete was given. */
  datatype Asset = Asset(
    status: Status, segments: set<nat>, file: PlayFile, deletion: Deletion, deletionAt: int, keys: set<Key>, sweepAfter: Option<int>)

  const SWEEP_DELAY_MS := 30 * 60_000

  const FILE_LEASE_MS := 30 * 60_000

  const FILE_MAX_ATTEMPTS := 3

  // ---- Conditional updates of the record -------------------------------------------------------

  function SegmentKeys(a: Asset): set<Key> { set i | i in a.segments :: Segment(i) }

  /** The keys a delete removes: the joined file's always, for a build can be under way. */
  function KeysToDelete(a: Asset): set<Key> { SegmentKeys(a) + {File} + a.keys }

  function MarkDeleting(a: Asset, at: int): Asset {
    if a.deletion.DELETED? then a else a.(deletion := DELETING, deletionAt := at)
  }

  /** `at` is the time the delete was given: of its call, or of the beginning of the sweep it is part of. */
  function MarkDeleted(a: Asset, keys: set<Key>, at: int): Asset {
    if !a.deletion.DELETING? then a
    else a.(segments := {}, file := PlayFile(NO_FILE, false, at, 0), deletion := DELETED, deletionAt := at,
            keys := a.keys + keys, sweepAfter := Some(at + SWEEP_DELAY_MS))
  }

  /** `noteOrphanedMediaKey`. */
  function NoteKey(a: Asset, key: Key, now: int): Asset {
    if a.deletion.NONE? then a else a.(keys := a.keys + {key}, sweepAfter := Some(now + SWEEP_DELAY_MS))
  }

  function MarkSwept(a: Asset, sweepAfter: int): Asset {
    if a.sweepAfter == Some(sweepAfter) then a.(sweepAfter := None) else a
  }

  function Attach(a: Asset, idx: nat): Option<Asset> {
    if a.deletion.NONE? && idx !in a.segments then Some(a.(segments := a.segments + {idx})) else None
  }

  predicate Closed(a: Asset) { a.status.COMPLETE? || a.status.PARTIAL? }

  predicate Claimable(a: Asset, now: int) {
    && a.deletion.NONE? && Closed(a)
    && (a.file.status.PENDING? || (a.file.status.PROCESSING? && a.file.at < now - FILE_LEASE_MS))
  }

  function Claimed(a: Asset, now: int): Asset {
    a.(file := a.file.(status := PROCESSING, at := now, attempts := a.file.attempts + 1))
  }

  datatype Outcome = Built | BuildFailed | NoTool

  /** Whether the claim of a build still stands. */
  predicate Standing(a: Asset, claimedAt: int) { a.deletion.NONE? && a.file.status.PROCESSING? && a.file.at == claimedAt }

  /** A build reports: nothing happens once its claim is gone, and a failure is queued again while attempts are left. */
  function CompleteBuild(a: Asset, claimedAt: int, attempts: nat, outcome: Outcome, now: int): (Asset, bool) {
    if !Standing(a, claimedAt) then (a, false)
    else
      var retry := outcome.BuildFailed? && attempts < FILE_MAX_ATTEMPTS;
      (a.(file := a.file.(
        status := match outcome case Built => READY case BuildFailed => (if retry then PENDING else FAILED) case NoTool => UNAVAILABLE,
        stored := outcome.Built? || a.file.stored,
        at := now)), true)
  }

  /** Closing a recording, or a late segment closing it again, queues the joined file. */
  function Finalised(a: Asset, status: Status, now: int): Asset {
    if !a.deletion.NONE? then a
    else a.(status := status, file := if a.segments != {} then PlayFile(PENDING, a.file.stored, now, 0) else a.file)
  }

  function Rebuild(a: Asset, now: int): Asset {
    if a.deletion.NONE? && Closed(a) && (a.file.status.READY? || a.file.status.FAILED? || a.file.status.UNAVAILABLE?)
    then a.(file := PlayFile(PENDING, a.file.stored, now, 0)) else a
  }

  // ---- Everyone at work ------------------------------------------------------------------------

  /** An upload: checked that the recording is there, stored its object, was refused, cleans up, notes its key. */
  datatype Phase = Checked | Stored | Refused | Cleaning | Noting

  datatype Upload = Upload(idx: nat, phase: Phase)

  datatype Build = Build(claimedAt: int, attempts: nat, put: bool)

  datatype Deleter = Deleter(at: int, keys: set<Key>, left: set<Key>)

  datatype Sweeper = Sweeper(sweepAfter: int, keys: set<Key>, left: set<Key>)

  /** `lost` remembers the objects of uploads that crashed after storing them. */
  datatype World = World(
    now: int, asset: Asset, objects: set<Key>, lost: set<Key>,
    uploads: map<nat, Upload>, builds: map<nat, Build>, deleters: map<nat, Deleter>, sweepers: map<nat, Sweeper>)

  datatype Act =
    | UploadStart(id: nat, idx: nat) | UploadPut(id: nat) | UploadAttach(id: nat) | UploadReread(id: nat)
    | UploadClean(id: nat, ok: bool) | UploadNote(id: nat) | UploadCrash(id: nat)
    | Finalise(status: Status) | RequestRebuild
    | Claim(id: nat) | BuildPut(id: nat) | BuildEnd(id: nat, outcome: Outcome) | BuildCrash(id: nat)
    | DeleteStart(id: nat, at: int) | DeleteObject(id: nat, key: Key) | DeleteEnd(id: nat) | DeleteCrash(id: nat)
    | SweepStart(id: nat) | SweepObject(id: nat, key: Key) | SweepEnd(id: nat) | SweepCrash(id: nat)

  function Uploading(w: World, id: nat, phase: Phase): World
    requires id in w.uploads
  {
    w.(uploads := w.uploads[id := w.uploads[id].(phase := phase)])
  }

  function Do(w: World, act: Act): World {
    match act
    case UploadStart(id, idx) =>
      if w.asset.deletion.NONE? && idx !in w.asset.segments then w.(uploads := w.uploads[id := Upload(idx, Checked)]) else w
    case UploadPut(id) =>
      if id in w.uploads && w.uploads[id].phase.Checked?
      then Uploading(w, id, Stored).(objects := w.objects + {Segment(w.uploads[id].idx)}) else w
    case UploadAttach(id) =>
      if id in w.uploads && w.uploads[id].phase.Stored? then
        var attached := Attach(w.asset, w.uploads[id].idx);
        if attached.Some? then w.(asset := attached.value, uploads := w.uploads - {id}) else Uploading(w, id, Refused)
      else w
    case UploadReread(id) =>
      if id in w.uploads && w.uploads[id].phase.Refused? then
        // Not deleted: a concurrent retry stored the segment first.
        if w.asset.deletion.NONE? then w.(uploads := w.uploads - {id}) else Uploading(w, id, Cleaning)
      else w
    case UploadClean(id, ok) =>
      if id in w.uploads && w.uploads[id].phase.Cleaning? then
        if ok then w.(objects := w.objects - {Segment(w.uploads[id].idx)}, uploads := w.uploads - {id}) else Uploading(w, id, Noting)
      else w
    case UploadNote(id) =>
      if id in w.uploads && w.uploads[id].phase.Noting?
      then w.(asset := NoteKey(w.asset, Segment(w.uploads[id].idx), w.now), uploads := w.uploads - {id}) else w
    case UploadCrash(id) =>
      if id in w.uploads
      then w.(uploads := w.uploads - {id}, lost := if w.uploads[id].phase.Checked? then w.lost else w.lost + {Segment(w.uploads[id].idx)}) else w
    case Finalise(status) => w.(asset := Finalised(w.asset, status, w.now))
    case RequestRebuild => w.(asset := Rebuild(w.asset, w.now))
    case Claim(id) =>
      if Claimable(w.asset, w.now)
      then w.(asset := Claimed(w.asset, w.now), builds := w.builds[id := Build(w.now, w.asset.file.attempts + 1, false)]) else w
    case BuildPut(id) =>
      if id in w.builds && !w.builds[id].put
      then w.(objects := w.objects + {File}, builds := w.builds[id := w.builds[id].(put := true)]) else w
    case BuildEnd(id, outcome) =>
      if id in w.builds
      then w.(asset := CompleteBuild(w.asset, w.builds[id].claimedAt, w.builds[id].attempts, outcome, w.now).0, builds := w.builds - {id})
      else w
    case BuildCrash(id) => w.(builds := w.builds - {id})
    case DeleteStart(id, at) =>
      if w.asset.deletion.DELETED? then w
      else
        var asset := MarkDeleting(w.asset, at);
        w.(asset := asset, deleters := w.deleters[id := Deleter(at, KeysToDelete(asset), KeysToDelete(asset))])
    case DeleteObject(id, key) =>
      if id in w.deleters
      then w.(objects := w.objects - ({key} * w.deleters[id].left), deleters := w.deleters[id := w.deleters[id].(left := w.deleters[id].left - {key})])
      else w
    case DeleteEnd(id) =>
      if id in w.deleters && w.deleters[id].left == {}
      then w.(asset := MarkDeleted(w.asset, w.deleters[id].keys, w.deleters[id].at), deleters := w.deleters - {id}) else w
    case DeleteCrash(id) => w.(deleters := w.deleters - {id})
    case SweepStart(id) =>
      if w.asset.deletion.DELETED? && w.asset.sweepAfter.Some? && w.asset.sweepAfter.value <= w.now
      then w.(sweepers := w.sweepers[id := Sweeper(w.asset.sweepAfter.value, w.asset.keys, w.asset.keys)]) else w
    case SweepObject(id, key) =>
      if id in w.sweepers
      then w.(objects := w.objects - ({key} * w.sweepers[id].left), sweepers := w.sweepers[id := w.sweepers[id].(left := w.sweepers[id].left - {key})])
      else w
    case SweepEnd(id) =>
      if id in w.sweepers && w.sweepers[id].left == {}
      then w.(asset := MarkSwept(w.asset, w.sweepers[id].sweepAfter), sweepers := w.sweepers - {id}) else w
    case SweepCrash(id) => w.(sweepers := w.sweepers - {id})
  }

  datatype Step = Step(at: int, act: Act)

  function Next(w: World, step: Step): World { Do(w.(now := step.at), step.act) }

  function Run(w: World, steps: seq<Step>): World
    decreases |steps|
  {
    if steps == [] then w else Run(Next(w, steps[0]), steps[1..])
  }

  /** Time does not go back, workers have their own names, and a delete is given no time to come. */
  predicate Permitted(w: World, step: Step) {
    && w.now <= step.at
    && match step.act
       case UploadStart(id, _) => id !in w.uploads
       case Claim(id) => id !in w.builds
       case DeleteStart(id, at) => id !in w.deleters && at <= step.at
       case SweepStart(id) => id !in w.sweepers
       case _ => true
  }

  /** A build writes its file before the time of a finished delete plus the sweep's delay. */
  predicate Timely(w: World, step: Step) {
    step.act.BuildPut? && step.act.id in w.builds && w.asset.deletion.DELETED? ==> step.at < w.asset.deletionAt + SWEEP_DELAY_MS
  }

  predicate Allowed(w: World, step: Step) { Permitted(w, step) && Timely(w, step) }

  predicate AllowedRun(w: World, steps: seq<Step>)
    decreases |steps|
  {
    steps == [] || (Allowed(w, steps[0]) && AllowedRun(Next(w, steps[0]), steps[1..]))
  }

  predicate PermittedRun(w: World, steps: seq<Step>)
    decreases |steps|
  {
    steps == [] || (Permitted(w, steps[0]) && PermittedRun(Next(w, steps[0]), steps[1..]))
  }

  const NEW_ASSET := Asset(RECORDING, {}, PlayFile(NO_FILE, false, 0, 0), NONE, 0, {}, None)

  const NEW_WORLD := World(0, NEW_ASSET, {}, {}, map[], map[], map[], map[])
}

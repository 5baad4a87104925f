/** The sync coroutine as a state machine on values: what one resumption does. */
module SyncMachine {
  import opened Wrappers
  import opened Placement
  import opened Change
  import opened Remote
  import opened Join
  import opened MergeRules

  /** How many changes one push chunk holds. */
  const PUSH_CHUNK := 64

  /** How many writes the merge gathers before it hands a batch over. */
  const WRITE_CHUNK := 1024

  datatype Report = Report(
    pulled: nat,
    pushed: nat,
    conflicts: nat,
    rejected: nat,
    refreshed: nat,
    events: seq<Event>
  )

  const EMPTY_REPORT := Report(0, 0, 0, 0, 0, [])

  /** The pushes awaiting their outcome, by what an acceptance does to them. */
  datatype Pendings = Pendings(
    flags: map<Handle, Placement>,
    content: map<Handle, Placement>,
    drops: set<Handle>,
    creates: map<Handle, Placement>
  ) {
    function Domain(): set<Handle> {
      flags.Keys + content.Keys + drops + creates.Keys
    }

    function Add(h: Handle, pending: Pending): Pendings {
      match pending
      case FlagPush(row) => this.(flags := flags[h := row])
      case ContentPush(row) => this.(content := content[h := row])
      case DropPush => this.(drops := drops + {h})
      case CreatePush(row) => this.(creates := creates[h := row])
    }

    function Forget(hs: set<Handle>): Pendings {
      Pendings(flags - hs, content - hs, drops - hs, creates - hs)
    }
  }

  const NO_PENDINGS := Pendings(map[], map[], {}, map[])

  datatype Phase = Start | PendingLoad | PendingEnumerate | Merging | PendingPush | PendingWrite | Done

  /** The merge in progress: how far the walk has gone, and how absence reads. */
  datatype Merge = Merge(join: Join, vanished: set<Handle>, complete: bool, checkpoint: Checkpoint)

  datatype SyncState = SyncState(
    collection: CollectionId,
    opts: Options,
    local: seq<Placement>,
    checkpoint: Option<Checkpoint>,
    merging: Option<Merge>,
    writes: seq<WriteOp>,
    pushes: seq<ChangeKind>,
    inFlight: seq<Handle>,
    nextCheckpoint: Option<Checkpoint>,
    pendings: Pendings,
    report: Report,
    phase: Phase
  )

  /** What the driver is asked for. */
  datatype Yield =
    | WantsLoad
    | WantsEnumerate(cursor: Option<Checkpoint>)
    | WantsWrite(ops: seq<WriteOp>)
    | WantsPush(changes: seq<ChangeKind>)

  /** What the driver feeds back; `OtherArg` answers a request this verb never makes. */
  datatype Arg =
    | LoadArg(placements: seq<Placement>, checkpoint: Option<Checkpoint>)
    | EnumerateArg(snapshot: Snapshot)
    | WriteArg
    | PushArg(results: seq<PushResult>)
    | OtherArg

  datatype ArgError = UnexpectedArg | MissingArg

  datatype Step = Yielded(request: Yield) | Complete(report: Report) | Failed(error: ArgError)

  function NewSync(coll: CollectionId, opts: Options): SyncState {
    SyncState(coll, opts, [], None, None, [], [], [], None, NO_PENDINGS, EMPTY_REPORT, Start)
  }

  /** What a delta snapshot makes of a joined handle, or nothing when it is untouched. */
  function Narrow(merge: Merge, c: Candidate): Option<Candidate> {
    if c.handle in merge.vanished then Some(c.(remote := None))
    else if c.remote.Some? then Some(c)
    else if c.local.None? || c.local.value.status == Clean then None
    else
      var local := c.local.value;
      var remote :=
        if local.base.None? then None
        else Some(RemoteItem(c.handle, local.base.value.flags,
                             if local.conflictRevision.Some? then local.conflictRevision
                             else local.base.value.revision));
      Some(c.(remote := remote))
  }

  /** The next handle to merge, skipping what a delta leaves untouched. */
  function NextCandidate(merge: Merge): (r: (Option<Candidate>, Merge))
    ensures r.0.Some? ==> r.1.join.Size() < merge.join.Size()
    ensures r.0.None? ==> r.1.join.Size() == 0
    ensures r.1 == merge.(join := r.1.join)
    decreases merge.join.Size()
  {
    var (next, rest) := Next(merge.join);
    if next.None? then (None, merge)
    else
      var moved := merge.(join := rest);
      var narrowed := if merge.complete then next else Narrow(merge, next.value);
      if narrowed.Some? then (narrowed, moved) else NextCandidate(moved)
  }

  /** Folds one candidate's effect into the run, all but the change it derives. */
  function AbsorbWrites(s: SyncState, e: Effect): SyncState {
    s.(writes := s.writes + e.writes,
       report := s.report.(pulled := s.report.pulled + e.pulled,
                           conflicts := s.report.conflicts + e.conflicts,
                           refreshed := s.report.refreshed + e.refreshed,
                           events := s.report.events + e.events),
       pendings := if e.push.Some? then s.pendings.Add(e.push.value.kind.handle, e.push.value.pending) else s.pendings)
  }

  function Absorb(s: SyncState, e: Effect): SyncState {
    var t := AbsorbWrites(s, e);
    if e.push.Some? then t.(pushes := t.pushes + [e.push.value.kind]) else t
  }

  /** The writes gathered so far, closed by the checkpoint once nothing is left to push. */
  function Batch(s: SyncState): (SyncState, seq<WriteOp>) {
    if s.pushes == [] && s.nextCheckpoint.Some? then
      (s.(writes := [], nextCheckpoint := None), s.writes + [SetCheckpoint(s.collection, s.nextCheckpoint.value)])
    else (s.(writes := []), s.writes)
  }

  function Handles(changes: seq<ChangeKind>): (r: seq<Handle>)
    ensures |r| == |changes|
    ensures forall i :: 0 <= i < |r| ==> r[i] == changes[i].handle
  {
    seq(|changes|, i requires 0 <= i < |changes| => changes[i].handle)
  }

  function ChunkSize(s: SyncState): (n: nat)
    ensures n <= |s.pushes|
  {
    if |s.pushes| < PUSH_CHUNK then |s.pushes| else PUSH_CHUNK
  }

  /** The next chunk of pushes, or the write recording the last one. */
  function StepOn(s: SyncState): (SyncState, Step) {
    if s.pushes == [] then
      var (t, ops) := Batch(s.(phase := PendingWrite));
      (t, Yielded(WantsWrite(ops)))
    else
      var n := ChunkSize(s);
      (s.(pushes := s.pushes[n..], inFlight := Handles(s.pushes[..n]), phase := PendingPush),
       Yielded(WantsPush(s.pushes[..n])))
  }

  /** Merges candidates until the batch is full or the walk is over. */
  function MergeOn(s: SyncState): (SyncState, Step)
    requires s.merging.Some?
    decreases s.merging.value.join.Size()
  {
    var (next, moved) := NextCandidate(s.merging.value);
    if next.None? then StepOn(s.(merging := None, nextCheckpoint := Some(s.merging.value.checkpoint)))
    else
      var t := Absorb(s.(merging := Some(moved)), MergeOne(s.collection, s.opts, next.value));
      if |t.writes| >= WRITE_CHUNK then
        var (u, ops) := Batch(t.(phase := Merging));
        (u, Yielded(WantsWrite(ops)))
      else MergeOn(t)
  }

  function OpenMerge(s: SyncState, snapshot: Snapshot): SyncState {
    var vanished := (set h | h in snapshot.vanished);
    s.(local := [],
       merging := Some(Merge(Join(s.local, Normalise(snapshot.items)), vanished,
                             snapshot.complete, snapshot.checkpoint)))
  }

  /** An accepted create under its server-assigned handle: clean and based. */
  function PlacedRow(placeholder: Placement, h: Handle, revision: Option<Revision>): Placement {
    placeholder.(handle := h, status := Clean, origin := None,
                 base := Some(Base(placeholder.flags, revision, placeholder.body)))
  }

  /** An accepted content push: the base pins the pushed body, its flags left as they were. */
  function ContentRebasedRow(local: Placement, revision: Option<Revision>): Placement {
    var flags := local.BaseFlags();
    local.(status := if local.status == Tombstone then Tombstone
                     else if local.flags == flags then Clean else Dirty,
           base := Some(Base(flags, revision, local.body)))
  }

  function CreateWrites(coll: CollectionId, placeholder: Placement, r: PushResult): seq<WriteOp> {
    [DropPlacement(coll, placeholder.handle, Superseded)] +
    (if r.assignedHandle.Some?
     then [UpsertPlacement(PlacedRow(placeholder, r.assignedHandle.value, r.revision))]
     else [])
  }

  /** What recording push results does to the run. */
  datatype Recorded = Recorded(pendings: Pendings, writes: seq<WriteOp>, events: seq<Event>, pushed: nat, rejected: nat)

  function FlagOps(p: Pendings, h: Handle): seq<WriteOp> {
    if h in p.flags then [UpsertPlacement(RebasedRow(p.flags[h], p.flags[h].flags))] else []
  }

  function FlagEvents(p: Pendings, h: Handle): seq<Event> {
    if h in p.flags then [FlagsChanged(h)] else []
  }

  function ContentOps(p: Pendings, r: PushResult): seq<WriteOp> {
    if r.handle in p.content then [UpsertPlacement(ContentRebasedRow(p.content[r.handle], r.revision))] else []
  }

  function ContentEvents(p: Pendings, h: Handle): seq<Event> {
    if h in p.content then [ContentChanged(h)] else []
  }

  function DropOps(coll: CollectionId, p: Pendings, h: Handle): seq<WriteOp> {
    if h in p.drops then [DropPlacement(coll, h, Deleted)] else []
  }

  function DropEvents(p: Pendings, h: Handle): seq<Event> {
    if h in p.drops then [Vanished(h)] else []
  }

  function CreateOps(coll: CollectionId, p: Pendings, r: PushResult): seq<WriteOp> {
    if r.handle in p.creates then CreateWrites(coll, p.creates[r.handle], r) else []
  }

  function CreateEvents(p: Pendings, r: PushResult): seq<Event> {
    if r.handle in p.creates
    then [CreatedEvent(if r.assignedHandle.Some? then r.assignedHandle.value else r.handle)]
    else []
  }

  /** One accepted result: every map is asked, whichever holds the handle is settled. */
  function RecordAccepted(coll: CollectionId, p: Pendings, r: PushResult): Recorded {
    Recorded(p.Forget({r.handle}),
             FlagOps(p, r.handle) + ContentOps(p, r) + DropOps(coll, p, r.handle) + CreateOps(coll, p, r),
             FlagEvents(p, r.handle) + ContentEvents(p, r.handle) + DropEvents(p, r.handle) + CreateEvents(p, r),
             if r.handle in p.Domain() then 1 else 0, 0)
  }

  function RecordOne(coll: CollectionId, p: Pendings, r: PushResult): Recorded {
    if r.outcome == Accepted then RecordAccepted(coll, p, r) else Recorded(p, [], [], 0, 1)
  }

  function RecordAll(coll: CollectionId, p: Pendings, results: seq<PushResult>): Recorded
    decreases |results|
  {
    if results == [] then Recorded(p, [], [], 0, 0)
    else
      var first := RecordOne(coll, p, results[0]);
      var rest := RecordAll(coll, first.pendings, results[1..]);
      Recorded(rest.pendings, first.writes + rest.writes, first.events + rest.events,
               first.pushed + rest.pushed, first.rejected + rest.rejected)
  }

  function AbsorbRecorded(s: SyncState, r: Recorded): SyncState {
    s.(pendings := r.pendings,
       writes := s.writes + r.writes,
       report := s.report.(pushed := s.report.pushed + r.pushed,
                           rejected := s.report.rejected + r.rejected,
                           events := s.report.events + r.events))
  }

  /** Records a chunk's outcomes and forgets what it never reported on. */
  function RecordChunk(s: SyncState, results: seq<PushResult>): SyncState {
    var t := AbsorbRecorded(s, RecordAll(s.collection, s.pendings, results));
    t.(pendings := t.pendings.Forget((set h | h in t.inFlight)), inFlight := [])
  }

  /** Whether the merge the machine is about to continue exists. */
  predicate Resumable(s: SyncState) {
    s.phase == Merging ==> s.merging.Some?
  }

  /** One resumption. An argument the pending request did not ask for changes nothing. */
  function Resume(s: SyncState, arg: Option<Arg>): (SyncState, Step)
    requires Resumable(s)
  {
    if arg.None? then
      if s.phase == Start then (s.(phase := PendingLoad), Yielded(WantsLoad))
      else (s, Failed(MissingArg))
    else if s.phase == PendingLoad && arg.value.LoadArg? then
      var cursor := if s.opts.full then None else arg.value.checkpoint;
      (s.(local := Collect(arg.value.placements), checkpoint := cursor, phase := PendingEnumerate),
       Yielded(WantsEnumerate(cursor)))
    else if s.phase == PendingEnumerate && arg.value.EnumerateArg? then
      MergeOn(OpenMerge(s, arg.value.snapshot))
    else if s.phase == Merging && arg.value.WriteArg? then
      MergeOn(s)
    else if s.phase == PendingPush && arg.value.PushArg? then
      var (t, ops) := Batch(RecordChunk(s, arg.value.results).(phase := PendingWrite));
      (t, Yielded(WantsWrite(ops)))
    else if s.phase == PendingWrite && arg.value.WriteArg? then
      if s.pushes != [] then StepOn(s)
      else (s.(phase := Done, report := EMPTY_REPORT), Complete(s.report))
    else (s, Failed(UnexpectedArg))
  }
}

/** The sync coroutine as it runs: an object whose fields every step updates in place.
  *
  * Each method is held to the value machine's function of the same name, over the
  * value `State()` reads off the fields.
  */
module Sync {
  import opened Wrappers
  import opened Placement
  import opened Change
  import opened Remote
  import opened Join
  import opened JoinLaws
  import opened MergeRules
  import opened SyncMachine
  import opened SyncInvariants

  class ReplicaSync {
    const collection: CollectionId
    const opts: Options
    var local: seq<Placement>
    var checkpoint: Option<Checkpoint>
    var merging: Option<Merge>
    var writes: seq<WriteOp>
    var pushes: seq<ChangeKind>
    var inFlight: seq<Handle>
    var nextCheckpoint: Option<Checkpoint>
    var pendingFlagPushes: map<Handle, Placement>
    var pendingContentPushes: map<Handle, Placement>
    var pendingDrops: set<Handle>
    var pendingCreates: map<Handle, Placement>
    var report: Report
    var phase: Phase

    function State(): SyncState
      reads this
    {
      SyncState(collection, opts, local, checkpoint, merging, writes, pushes, inFlight, nextCheckpoint,
                Pendings(pendingFlagPushes, pendingContentPushes, pendingDrops, pendingCreates), report, phase)
    }

    constructor (coll: CollectionId, options: Options)
      ensures State() == NewSync(coll, options)
      ensures Valid(State())
    {
      collection, opts := coll, options;
      local, checkpoint, merging := [], None, None;
      writes, pushes, inFlight, nextCheckpoint := [], [], [], None;
      pendingFlagPushes, pendingContentPushes, pendingDrops, pendingCreates := map[], map[], {}, map[];
      report, phase := EMPTY_REPORT, Start;
      new;
      hide Valid;
      NewIsValid(coll, options);
      assert State() == NewSync(coll, options);
    }

    method Emit(event: Event)
      modifies this`report
      ensures report == old(report).(events := old(report.events) + [event])
    {
      report := report.(events := report.events + [event]);
    }

    method Upsert(row: Placement)
      modifies this`writes
      ensures writes == old(writes) + [UpsertPlacement(row)]
    {
      writes := writes + [UpsertPlacement(row)];
    }

    method Drop(h: Handle, reason: DropReason)
      modifies this`writes
      ensures writes == old(writes) + [DropPlacement(collection, h, reason)]
    {
      writes := writes + [DropPlacement(collection, h, reason)];
    }

    method PullAdd(item: RemoteItem)
      modifies this`writes, this`report
      ensures State() == AbsorbWrites(old(State()), MergeRules.PullAdd(collection, item))
    {
      Upsert(PulledRow(collection, item));
      report := report.(pulled := report.pulled + 1);
      Emit(AddedEvent(item.handle));
    }

    method PullContent(row: Placement, item: RemoteItem) returns (outcome: ContentOutcome)
      modifies this`writes, this`report
      ensures State() == AbsorbWrites(old(State()), MergeRules.PullContent(row, item).0)
      ensures outcome == MergeRules.PullContent(row, item).1
    {
      var updated := row.(body := None, level := Probed);
      if updated.base.Some? {
        updated := updated.(base := Some(updated.base.value.(revision := item.revision, body := None)));
      }
      Upsert(updated);
      report := report.(refreshed := report.refreshed + 1);
      Emit(ContentChanged(row.handle));
      outcome := Rewritten(updated);
    }

    method MarkConflict(row: Placement, item: RemoteItem) returns (outcome: ContentOutcome)
      modifies this`writes, this`report
      ensures State() == AbsorbWrites(old(State()), MergeRules.MarkConflict(row, item).0)
      ensures outcome == MergeRules.MarkConflict(row, item).1
    {
      var conflicted := row.(status := Conflict, conflictRevision := item.revision, conflictObject := None);
      Upsert(conflicted);
      report := report.(conflicts := report.conflicts + 1);
      Emit(Conflicted(row.handle));
      outcome := Rewritten(conflicted);
    }

    /** Holds the row to rebase and names the update to push. */
    method DeriveUpdate(row: Placement, ifMatch: Option<Revision>) returns (kind: ChangeKind)
      requires row.body.Some?
      modifies this`pendingContentPushes
      ensures State() == AbsorbWrites(old(State()), PushUpdate(row, ifMatch))
      ensures kind == PushUpdate(row, ifMatch).push.value.kind
    {
      pendingContentPushes := pendingContentPushes[row.handle := row];
      kind := Update(row.handle, row.body.value, ifMatch);
    }

    method ResolveConflict(row: Placement, item: RemoteItem) returns (outcome: ContentOutcome, kind: Option<ChangeKind>)
      requires row.body.Some?
      modifies this`writes, this`report, this`pendingContentPushes
      ensures var (e, o) := MergeRules.ResolveConflict(collection, opts, row, item);
              && State() == AbsorbWrites(old(State()), e)
              && outcome == o
              && kind == (if e.push.Some? then Some(e.push.value.kind) else None)
    {
      kind := None;
      match opts.conflict {
        case Manual => outcome := MarkConflict(row, item);
        case PreferRemote => outcome := PullContent(row, item);
        case PreferLocal =>
          if opts.MayContent() {
            var update := DeriveUpdate(row, item.revision);
            kind, outcome := Some(update), Pushed;
          } else {
            outcome := MarkConflict(row, item);
          }
        case KeepBoth =>
          ghost var before := State();
          Upsert(DupRow(collection, row, row.body.value));
          outcome := PullContent(row, item);
          assert writes == before.writes + ([UpsertPlacement(DupRow(collection, row, row.body.value))]
                                            + MergeRules.PullContent(row, item).0.writes);
      }
    }

    method ReconcileContent(row: Placement, item: RemoteItem)
      returns (outcome: ContentOutcome, kind: Option<ChangeKind>)
      modifies this`writes, this`report, this`pendingContentPushes
      ensures var (e, o) := MergeRules.ReconcileContent(collection, opts, row, item);
              && State() == AbsorbWrites(old(State()), e)
              && outcome == o
              && kind == (if e.push.Some? then Some(e.push.value.kind) else None)
    {
      outcome, kind := Untouched, None;
      if row.base.None? {
        if row.body.Some? && item.revision.Some? {
          outcome := MarkConflict(row, item);
        }
        return;
      }
      if row.status == Conflict {
        if item.revision.Some? && item.revision != row.conflictRevision {
          var updated := row.(conflictRevision := item.revision, conflictObject := None);
          Upsert(updated);
          outcome := Rewritten(updated);
        }
        return;
      }
      var base := row.base.value;
      var localChanged := row.status == Dirty && row.body.Some? && row.body != base.body;
      var remoteChanged := item.revision.Some? && item.revision != base.revision;
      if localChanged && remoteChanged {
        outcome, kind := ResolveConflict(row, item);
      } else if remoteChanged {
        outcome := PullContent(row, item);
      } else if localChanged && opts.MayContent() {
        var update := DeriveUpdate(row, base.revision);
        outcome, kind := Pushed, Some(update);
      }
    }

    method PullFlags(row: Placement, flags: Flags)
      modifies this`writes, this`report
      ensures State() == AbsorbWrites(old(State()), MergeRules.PullFlags(row, flags))
    {
      var updated := row.(flags := flags);
      if updated.status != Conflict {
        updated := updated.(status := Clean);
      }
      updated := updated.(base := Some(Base(flags, row.BaseRevision(), row.BaseBody())));
      Upsert(updated);
      report := report.(pulled := report.pulled + 1);
      Emit(FlagsChanged(row.handle));
    }

    method Rebase(row: Placement, flags: Flags)
      modifies this`writes
      ensures writes == old(writes) + [UpsertPlacement(RebasedRow(row, flags))]
    {
      var updated := row;
      if updated.status != Conflict {
        updated := updated.(status := Clean);
      }
      updated := updated.(base := Some(Base(flags, row.BaseRevision(), row.BaseBody())));
      Upsert(updated);
    }

    method ReconcileFlags(row: Placement, item: RemoteItem, allow: PushFlags) returns (kind: Option<ChangeKind>)
      modifies this`writes, this`report, this`pendingFlagPushes
      ensures var e := MergeRules.ReconcileFlags(opts, row, item, allow);
              && State() == AbsorbWrites(old(State()), e)
              && kind == (if e.push.Some? then Some(e.push.value.kind) else None)
    {
      hide MergeFlags;
      kind := None;
      if row.base.None? {
        PullFlags(row, item.flags);
        return;
      }
      var base := row.base.value;
      var merged := MergeFlags(base.flags, row.flags, item.flags);
      var pull := merged != row.flags;
      var push := merged != item.flags;
      if !pull && !push {
        var contentEdit := row.body.Some? && base.body != row.body;
        if row.flags != base.flags || (row.status == Dirty && !contentEdit) {
          Rebase(row, merged);
        }
      } else if !push {
        PullFlags(row, merged);
      } else {
        var updated := row.(flags := merged);
        if pull {
          Upsert(updated);
          report := report.(pulled := report.pulled + 1);
          Emit(FlagsChanged(row.handle));
        }
        if allow == Withhold || !opts.MayFlags() {
          return;
        }
        pendingFlagPushes := pendingFlagPushes[row.handle := updated];
        kind := Some(SetFlags(row.handle, merged));
      }
    }

    /** Derives nothing: a delete this source will not take is undone, or held as it is. */
    method RefuseDelete(row: Placement)
      modifies this`writes
      ensures writes == old(writes) + MergeRules.RefuseDelete(opts, row).writes
    {
      match opts.delete {
        case Revert => Upsert(row.(status := Clean));
        case Keep =>
      }
    }

    method MergeTombstone(row: Placement, item: RemoteItem) returns (kind: Option<ChangeKind>)
      requires row.base.Some?
      modifies this`writes, this`report, this`pendingContentPushes, this`pendingDrops
      ensures var e := MergeRules.MergeTombstone(collection, opts, row, item);
              && State() == AbsorbWrites(old(State()), e)
              && kind == (if e.push.Some? then Some(e.push.value.kind) else None)
    {
      kind := None;
      var baseRevision := row.BaseRevision();
      if item.revision.Some? && item.revision != baseRevision {
        PullAdd(item);
      } else if row.StagedEdit().Some? && row.origin.Some? {
        if !opts.MayContent() {
          RefuseDelete(row);
        } else {
          var update := DeriveUpdate(row, baseRevision);
          kind := Some(update);
        }
      } else if !opts.MayRemove() {
        RefuseDelete(row);
      } else {
        pendingDrops := pendingDrops + {row.handle};
        var to := if row.origin.Some? then Some(row.origin.value.collection) else None;
        kind := Some(Remove(row.handle, to, row.linkId, baseRevision));
      }
    }

    method MergeRemoteDelete(row: Placement) returns (kind: Option<ChangeKind>)
      requires row.base.Some?
      modifies this`writes, this`report, this`pendingCreates
      ensures var e := MergeRules.MergeRemoteDelete(collection, opts, row);
              && State() == AbsorbWrites(old(State()), e)
              && kind == (if e.push.Some? then Some(e.push.value.kind) else None)
    {
      kind := None;
      if Edited(row) {
        var resurrected := ResurrectedRow(row);
        Upsert(resurrected);
        if !opts.MayAdd() {
          return;
        }
        kind := Some(Add(row.handle, resurrected.linkId, resurrected.flags, None, resurrected.body));
        pendingCreates := pendingCreates[row.handle := resurrected];
      } else {
        Drop(row.handle, Deleted);
        report := report.(pulled := report.pulled + 1);
        Emit(Vanished(row.handle));
      }
    }

    /** Three-way merges one candidate, returning the change the local side won, if any. */
    method MergeCandidate(c: Candidate) returns (kind: Option<ChangeKind>)
      requires Paired(c)
      modifies this`writes, this`report, this`pendingFlagPushes, this`pendingContentPushes,
               this`pendingDrops, this`pendingCreates
      ensures var e := MergeOne(collection, opts, c);
              && State() == AbsorbWrites(old(State()), e)
              && kind == (if e.push.Some? then Some(e.push.value.kind) else None)
    {
      kind := None;
      match c {
        case Candidate(_, None, None) =>
        case Candidate(_, None, Some(item)) => PullAdd(item);
        case Candidate(h, Some(row), None) =>
          if row.status == Tombstone {
            Drop(h, Deleted);
          } else if row.base.Some? {
            kind := MergeRemoteDelete(row);
          } else if opts.MayAdd() && row.status == Created {
            kind := Some(Add(h, row.linkId, row.flags, row.origin, row.body));
            pendingCreates := pendingCreates[h := row];
          }
        case Candidate(_, Some(row), Some(item)) =>
          if row.status == Tombstone {
            if row.base.Some? {
              kind := MergeTombstone(row, item);
            } else {
              PullAdd(item);
            }
          } else {
            kind := MergeBothSides(row, item);
          }
      }
    }

    method MergeBothSides(row: Placement, item: RemoteItem) returns (kind: Option<ChangeKind>)
      modifies this`writes, this`report, this`pendingFlagPushes, this`pendingContentPushes
      ensures var e := MergeBoth(collection, opts, row, item);
              && State() == AbsorbWrites(old(State()), e)
              && kind == (if e.push.Some? then Some(e.push.value.kind) else None)
    {
      ghost var before := State();
      ContentShape(collection, opts, row, item);
      var outcome, change := ReconcileContent(row, item);
      ghost var content := MergeRules.ReconcileContent(collection, opts, row, item).0;
      match outcome {
        case Pushed =>
          FlagsShape(opts, row, item, Withhold);
          var _ := ReconcileFlags(row, item, Withhold);
          kind := change;
          AbsorbsInTurn(before, content, MergeRules.ReconcileFlags(opts, row, item, Withhold));
        case Rewritten(rewritten) =>
          kind := ReconcileFlags(rewritten, item, Derive);
          AbsorbsInTurn(before, content, MergeRules.ReconcileFlags(opts, rewritten, item, Derive));
        case Untouched =>
          kind := ReconcileFlags(row, item, Derive);
          AbsorbsInTurn(before, content, MergeRules.ReconcileFlags(opts, row, item, Derive));
      }
    }

    /** The next handle to merge: a delta's untouched handles are walked past. */
    method NextMergeable() returns (next: Option<Candidate>)
      requires merging.Some?
      modifies this`merging
      ensures merging == Some(NextCandidate(old(merging.value)).1)
      ensures next == NextCandidate(old(merging.value)).0
    {
      var merge := merging.value;
      while true
        invariant NextCandidate(merge) == NextCandidate(old(merging.value))
        decreases merge.join.Size()
      {
        var (candidate, rest) := Next(merge.join);
        if candidate.None? {
          merging := Some(merge);
          return None;
        }
        var narrowed := if merge.complete then candidate else Narrow(merge, candidate.value);
        merge := merge.(join := rest);
        if narrowed.Some? {
          merging := Some(merge);
          return narrowed;
        }
      }
    }

    method TakeBatch() returns (ops: seq<WriteOp>)
      modifies this`writes, this`nextCheckpoint
      ensures (State(), ops) == Batch(old(State()))
    {
      ops := writes;
      writes := [];
      if pushes == [] && nextCheckpoint.Some? {
        ops := ops + [SetCheckpoint(collection, nextCheckpoint.value)];
        nextCheckpoint := None;
      }
    }

    method Advance() returns (step: Step)
      modifies this`writes, this`nextCheckpoint, this`pushes, this`inFlight, this`phase
      ensures (State(), step) == StepOn(old(State()))
    {
      if pushes == [] {
        phase := PendingWrite;
        var ops := TakeBatch();
        return Yielded(WantsWrite(ops));
      }
      var size := if |pushes| < PUSH_CHUNK then |pushes| else PUSH_CHUNK;
      var changes := pushes[..size];
      pushes := pushes[size..];
      inFlight := Handles(changes);
      phase := PendingPush;
      return Yielded(WantsPush(changes));
    }

    /** Merges one candidate, queueing the change it derives. */
    method TakeCandidate(c: Candidate)
      requires Paired(c)
      modifies this`writes, this`report, this`pushes, this`pendingFlagPushes, this`pendingContentPushes,
               this`pendingDrops, this`pendingCreates
      ensures State() == Absorb(old(State()), MergeOne(collection, opts, c))
    {
      hide MergeOne;
      var kind := MergeCandidate(c);
      if kind.Some? {
        pushes := pushes + [kind.value];
      }
    }

    /** Merges candidates until the batch is full, or until the walk runs out and the run
      * moves on to its pushes. The merge in progress always exists here. */
    method MergeStep() returns (step: Step)
      requires merging.Some? && Walkable(merging.value.join)
      modifies this
      ensures (State(), step) == MergeOn(old(State()))
    {
      hide MergeOne, Absorb;
      while true
        invariant merging.Some? && Walkable(merging.value.join)
        invariant MergeOn(State()) == MergeOn(old(State()))
        decreases merging.value.join.Size()
      {
        NextCandidateIsPaired(merging.value);
        var next := NextMergeable();
        if next.None? {
          nextCheckpoint := Some(merging.value.checkpoint);
          merging := None;
          step := Advance();
          return;
        }
        TakeCandidate(next.value);
        if |writes| >= WRITE_CHUNK {
          phase := Merging;
          var ops := TakeBatch();
          return Yielded(WantsWrite(ops));
        }
      }
    }

    method OpenMerge(snapshot: Snapshot)
      modifies this`local, this`merging
      ensures State() == SyncMachine.OpenMerge(old(State()), snapshot)
    {
      var items := Normalise(snapshot.items);
      var vanished := set h | h in snapshot.vanished;
      merging := Some(Merge(Join(local, items), vanished, snapshot.complete, snapshot.checkpoint));
      local := [];
    }

    method RekeyCreate(placeholder: Placement, h: Handle, revision: Option<Revision>)
      modifies this`writes
      ensures writes == old(writes) + [DropPlacement(collection, placeholder.handle, Superseded),
                                       UpsertPlacement(PlacedRow(placeholder, h, revision))]
    {
      Drop(placeholder.handle, Superseded);
      var placed := placeholder.(handle := h, status := Clean, origin := None);
      Upsert(placed.(base := Some(Base(placed.flags, revision, placed.body))));
    }

    method RebaseContent(row: Placement, revision: Option<Revision>)
      modifies this`writes
      ensures writes == old(writes) + [UpsertPlacement(ContentRebasedRow(row, revision))]
    {
      var flags := if row.base.Some? then row.base.value.flags else NO_FLAGS;
      var status := if row.status == Tombstone then Tombstone else if row.flags == flags then Clean else Dirty;
      Upsert(row.(status := status, base := Some(Base(flags, revision, row.body))));
    }

    method SettleFlagPush(h: Handle) returns (matched: bool)
      modifies this`writes, this`report
      ensures matched == (h in pendingFlagPushes)
      ensures writes == old(writes) + FlagOps(State().pendings, h)
      ensures report == old(report).(events := old(report.events) + FlagEvents(State().pendings, h))
    {
      matched := h in pendingFlagPushes;
      if matched {
        Rebase(pendingFlagPushes[h], pendingFlagPushes[h].flags);
        Emit(FlagsChanged(h));
      }
    }

    method SettleContentPush(r: PushResult) returns (matched: bool)
      modifies this`writes, this`report
      ensures matched == (r.handle in pendingContentPushes)
      ensures writes == old(writes) + ContentOps(State().pendings, r)
      ensures report == old(report).(events := old(report.events) + ContentEvents(State().pendings, r.handle))
    {
      matched := r.handle in pendingContentPushes;
      if matched {
        RebaseContent(pendingContentPushes[r.handle], r.revision);
        Emit(ContentChanged(r.handle));
      }
    }

    method SettleDrop(h: Handle) returns (matched: bool)
      modifies this`writes, this`report
      ensures matched == (h in pendingDrops)
      ensures writes == old(writes) + DropOps(collection, State().pendings, h)
      ensures report == old(report).(events := old(report.events) + DropEvents(State().pendings, h))
    {
      matched := h in pendingDrops;
      if matched {
        Drop(h, Deleted);
        Emit(Vanished(h));
      }
    }

    method SettleCreate(r: PushResult) returns (matched: bool)
      modifies this`writes, this`report
      ensures matched == (r.handle in pendingCreates)
      ensures writes == old(writes) + CreateOps(collection, State().pendings, r)
      ensures report == old(report).(events := old(report.events) + CreateEvents(State().pendings, r))
    {
      matched := r.handle in pendingCreates;
      if matched {
        var placeholder := pendingCreates[r.handle];
        if r.assignedHandle.Some? {
          RekeyCreate(placeholder, r.assignedHandle.value, r.revision);
          Emit(CreatedEvent(r.assignedHandle.value));
        } else {
          Drop(placeholder.handle, Superseded);
          Emit(CreatedEvent(r.handle));
        }
      }
    }

    /** Settles whichever pending map holds the handle, and counts the push once. */
    method RecordAcceptance(r: PushResult)
      requires r.outcome == Accepted
      modifies this`writes, this`report, this`pendingFlagPushes, this`pendingContentPushes,
               this`pendingDrops, this`pendingCreates
      ensures State() == AbsorbRecorded(old(State()), RecordOne(collection, old(State().pendings), r))
    {
      hide FlagOps, ContentOps, DropOps, CreateOps, FlagEvents, ContentEvents, DropEvents, CreateEvents;
      var flagged := SettleFlagPush(r.handle);
      var updated := SettleContentPush(r);
      var dropped := SettleDrop(r.handle);
      var created := SettleCreate(r);
      Forget({r.handle});
      report := report.(pushed := report.pushed + if flagged || updated || dropped || created then 1 else 0);
      SettledInTurn(old(State()), r);
    }

    /** Records what a chunk's results settle, then forgets what they never reported on. */
    method RecordResults(results: seq<PushResult>)
      modifies this`writes, this`report, this`inFlight, this`pendingFlagPushes, this`pendingContentPushes,
               this`pendingDrops, this`pendingCreates
      ensures State() == RecordChunk(old(State()), results)
    {
      hide RecordOne;
      ghost var whole := AbsorbRecorded(State(), RecordAll(collection, State().pendings, results));
      assert results[0..] == results;
      for i := 0 to |results|
        invariant AbsorbRecorded(State(), RecordAll(collection, State().pendings, results[i..])) == whole
        invariant inFlight == old(inFlight)
      {
        RecordsInTurn(State(), results[i..]);
        assert results[i..][1..] == results[i + 1..];
        if results[i].outcome == Accepted {
          RecordAcceptance(results[i]);
        } else {
          RejectionOnlyCounts(State(), results[i]);
          report := report.(rejected := report.rejected + 1);
        }
      }
      Forget(set h | h in inFlight);
      inFlight := [];
    }

    /** Nothing waits on these handles any more. */
    method Forget(hs: set<Handle>)
      modifies this`pendingFlagPushes, this`pendingContentPushes, this`pendingDrops, this`pendingCreates
      ensures State() == old(State()).(pendings := old(State()).pendings.Forget(hs))
    {
      pendingFlagPushes := pendingFlagPushes - hs;
      pendingContentPushes := pendingContentPushes - hs;
      pendingDrops := pendingDrops - hs;
      pendingCreates := pendingCreates - hs;
    }

    /** Advances the run by one step. Nothing here depends on the driver keeping its side of
      * the contract: any argument is taken in any state. */
    method Resume(arg: Option<Arg>) returns (step: Step)
      requires Valid(State())
      modifies this
      ensures (State(), step) == SyncMachine.Resume(old(State()), arg)
      ensures Valid(State())
    {
      hide Bookkept;
      ResumeKeeps(State(), arg);
      match (phase, arg) {
        case (Start, None) =>
          phase := PendingLoad;
          step := Yielded(WantsLoad);
        case (PendingLoad, Some(LoadArg(placements, loaded))) =>
          local := Collect(placements);
          checkpoint := if opts.full then None else loaded;
          phase := PendingEnumerate;
          step := Yielded(WantsEnumerate(checkpoint));
        case (PendingEnumerate, Some(EnumerateArg(snapshot))) =>
          OpensWalkable(State(), snapshot);
          OpenMerge(snapshot);
          step := MergeStep();
        case (Merging, Some(WriteArg)) =>
          MergesWalkable(State());
          step := MergeStep();
        case (PendingPush, Some(PushArg(results))) =>
          RecordResults(results);
          phase := PendingWrite;
          var ops := TakeBatch();
          step := Yielded(WantsWrite(ops));
        case (PendingWrite, Some(WriteArg)) =>
          if pushes != [] {
            step := Advance();
          } else {
            phase := Done;
            step := Complete(report);
            report := EMPTY_REPORT;
          }
        case (_, Some(_)) => step := Failed(UnexpectedArg);
        case (_, None) => step := Failed(MissingArg);
      }
    }
  }

  lemma OpensWalkable(s: SyncState, snapshot: Snapshot)
    requires Valid(s) && s.phase == PendingEnumerate
    ensures Walkable(SyncMachine.OpenMerge(s, snapshot).merging.value.join)
  {
    NormaliseIsOrderedMap(snapshot.items, Handle([]));
  }

  lemma MergesWalkable(s: SyncState)
    requires Valid(s) && s.phase == Merging
    ensures s.merging.Some? && Walkable(s.merging.value.join)
  {
  }

  /** Absorbing two effects in turn is absorbing their sequence. */
  lemma AbsorbsInTurn(s: SyncState, a: Effect, b: Effect)
    requires a.push.None? || b.push.None?
    ensures AbsorbWrites(AbsorbWrites(s, a), b) == AbsorbWrites(s, a.Then(b))
  {
    assert s.writes + a.writes + b.writes == s.writes + (a.writes + b.writes);
    assert s.report.events + a.events + b.events == s.report.events + (a.events + b.events);
  }

  /** A refused push leaves its row as it was, for the next run to derive it again. */
  lemma RejectionOnlyCounts(s: SyncState, r: PushResult)
    requires r.outcome == Rejected
    ensures AbsorbRecorded(s, RecordOne(s.collection, s.pendings, r))
            == s.(report := s.report.(rejected := s.report.rejected + 1))
  {
    assert s.writes + [] == s.writes && s.report.events + [] == s.report.events;
  }

  /** The four maps settled one after another are one recording. */
  lemma SettledInTurn(s: SyncState, r: PushResult)
    ensures var p := s.pendings;
            var h := r.handle;
            && s.writes + FlagOps(p, h) + ContentOps(p, r) + DropOps(s.collection, p, h) + CreateOps(s.collection, p, r)
               == s.writes + RecordAccepted(s.collection, p, r).writes
            && s.report.events + FlagEvents(p, h) + ContentEvents(p, h) + DropEvents(p, h) + CreateEvents(p, r)
               == s.report.events + RecordAccepted(s.collection, p, r).events
  {
    hide FlagOps, ContentOps, DropOps, CreateOps, FlagEvents, ContentEvents, DropEvents, CreateEvents;
  }

  lemma RecordsInTurn(s: SyncState, results: seq<PushResult>)
    requires results != []
    ensures var t := AbsorbRecorded(s, RecordOne(s.collection, s.pendings, results[0]));
            AbsorbRecorded(t, RecordAll(s.collection, t.pendings, results[1..]))
            == AbsorbRecorded(s, RecordAll(s.collection, s.pendings, results))
  {
    hide RecordOne;
    var first := RecordOne(s.collection, s.pendings, results[0]);
    var rest := RecordAll(s.collection, first.pendings, results[1..]);
    assert s.writes + first.writes + rest.writes == s.writes + (first.writes + rest.writes);
    assert s.report.events + first.events + rest.events == s.report.events + (first.events + rest.events);
  }
}

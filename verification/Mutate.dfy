/** Local edits staged offline: what each mutation writes for the next sync to reconcile. */
module Mutate {
  import opened Wrappers
  import opened Text
  import opened Placement
  import opened Change

  datatype Mutation =
    | MarkFlags(handle: Handle, flags: Flags)
    | Discard(handle: Handle)
    | Edit(handle: Handle, stored: StoredObject, bytes: seq<Byte>, meta: Option<Meta>, sortKey: Option<SortKey>)
    | Copy(handle: Handle, target: CollectionId, placeholder: Handle)
    | Move(handle: Handle, target: CollectionId, placeholder: Handle)
    | Compose(placeholder: Handle, link: LinkId, flags: Flags, stored: StoredObject, bytes: seq<Byte>,
              meta: Option<Meta>, key: SortKey)

  datatype Scope = Links(link: LinkId) | Handles(handle: Handle)

  /** What a mutation reads: the row it edits, or the holders of the identity a create must not take. */
  function ScopeOf(mutation: Mutation): Scope {
    if mutation.Compose? then Links(mutation.link) else Handles(mutation.handle)
  }

  function FlaggedRow(source: Placement, flags: Flags): Placement {
    source.(flags := flags, status := if source.status == Clean then Dirty else source.status)
  }

  /** The base an edit leaves: a resolution adopts the remote state it was merged against. */
  function EditBase(source: Placement): Option<Base> {
    if source.status != Conflict then source.base
    else
      Some(Base(if source.base.Some? then source.base.value.flags else source.flags,
                source.conflictRevision, source.conflictObject))
  }

  /** The row an edit leaves. Restating the synced body stages nothing, a resolution always does. */
  function EditedRow(source: Placement, hash: Hash, meta: Option<Meta>, sortKey: Option<SortKey>): Placement {
    var base := EditBase(source);
    var staged := base.None? || base.value.body != Some(hash);
    source.(
      body := Some(hash), level := Full,
      meta := if meta.Some? then meta else source.meta,
      sortKey := if sortKey.Some? then sortKey.value else source.sortKey,
      base := base,
      conflictRevision := if source.status == Conflict then None else source.conflictRevision,
      conflictObject := if source.status == Conflict then None else source.conflictObject,
      status := if source.status == Conflict || (source.status != Created && staged) then Dirty else source.status)
  }

  /** The create a copy or a move stages in its target. */
  function StagedCopy(source: Placement, target: CollectionId, placeholder: Handle): Placement {
    Placement(target, placeholder, source.linkId, source.body, source.level, source.meta, source.sortKey, source.flags,
              Created, None, None, None, Some(Origin(source.collection, source.handle)))
  }

  /** The tombstone a move leaves, remembering where it goes. */
  function MovedRow(source: Placement, target: CollectionId): Placement {
    source.(status := Tombstone, origin := Some(Origin(target, source.handle)))
  }

  function ComposedRow(coll: CollectionId, mutation: Mutation): Placement
    requires mutation.Compose?
  {
    Placement(coll, mutation.placeholder, Some(mutation.link), Some(mutation.stored.hash), Full, mutation.meta,
              mutation.key, mutation.flags, Created, None, None, None, None)
  }

  /** The writes of a mutation of an existing row. */
  function StagedOps(mutation: Mutation, source: Placement): seq<WriteOp>
    requires !mutation.Compose?
  {
    match mutation
    case MarkFlags(_, flags) => [UpsertPlacement(FlaggedRow(source, flags))]
    case Discard(_) => [UpsertPlacement(source.(status := Tombstone))]
    case Edit(_, stored, bytes, meta, sortKey) =>
      [StoreObject(stored, Some(bytes)), UpsertPlacement(EditedRow(source, stored.hash, meta, sortKey))]
    case Copy(_, target, placeholder) => [UpsertPlacement(StagedCopy(source, target, placeholder))]
    case Move(_, target, placeholder) =>
      (if source.linkId.Some? then [UpsertPlacement(StagedCopy(source, target, placeholder))] else [])
      + [UpsertPlacement(MovedRow(source, target))]
  }

  function ComposedOps(coll: CollectionId, mutation: Mutation): seq<WriteOp>
    requires mutation.Compose?
  {
    [StoreObject(mutation.stored, Some(mutation.bytes)), UpsertPlacement(ComposedRow(coll, mutation))]
  }

  /** The first loaded row under the handle. */
  function Target(rows: seq<Placement>, h: Handle): (r: Option<Placement>)
    ensures r.Some? ==> r.value in rows && r.value.handle == h
    ensures r.None? ==> forall row :: row in rows ==> row.handle != h
  {
    if rows == [] then None else if rows[0].handle == h then Some(rows[0]) else Target(rows[1..], h)
  }

  /** A live row already holding the identity. */
  predicate Collides(rows: seq<Placement>, link: LinkId) {
    exists row :: row in rows && row.status != Tombstone && row.linkId == Some(link)
  }

  datatype MutatePhase = Start | PendingLoad | PendingWrite | Done

  datatype MutateError = UnknownHandle(handle: Handle) | LinkExists(link: LinkId) | BadArg

  datatype MutateArg = Loaded(rows: seq<Placement>) | Wrote

  datatype MutateStep = Load(scope: Scope) | Write(ops: seq<WriteOp>) | Complete | Failed(error: MutateError)

  predicate Expects(phase: MutatePhase, arg: Option<MutateArg>) {
    match phase
    case Start => arg.None?
    case PendingLoad => arg.Some? && arg.value.Loaded?
    case PendingWrite => arg == Some(Wrote)
    case Done => false
  }

  /** What a load is answered with. */
  function Staged(coll: CollectionId, mutation: Mutation, rows: seq<Placement>): MutateStep {
    if mutation.Compose? then
      if Collides(rows, mutation.link) then Failed(LinkExists(mutation.link)) else Write(ComposedOps(coll, mutation))
    else
      var target := Target(rows, mutation.handle);
      if target.None? then Failed(UnknownHandle(mutation.handle)) else Write(StagedOps(mutation, target.value))
  }

  class ReplicaMutate {
    const collection: CollectionId
    const mutation: Mutation
    var phase: MutatePhase

    constructor (collection: CollectionId, mutation: Mutation)
      ensures this.collection == collection && this.mutation == mutation && phase == Start
    {
      this.collection, this.mutation, phase := collection, mutation, Start;
    }

    /** Edits the loaded row field by field. */
    method Writes(loaded: Placement) returns (ops: seq<WriteOp>)
      requires !mutation.Compose?
      ensures ops == StagedOps(mutation, loaded)
    {
      var source := loaded;
      match mutation {
        case MarkFlags(_, flags) =>
          source := source.(flags := flags);
          if source.status == Clean { source := source.(status := Dirty); }
          ops := [UpsertPlacement(source)];
        case Discard(_) =>
          source := source.(status := Tombstone);
          ops := [UpsertPlacement(source)];
        case Edit(_, stored, bytes, meta, sortKey) =>
          source := source.(body := Some(stored.hash));
          source := source.(level := Full);
          if meta.Some? { source := source.(meta := meta); }
          if sortKey.Some? { source := source.(sortKey := sortKey.value); }
          var resolving := source.status == Conflict;
          if resolving {
            var revision, settled := source.conflictRevision, source.conflictObject;
            source := source.(conflictRevision := None);
            source := source.(conflictObject := None);
            var base := if source.base.Some? then source.base.value else Base(source.flags, None, None);
            base := base.(revision := revision);
            base := base.(body := settled);
            source := source.(base := Some(base));
          }
          var staged := source.base.None? || source.base.value.body != Some(stored.hash);
          if source.status != Created && (staged || resolving) {
            source := source.(status := Dirty);
          }
          ops := [StoreObject(stored, Some(bytes)), UpsertPlacement(source)];
        case Copy(_, target, placeholder) =>
          ops := [UpsertPlacement(StagedCopy(source, target, placeholder))];
        case Move(_, target, placeholder) =>
          ops := [];
          if source.linkId.Some? { ops := [UpsertPlacement(StagedCopy(source, target, placeholder))]; }
          source := source.(status := Tombstone);
          source := source.(origin := Some(Origin(target, source.handle)));
          ops := ops + [UpsertPlacement(source)];
      }
    }

    /** One resumption: load what the mutation reads, write what it stages, done. A load it cannot act
      * on ends in its error, and an argument nothing asked for changes nothing. */
    method Resume(arg: Option<MutateArg>) returns (step: MutateStep)
      modifies this
      ensures !Expects(old(phase), arg) ==> step == Failed(BadArg) && phase == old(phase)
      ensures old(phase) == Start && arg == None ==> step == Load(ScopeOf(mutation)) && phase == PendingLoad
      ensures old(phase) == PendingLoad && arg.Some? && arg.value.Loaded? ==>
                && step == Staged(collection, mutation, arg.value.rows)
                && phase == (if step.Write? then PendingWrite else PendingLoad)
      ensures old(phase) == PendingWrite && arg == Some(Wrote) ==> step == Complete && phase == Done
    {
      if !Expects(phase, arg) { return Failed(BadArg); }
      match phase {
        case Start =>
          phase, step := PendingLoad, Load(ScopeOf(mutation));
        case PendingLoad =>
          if mutation.Compose? {
            if Collides(arg.value.rows, mutation.link) { return Failed(LinkExists(mutation.link)); }
            phase, step := PendingWrite, Write(ComposedOps(collection, mutation));
          } else {
            var target := Target(arg.value.rows, mutation.handle);
            if target.None? { return Failed(UnknownHandle(mutation.handle)); }
            var ops := Writes(target.value);
            phase, step := PendingWrite, Write(ops);
          }
        case PendingWrite =>
          phase, step := Done, Complete;
      }
    }
  }
}

/** A mutation leaves the base alone, so the sync that follows derives the push it owes. */
module Staging {
  import opened Wrappers
  import opened Text
  import opened Placement
  import opened Change
  import opened Remote
  import opened Join
  import opened MergeRules
  import opened SyncMachine
  import opened Storage
  import opened Rounds
  import opened Mutate
  import FlagLaws

  /** A row agreeing with its base, and a remote still at it. */
  predicate ListedAsBased(row: Placement, listed: RemoteItem) {
    && row.status == Clean && row.base.Some? && row.origin.None? && row.conflictRevision.None?
    && row.flags == row.base.value.flags && row.body == row.base.value.body
    && listed == RemoteItem(row.handle, row.base.value.flags, row.base.value.revision)
  }

  /** A flag edit is pushed as the set it states, exactly when it changes anything. */
  lemma FlagEditIsDerived(coll: CollectionId, opts: Options, row: Placement, flags: Flags, listed: RemoteItem,
                          stamp: Option<Revision>)
    requires ListedAsBased(row, listed) && flags.Known? && opts.MayFlags()
    ensures RoundChange(coll, opts, FlaggedRow(row, flags), listed)
            == if flags == row.flags then None else Some(SetFlags(row.handle, flags))
  {
    FlagLaws.UnchangedSideYields(row.flags, flags);
    hide MergeFlags, RoundChange;
    FlagsOnlySync(coll, opts, FlaggedRow(row, flags), listed, stamp);
  }

  /** A body edit is pushed against the base's revision, exactly when it changes the body. */
  lemma BodyEditIsDerived(coll: CollectionId, opts: Options, row: Placement, hash: Hash, meta: Option<Meta>,
                          sortKey: Option<SortKey>, listed: RemoteItem, stamp: Option<Revision>)
    requires ListedAsBased(row, listed) && opts.MayContent() && opts.MayFlags()
    ensures RoundChange(coll, opts, EditedRow(row, hash, meta, sortKey), listed)
            == if Some(hash) == row.body then None else Some(Update(row.handle, hash, row.BaseRevision()))
  {
    var edited := EditedRow(row, hash, meta, sortKey);
    if Some(hash) == row.body {
      FlagLaws.UnchangedSideYields(row.flags, row.flags);
      hide MergeFlags, RoundChange;
      FlagsOnlySync(coll, opts, edited, listed, stamp);
    } else {
      assert ReconcileContent(coll, opts, edited, listed)
             == (PushUpdate(edited, row.BaseRevision()), ContentOutcome.Pushed);
      hide ReconcileContent, ReconcileFlags, MergeTombstone, MergeRemoteDelete, MergeLocalCreate, PullAdd;
    }
  }

  /** A discarded row is removed under its identity and its base's revision. */
  lemma DiscardIsDerived(coll: CollectionId, opts: Options, row: Placement, listed: RemoteItem)
    requires ListedAsBased(row, listed) && opts.MayRemove()
    ensures RoundChange(coll, opts, row.(status := Tombstone), listed)
            == Some(Remove(row.handle, None, row.linkId, row.BaseRevision()))
  {
    hide MergeBoth, MergeRemoteDelete, PullAdd, RefuseDelete, PushUpdate;
  }

  /** A delete a source will not take is undone whole, or waits: reverting gives back the very row that
    * was discarded, keeping writes nothing. */
  lemma RefusedDelete(coll: CollectionId, opts: Options, row: Placement, listed: RemoteItem, stamp: Option<Revision>)
    requires ListedAsBased(row, listed) && !opts.MayRemove()
    ensures var gone := row.(status := Tombstone);
            && RoundChange(coll, opts, gone, listed) == None
            && LeftRow(coll, opts, gone, listed, stamp) == Some(if opts.delete == Revert then row else gone)
  {
    var gone := row.(status := Tombstone);
    hide MergeBoth, MergeRemoteDelete, PullAdd, PushUpdate;
    var e := RoundEffect(coll, opts, gone, Some(listed));
    assert gone.(status := Clean) == row;
    assert e == (if opts.delete == Revert then Writing(row) else NOTHING);
    hide RoundEffect;
    assert RoundOps(coll, opts, gone, Some(listed), stamp) == e.writes;
    if opts.delete == Revert { ApplyOne(map[row.handle := gone], UpsertPlacement(row)); }
  }

  /** What an accepted add leaves of a staged create: its row under the assigned handle alone, based on
    * what was added. */
  lemma CreateIsDelivered(coll: CollectionId, opts: Options, row: Placement, given: Handle, stamp: Option<Revision>)
    requires opts.MayAdd() && row.status == Created && row.base.None? && row.collection == coll
    ensures var e := RoundEffect(coll, opts, row, None);
            && e.writes == [] && e.push.Some?
            && e.push.value.kind == Add(row.handle, row.linkId, row.flags, row.origin, row.body)
            && Apply(map[row.handle := row],
                     RecordOne(coll, NO_PENDINGS.Add(row.handle, e.push.value.pending),
                               PushResult(row.handle, Accepted, Some(given), stamp)).writes)
               == map[given := PlacedRow(row, given, stamp)]
  {
    var r := PushResult(row.handle, Accepted, Some(given), stamp);
    assert RoundEffect(coll, opts, row, None) == PushAdd(row);
    assert RecordOne(coll, NO_PENDINGS.Add(row.handle, CreatePush(row)), r).writes == CreateWrites(coll, row, r);
    hide RecordOne, RoundEffect;
    ApplyTwo(map[row.handle := row], DropPlacement(coll, row.handle, Superseded),
             UpsertPlacement(PlacedRow(row, given, stamp)));
  }

  /** Composing an item in an empty store stages one add of it, naming its identity, flags and body, if and
    * only if adding is allowed; accepted, it is all there is, clean and based on the composed body. */
  lemma ComposeIsDelivered(coll: CollectionId, opts: Options, mutation: Mutation, given: Handle,
                           stamp: Option<Revision>)
    requires mutation.Compose?
    ensures var row, hash := ComposedRow(coll, mutation), mutation.stored.hash;
            var e := RoundEffect(coll, opts, row, None);
            && Apply(map[], ComposedOps(coll, mutation)) == map[mutation.placeholder := row]
            && (e.push.Some? <==> opts.MayAdd())
            && (opts.MayAdd() ==>
                  && e.push.value.kind
                     == Add(mutation.placeholder, Some(mutation.link), mutation.flags, None, Some(hash))
                  && Delivered(coll, row, e.push.value, given, stamp))
  {
    var row := ComposedRow(coll, mutation);
    ApplyTwo(map[], StoreObject(mutation.stored, Some(mutation.bytes)), UpsertPlacement(row));
    if opts.MayAdd() { CreateIsDelivered(coll, opts, row, given, stamp); }
  }

  /** A copy is added likewise, from where its source lives: the same identity, flags and body. */
  lemma CopyIsDelivered(target: CollectionId, opts: Options, source: Placement, placeholder: Handle, given: Handle,
                        stamp: Option<Revision>)
    ensures var row := StagedCopy(source, target, placeholder);
            var e := RoundEffect(target, opts, row, None);
            && StagedOps(Copy(source.handle, target, placeholder), source) == [UpsertPlacement(row)]
            && (e.push.Some? <==> opts.MayAdd())
            && (opts.MayAdd() ==>
                  && e.push.value.kind
                     == Add(placeholder, source.linkId, source.flags, Some(Origin(source.collection, source.handle)),
                            source.body)
                  && Delivered(target, row, e.push.value, given, stamp))
  {
    var row := StagedCopy(source, target, placeholder);
    if opts.MayAdd() { CreateIsDelivered(target, opts, row, given, stamp); }
  }

  /** An add accepted under a handle leaves its item there alone, agreeing with what was added. */
  ghost predicate Delivered(coll: CollectionId, row: Placement, add: Derived, given: Handle, stamp: Option<Revision>) {
    var r := PushResult(row.handle, Accepted, Some(given), stamp);
    var after := Apply(map[row.handle := row], RecordOne(coll, NO_PENDINGS.Add(row.handle, add.pending), r).writes);
    && after.Keys == {given}
    && (var left := after[given];
        && left.status == Clean && left.linkId == row.linkId && left.origin.None? && left.StagedEdit().None?
        && left.base == Some(Base(row.flags, stamp, row.body)) && left.flags == row.flags && left.body == row.body)
  }

  /** Without the right, the edit waits: nothing is pushed for a body, and it is still staged. */
  lemma UnpermittedEditWaits(coll: CollectionId, opts: Options, row: Placement, hash: Hash, meta: Option<Meta>,
                             sortKey: Option<SortKey>, listed: RemoteItem)
    requires ListedAsBased(row, listed) && !opts.MayContent() && Some(hash) != row.body
    ensures var edited := EditedRow(row, hash, meta, sortKey);
            RoundEffect(coll, opts, edited, Some(listed)) == NOTHING && edited.StagedEdit() == Some(hash)
  {
    var edited := EditedRow(row, hash, meta, sortKey);
    UnpermittedMerge(coll, opts, edited, listed);
    hide MergeBoth, MergeTombstone, MergeRemoteDelete, MergeLocalCreate, PullAdd;
  }

  lemma UnpermittedMerge(coll: CollectionId, opts: Options, edited: Placement, listed: RemoteItem)
    requires edited.status == Dirty && edited.base.Some? && edited.body.Some? && edited.body != edited.base.value.body
    requires edited.flags == edited.base.value.flags && !opts.MayContent()
    requires listed == RemoteItem(edited.handle, edited.base.value.flags, edited.base.value.revision)
    ensures MergeBoth(coll, opts, edited, listed) == NOTHING
  {
    UnpermittedAxes(coll, opts, edited, listed);
    assert MergeBoth(coll, opts, edited, listed) == NOTHING.Then(NOTHING);
    hide MergeBoth;
    NothingFirst(NOTHING);
  }

  lemma UnpermittedAxes(coll: CollectionId, opts: Options, edited: Placement, listed: RemoteItem)
    requires edited.status == Dirty && edited.base.Some? && edited.body.Some? && edited.body != edited.base.value.body
    requires edited.flags == edited.base.value.flags && !opts.MayContent()
    requires listed == RemoteItem(edited.handle, edited.base.value.flags, edited.base.value.revision)
    ensures ReconcileContent(coll, opts, edited, listed) == (NOTHING, Untouched)
    ensures ReconcileFlags(opts, edited, listed, Derive) == NOTHING
  {
    FlagLaws.UnchangedSideYields(edited.flags, edited.flags);
    hide MergeFlags, ResolveConflict, PullContent, MarkConflict, PullFlags, RebasedRow, Pushing;
  }
}

/** Editing a conflicted row settles exactly the divergence it was merged against. */
module Resolution {
  import opened Wrappers
  import opened Text
  import opened Placement
  import opened Change
  import opened Remote
  import opened Join
  import opened MergeRules
  import opened SyncMachine
  import opened Rounds
  import opened Storage
  import opened Mutate

  /** A conflict the engine records, and the resolution of it. */
  predicate Conflicting(row: Placement) {
    row.status == Conflict && row.body.Some?
  }

  /** The remote is still at the revision the conflict observed. */
  predicate Unmoved(row: Placement, listed: RemoteItem) {
    listed.revision.None? || listed.revision == row.conflictRevision
  }

  predicate Derives(e: Effect, kind: ChangeKind) {
    e.push.Some? && e.push.value.kind == kind
  }

  /** The next sync pushes the kept body, conditioned on the revision the conflict observed, if and
    * only if the remote is still there and the body differs from the remote one recorded. */
  lemma ResolutionPushes(coll: CollectionId, opts: Options, row: Placement, hash: Hash, meta: Option<Meta>,
                         sortKey: Option<SortKey>, listed: RemoteItem)
    requires Conflicting(row) && listed.handle == row.handle
    requires opts.conflict == ConflictPolicy.Manual && opts.MayContent()
    ensures var edited := EditedRow(row, hash, meta, sortKey);
            var e := RoundEffect(coll, opts, edited, Some(listed));
            var keeps := Unmoved(row, listed) && Some(hash) != row.conflictObject;
            && (keeps ==> Derives(e, Update(row.handle, hash, row.conflictRevision)))
            && (!keeps ==> !(e.push.Some? && e.push.value.kind.Update?))
  {
    var edited := EditedRow(row, hash, meta, sortKey);
    ResolutionContent(coll, opts, row, hash, meta, sortKey, listed);
    var (content, outcome) := ReconcileContent(coll, opts, edited, listed);
    hide ReconcileContent;
    FlagsPushNoContent(opts, if outcome.Rewritten? then outcome.row else edited, listed,
                       if outcome.Pushed? then Withhold else Derive);
    hide ReconcileFlags, PushUpdate, MarkConflict, PullContent;
  }

  lemma FlagsPushNoContent(opts: Options, row: Placement, listed: RemoteItem, allow: PushFlags)
    ensures var e := ReconcileFlags(opts, row, listed, allow);
            e.push.Some? ==> e.push.value.kind.SetFlags?
  {
    hide MergeFlags;
  }

  /** The content axis of the sync after a resolution: settled, pushed, or the divergence met anew. */
  lemma ResolutionContent(coll: CollectionId, opts: Options, row: Placement, hash: Hash, meta: Option<Meta>,
                          sortKey: Option<SortKey>, listed: RemoteItem)
    requires Conflicting(row) && listed.handle == row.handle
    requires opts.conflict == ConflictPolicy.Manual && opts.MayContent()
    ensures var edited := EditedRow(row, hash, meta, sortKey);
            ReconcileContent(coll, opts, edited, listed)
            == if Unmoved(row, listed) then
                 if Some(hash) == row.conflictObject then (NOTHING, Untouched)
                 else (PushUpdate(edited, row.conflictRevision), ContentOutcome.Pushed)
               else if Some(hash) == row.conflictObject then PullContent(edited, listed)
               else MarkConflict(edited, listed)
  {
  }

  /** Keeping the remote body settles the conflict with no content push: the row ends clean on it. */
  lemma KeepingTheRemoteSettles(coll: CollectionId, opts: Options, row: Placement, hash: Hash, meta: Option<Meta>,
                                sortKey: Option<SortKey>, listed: RemoteItem, stamp: Option<Revision>)
    requires Conflicting(row) && listed.handle == row.handle && opts.MayFlags()
    requires Unmoved(row, listed) && Some(hash) == row.conflictObject
    ensures var edited := EditedRow(row, hash, meta, sortKey);
            var pushed := RoundChange(coll, opts, edited, listed);
            var left := LeftRow(coll, opts, edited, listed, stamp);
            && (pushed.Some? ==> pushed.value.SetFlags?)
            && left.Some? && left.value.status == Clean && left.value.body == Some(hash)
            && left.value.StagedEdit().None?
  {
    var edited := EditedRow(row, hash, meta, sortKey);
    assert FlagsOnly(edited, listed) && edited.handle == row.handle && edited.body == Some(hash);
    hide EditedRow, FlagsOnly, MergeFlags, RoundChange, LeftRow;
    FlagsOnlySync(coll, opts, edited, listed, stamp);
  }

  /** Keeping another body, once the push is accepted, leaves the row based on it at the revision the
    * remote gave it: the divergence is over. */
  lemma KeepingTheLocalSettles(coll: CollectionId, opts: Options, row: Placement, hash: Hash, meta: Option<Meta>,
                               sortKey: Option<SortKey>, listed: RemoteItem, stamp: Option<Revision>)
    requires Conflicting(row) && listed.handle == row.handle
    requires opts.conflict == ConflictPolicy.Manual && opts.MayContent()
    requires Unmoved(row, listed) && Some(hash) != row.conflictObject
    ensures var left := LeftRow(coll, opts, EditedRow(row, hash, meta, sortKey), listed, stamp);
            && left.Some? && left.value.body == Some(hash) && left.value.StagedEdit().None?
            && left.value.BaseRevision() == stamp && (left.value.status == Clean || left.value.status == Dirty)
  {
    var edited := EditedRow(row, hash, meta, sortKey);
    ResolutionContent(coll, opts, row, hash, meta, sortKey, listed);
    assert edited.status == Dirty && edited.base.Some? && edited.body == Some(hash) && edited.handle == row.handle;
    hide EditedRow, ReconcileContent;
    PushedRoundLeaves(coll, opts, edited, row.conflictRevision, listed, stamp);
  }

  lemma PushedRoundLeaves(coll: CollectionId, opts: Options, row: Placement, ifMatch: Option<Revision>,
                          listed: RemoteItem, stamp: Option<Revision>)
    requires row.body.Some? && row.base.Some? && row.status == Dirty && listed.handle == row.handle
    requires ReconcileContent(coll, opts, row, listed) == (PushUpdate(row, ifMatch), ContentOutcome.Pushed)
    ensures LeftRow(coll, opts, row, listed, stamp) == Some(ContentRebasedRow(row, stamp))
  {
    var e := RoundEffect(coll, opts, row, Some(listed));
    var flags := ReconcileFlags(opts, row, listed, Withhold);
    var settled := UpsertPlacement(ContentRebasedRow(row, stamp));
    WithheldWrites(opts, row, listed);
    PushedEffect(coll, opts, row, ifMatch, listed);
    var p := NO_PENDINGS.Add(row.handle, ContentPush(row));
    assert RecordOne(coll, p, PushResult(row.handle, Accepted, None, stamp)).writes == [settled];
    hide RoundEffect, ReconcileContent, ReconcileFlags, RecordOne, ContentRebasedRow;
    var store := map[row.handle := row];
    assert RoundOps(coll, opts, row, Some(listed), stamp) == flags.writes + [settled];
    ApplyConcat(store, flags.writes, [settled]);
    ApplyOne(Apply(store, flags.writes), settled);
    assert settled.placement.handle == row.handle by { SettledHandle(row, stamp); }
  }

  lemma SettledHandle(row: Placement, stamp: Option<Revision>)
    ensures ContentRebasedRow(row, stamp).handle == row.handle
  {
  }

  lemma PushedEffect(coll: CollectionId, opts: Options, row: Placement, ifMatch: Option<Revision>, listed: RemoteItem)
    requires row.body.Some? && row.base.Some? && row.status == Dirty
    requires ReconcileContent(coll, opts, row, listed) == (PushUpdate(row, ifMatch), ContentOutcome.Pushed)
    ensures var e := RoundEffect(coll, opts, row, Some(listed));
            && e.push == PushUpdate(row, ifMatch).push
            && e.writes == ReconcileFlags(opts, row, listed, Withhold).writes
  {
    hide ReconcileContent, ReconcileFlags;
  }

  lemma WithheldWrites(opts: Options, row: Placement, listed: RemoteItem)
    ensures forall op :: op in ReconcileFlags(opts, row, listed, Withhold).writes ==> op.UpsertPlacement?
  {
    hide MergeFlags;
  }

  /** The remote having moved again, the kept body diverges from what it now holds and conflicts with
    * that; or, restating the body it no longer holds, yields to what it does. */
  lemma MovedRemoteReopens(coll: CollectionId, opts: Options, row: Placement, hash: Hash, meta: Option<Meta>,
                           sortKey: Option<SortKey>, listed: RemoteItem)
    requires Conflicting(row) && listed.handle == row.handle
    requires opts.conflict == ConflictPolicy.Manual && opts.MayContent() && !Unmoved(row, listed)
    ensures var edited := EditedRow(row, hash, meta, sortKey);
            var (e, outcome) := ReconcileContent(coll, opts, edited, listed);
            && outcome.Rewritten? && e.push.None?
            && (if Some(hash) != row.conflictObject
                then e.conflicts == 1 && outcome.row.status == Conflict
                     && outcome.row.conflictRevision == listed.revision
                     && outcome.row.body == Some(hash)
                else e.refreshed == 1 && outcome.row.body == None && outcome.row.level == Probed
                     && outcome.row.BaseRevision() == listed.revision)
  {
    ResolutionContent(coll, opts, row, hash, meta, sortKey, listed);
    hide ReconcileContent;
  }
}

/** One accepted sync of one row: its merge, the change it derives, and the recording of it. */
module Rounds {
  import opened Wrappers
  import opened Placement
  import opened Change
  import opened Remote
  import opened Join
  import opened MergeRules
  import opened SyncMachine
  import opened Storage

  function RoundEffect(coll: CollectionId, opts: Options, row: Placement, listed: Option<RemoteItem>): Effect {
    MergeOne(coll, opts, Candidate(row.handle, Some(row), listed))
  }

  /** What one handle's merge writes once its change is accepted: the merge's writes, then the
    * recording of the change. */
  function EffectOps(coll: CollectionId, h: Handle, e: Effect, stamp: Option<Revision>): seq<WriteOp> {
    e.writes +
    (if e.push.Some?
     then RecordOne(coll, NO_PENDINGS.Add(h, e.push.value.pending), PushResult(h, Accepted, None, stamp)).writes
     else [])
  }

  /** The writes of an accepted sync of one row. */
  function RoundOps(coll: CollectionId, opts: Options, row: Placement, listed: Option<RemoteItem>,
                    stamp: Option<Revision>): seq<WriteOp>
  {
    EffectOps(coll, row.handle, RoundEffect(coll, opts, row, listed), stamp)
  }

  /** A based live row with no body to reconcile against what is listed. */
  predicate FlagsOnly(row: Placement, listed: RemoteItem) {
    && row.base.Some? && row.StagedEdit().None?
    && (row.status == Clean || row.status == Dirty)
    && (listed.revision.None? || listed.revision == row.base.value.revision)
  }

  /** The change a sync of the row pushes, and the row it leaves, once accepted. */
  function RoundChange(coll: CollectionId, opts: Options, row: Placement, listed: RemoteItem): Option<ChangeKind> {
    var e := RoundEffect(coll, opts, row, Some(listed));
    if e.push.Some? then Some(e.push.value.kind) else None
  }

  function LeftRow(coll: CollectionId, opts: Options, row: Placement, listed: RemoteItem, stamp: Option<Revision>)
    : Option<Placement>
  {
    At(Apply(map[row.handle := row], RoundOps(coll, opts, row, Some(listed), stamp)), row.handle)
  }

  /** A sync of flags alone: it pushes the merged set exactly when the remote lacks it, and leaves
    * it on the row and on its base. */
  lemma FlagsOnlySync(coll: CollectionId, opts: Options, row: Placement, listed: RemoteItem, stamp: Option<Revision>)
    requires FlagsOnly(row, listed) && opts.MayFlags() && listed.handle == row.handle
    ensures var merged := MergeFlags(row.base.value.flags, row.flags, listed.flags);
            && RoundChange(coll, opts, row, listed)
               == (if merged != listed.flags then Some(SetFlags(row.handle, merged)) else None)
            && (var left := LeftRow(coll, opts, row, listed, stamp);
                && left.Some? && left.value.flags == merged && left.value.status == Clean
                && left.value.base.Some? && left.value.base.value.flags == merged
                && left.value.body == row.body && left.value.base.value.body == row.base.value.body)
  {
    var merged := MergeFlags(row.base.value.flags, row.flags, listed.flags);
    FlagsOnlyMerge(coll, opts, row, listed);
    hide RoundEffect, MergeFlags;
    if merged == listed.flags {
      FlagsSettleHere(coll, opts, row, listed, stamp);
    } else {
      FlagsArePushed(coll, opts, row, listed, stamp);
    }
    hide LeftRow, ReconcileFlags;
  }

  /** The merged set already listed, the row settles on it at most. */
  lemma FlagsSettleHere(coll: CollectionId, opts: Options, row: Placement, listed: RemoteItem, stamp: Option<Revision>)
    requires FlagsOnly(row, listed) && listed.handle == row.handle
    requires RoundEffect(coll, opts, row, Some(listed)) == ReconcileFlags(opts, row, listed, Derive)
    requires MergeFlags(row.base.value.flags, row.flags, listed.flags) == listed.flags
    ensures ReconcileFlags(opts, row, listed, Derive).push == None
    ensures LeftRow(coll, opts, row, listed, stamp) == Some(RebasedRow(row.(flags := listed.flags), listed.flags))
  {
    hide RoundEffect, MergeFlags;
    var e := ReconcileFlags(opts, row, listed, Derive);
    assert e.push == None;
    assert e.writes == [] || e.writes == [UpsertPlacement(RebasedRow(row.(flags := listed.flags), listed.flags))];
    assert RoundOps(coll, opts, row, Some(listed), stamp) == e.writes;
    if e.writes == [] {
      assert row == RebasedRow(row.(flags := listed.flags), listed.flags);
    } else {
      ApplyOne(map[row.handle := row], e.writes[0]);
    }
  }

  /** Otherwise it is pushed, and settled on once accepted. */
  lemma FlagsArePushed(coll: CollectionId, opts: Options, row: Placement, listed: RemoteItem, stamp: Option<Revision>)
    requires FlagsOnly(row, listed) && opts.MayFlags() && listed.handle == row.handle
    requires RoundEffect(coll, opts, row, Some(listed)) == ReconcileFlags(opts, row, listed, Derive)
    requires MergeFlags(row.base.value.flags, row.flags, listed.flags) != listed.flags
    ensures var merged := MergeFlags(row.base.value.flags, row.flags, listed.flags);
            var e := ReconcileFlags(opts, row, listed, Derive);
            && e.push.Some? && e.push.value.kind == SetFlags(row.handle, merged)
            && LeftRow(coll, opts, row, listed, stamp) == Some(RebasedRow(row.(flags := merged), merged))
  {
    var merged := MergeFlags(row.base.value.flags, row.flags, listed.flags);
    FlagPushShape(opts, row, listed);
    FlagPushRecords(coll, row.handle, row.(flags := merged), stamp);
    hide RoundEffect, MergeFlags, ReconcileFlags, RecordOne, RebasedRow;
    var store, settled := map[row.handle := row], UpsertPlacement(RebasedRow(row.(flags := merged), merged));
    if ReconcileFlags(opts, row, listed, Derive).writes == [] {
      assert RoundOps(coll, opts, row, Some(listed), stamp) == [settled];
      ApplyOne(store, settled);
    } else {
      var pulled := UpsertPlacement(row.(flags := merged));
      assert RoundOps(coll, opts, row, Some(listed), stamp) == [pulled, settled];
      ApplyTwo(store, pulled, settled);
    }
  }

  /** What a flag push is derived with. */
  lemma FlagPushShape(opts: Options, row: Placement, item: RemoteItem)
    requires row.base.Some? && opts.MayFlags()
    requires MergeFlags(row.base.value.flags, row.flags, item.flags) != item.flags
    ensures var merged := MergeFlags(row.base.value.flags, row.flags, item.flags);
            var e := ReconcileFlags(opts, row, item, Derive);
            && e.push == Some(Derived(SetFlags(row.handle, merged), FlagPush(row.(flags := merged))))
            && (e.writes == [] || e.writes == [UpsertPlacement(row.(flags := merged))])
  {
    hide MergeFlags;
  }

  /** An accepted flag push rebases its row onto the set pushed. */
  lemma FlagPushRecords(coll: CollectionId, h: Handle, row: Placement, stamp: Option<Revision>)
    ensures RecordOne(coll, NO_PENDINGS.Add(h, FlagPush(row)), PushResult(h, Accepted, None, stamp)).writes
            == [UpsertPlacement(RebasedRow(row, row.flags))]
    ensures RebasedRow(row, row.flags).handle == row.handle
  {
  }

  lemma FlagsOnlyMerge(coll: CollectionId, opts: Options, row: Placement, listed: RemoteItem)
    requires FlagsOnly(row, listed)
    ensures RoundEffect(coll, opts, row, Some(listed)) == ReconcileFlags(opts, row, listed, Derive)
  {
    FlagsOnlyBoth(coll, opts, row, listed);
    hide ReconcileFlags, MergeBoth, MergeTombstone, PullAdd, MergeRemoteDelete, MergeLocalCreate;
  }

  lemma FlagsOnlyBoth(coll: CollectionId, opts: Options, row: Placement, listed: RemoteItem)
    requires FlagsOnly(row, listed)
    ensures MergeBoth(coll, opts, row, listed) == ReconcileFlags(opts, row, listed, Derive)
  {
    FlagsOnlyContent(coll, opts, row, listed);
    hide ReconcileContent, ReconcileFlags;
    var e := ReconcileFlags(opts, row, listed, Derive);
    assert MergeBoth(coll, opts, row, listed) == NOTHING.Then(e);
    hide MergeBoth;
    NothingFirst(e);
  }

  lemma FlagsOnlyContent(coll: CollectionId, opts: Options, row: Placement, listed: RemoteItem)
    requires FlagsOnly(row, listed)
    ensures ReconcileContent(coll, opts, row, listed) == (NOTHING, Untouched)
  {
  }
}

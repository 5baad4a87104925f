/** Renumbering then syncing does to the flags what syncing would have done. */
module RekeySync {
  import opened Wrappers
  import opened Placement
  import opened Change
  import opened Remote
  import opened Join
  import opened MergeRules
  import opened SyncMachine
  import opened Rounds
  import opened Storage
  import opened Rekey
  import FlagLaws

  /** For a based row with no content edit: the sync after a rekey pushes the merged set the sync
    * without one would have pushed, exactly when that one would have, and both leave the same
    * flags on the row and on its base. */
  lemma RekeyCommutesWithMerge(coll: CollectionId, opts: Options, row: Placement, item: RemoteItem,
                               resolved: Option<Resolved>, before: Option<Revision>, stamp: Option<Revision>)
    requires opts.MayFlags()
    requires FlagsOnly(row, RemoteItem(row.handle, item.flags, before))
    ensures var unmoved := RemoteItem(row.handle, item.flags, before);
            var carried := Carry(coll, row, item, resolved);
            var direct, rekeyed := RoundChange(coll, opts, row, unmoved), RoundChange(coll, opts, carried, item);
            var left, releft := LeftRow(coll, opts, row, unmoved, stamp), LeftRow(coll, opts, carried, item, stamp);
            && (direct.Some? <==> rekeyed.Some?)
            && (direct.Some? ==> direct.value.SetFlags? && rekeyed == Some(SetFlags(item.handle, direct.value.flags)))
            && left.Some? && releft.Some?
            && left.value.flags == releft.value.flags && left.value.base.Some? && releft.value.base.Some?
            && left.value.base.value.flags == releft.value.base.value.flags == left.value.flags
            && releft.value.body == row.body && releft.value.base.value.body == row.base.value.body
  {
    var unmoved := RemoteItem(row.handle, item.flags, before);
    var carried := Carry(coll, row, item, resolved);
    var merged := MergeFlags(row.base.value.flags, row.flags, item.flags);
    FlagLaws.UnchangedSideYields(item.flags, merged);
    assert MergeFlags(item.flags, merged, item.flags) == merged;
    hide MergeFlags;
    assert FlagsOnly(carried, item) && carried.flags == merged && carried.base.value.flags == item.flags;
    FlagsOnlySync(coll, opts, row, unmoved, stamp);
    FlagsOnlySync(coll, opts, carried, item, stamp);
    hide RoundChange, LeftRow;
  }

  /** A tombstone carried over still pushes its remove, with its destination, under the new handle and
    * against the revision the new space reports. */
  lemma CarriedTombstonePushes(coll: CollectionId, opts: Options, row: Placement, item: RemoteItem,
                               resolved: Option<Resolved>)
    requires row.status == Tombstone && opts.MayRemove()
    requires row.StagedEdit().None? || row.origin.None?
    ensures RoundChange(coll, opts, Carry(coll, row, item, resolved), item)
            == Some(Remove(item.handle, if row.origin.Some? then Some(row.origin.value.collection) else None,
                           row.linkId, item.revision))
  {
    var carried := Carry(coll, row, item, resolved);
    assert carried.status == Tombstone && carried.handle == item.handle && carried.linkId == row.linkId
           && carried.origin == row.origin && carried.BaseRevision() == item.revision && carried.base.Some?;
    assert carried.StagedEdit() == row.StagedEdit();
    hide Carry, MergeBoth, MergeRemoteDelete, PullAdd, RefuseDelete, PushUpdate;
  }

  /** A staged edit carried over pushes its body, last writer wins: its base is the new revision. */
  lemma CarriedEditPushes(coll: CollectionId, opts: Options, row: Placement, item: RemoteItem,
                          resolved: Option<Resolved>)
    requires row.status == Dirty && ContentEdit(row) && opts.MayContent()
    ensures RoundChange(coll, opts, Carry(coll, row, item, resolved), item)
            == Some(Update(item.handle, row.body.value, item.revision))
  {
    var carried := Carry(coll, row, item, resolved);
    CarriedEdit(coll, row, item, resolved);
    hide Carry;
    assert ReconcileContent(coll, opts, carried, item) == (PushUpdate(carried, item.revision), ContentOutcome.Pushed);
    hide ReconcileContent, ReconcileFlags, MergeTombstone, MergeRemoteDelete, MergeLocalCreate, PullAdd;
  }

  lemma CarriedEdit(coll: CollectionId, row: Placement, item: RemoteItem, resolved: Option<Resolved>)
    requires row.status == Dirty && ContentEdit(row)
    ensures var carried := Carry(coll, row, item, resolved);
            && carried.status == Dirty && carried.handle == item.handle && carried.body == row.body
            && carried.body.Some?
            && carried.base.Some? && carried.base.value.revision == item.revision
            && carried.base.value.body != carried.body
  {
    hide MergeFlags;
  }
}

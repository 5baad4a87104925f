/** A change the remote refuses, or never answers, is not forgotten: the next sync derives it again. */
module Rederive {
  import opened Wrappers
  import opened Text
  import opened Placement
  import opened Change
  import opened Remote
  import opened Join
  import opened MergeRules
  import opened SyncInvariants
  import opened Storage
  import opened Rounds
  import opened NoLoss
  import FlagLaws

  /** The row a merge leaves with nothing recorded. */
  function Unrecorded(local: Placement, e: Effect): Option<Placement> {
    At(Apply(map[local.handle := local], e.writes), local.handle)
  }

  lemma FlagsRederive(opts: Options, row: Placement, item: RemoteItem)
    requires ReconcileFlags(opts, row, item, Derive).push.Some?
    ensures row.base.Some?
    ensures var e := ReconcileFlags(opts, row, item, Derive);
            var merged := MergeFlags(row.base.value.flags, row.flags, item.flags);
            var after := row.(flags := merged);
            && e.writes == (if after == row then [] else [UpsertPlacement(after)])
            && e.push.value.kind == SetFlags(row.handle, merged)
            && ReconcileFlags(opts, after, item, Derive).push.Some?
            && ReconcileFlags(opts, after, item, Derive).push.value.kind == e.push.value.kind
  {
    FlagLaws.MergeIsStable(row.base.value.flags, row.flags, item.flags);
    hide MergeFlags;
    var merged := MergeFlags(row.base.value.flags, row.flags, item.flags);
    assert row.(flags := merged) == row <==> merged == row.flags;
  }

  /** A body still to push is still to push whatever became of the flags. */
  lemma ContentRederives(coll: CollectionId, opts: Options, row: Placement, item: RemoteItem, flags: Flags)
    requires ReconcileContent(coll, opts, row, item).1.Pushed?
    ensures row.body.Some? && ReconcileContent(coll, opts, row, item).0.writes == []
    ensures var (e, _) := ReconcileContent(coll, opts, row, item);
            var (f, outcome) := ReconcileContent(coll, opts, row.(flags := flags), item);
            && outcome.Pushed? && e.push.Some? && f.push.Some? && f.push.value.kind == e.push.value.kind
  {
  }

  /** Once the content axis has settled a row, it leaves it alone. */
  lemma ContentSettles(coll: CollectionId, opts: Options, row: Placement, item: RemoteItem, flags: Flags)
    requires row.base.Some? && !ReconcileContent(coll, opts, row, item).1.Pushed?
    ensures var (e, outcome) := ReconcileContent(coll, opts, row, item);
            var left := if outcome.Rewritten? then outcome.row else row;
            && left.base.Some? && left.handle == row.handle && (left.status == Tombstone <==> row.status == Tombstone)
            && ReconcileContent(coll, opts, left.(flags := flags), item) == (NOTHING, Untouched)
            && Unrecorded(row, e) == Some(left)
  {
    var (e, outcome) := ReconcileContent(coll, opts, row, item);
    var store := map[row.handle := row];
    if e.writes != [] {
      if |e.writes| == 1 {
        ApplyOne(store, e.writes[0]);
      } else {
        DupIsAnother(row.handle, row.body.value);
        assert e.writes == [e.writes[0], e.writes[1]];
        ApplyTwo(store, e.writes[0], e.writes[1]);
      }
    }
  }

  lemma UnrecordedThen(local: Placement, e: Effect, f: Effect, middle: Placement)
    requires Unrecorded(local, e) == Some(middle) && middle.handle == local.handle
    ensures Unrecorded(local, e.Then(f)) == Unrecorded(middle, f)
  {
    var store := map[local.handle := local];
    ApplyConcat(store, e.writes, f.writes);
    ApplyIsLocal(Apply(store, e.writes), map[middle.handle := middle], f.writes, local.handle);
  }

  lemma UnrecordedFlags(row: Placement, e: Effect, after: Placement)
    requires e.writes == (if after == row then [] else [UpsertPlacement(after)]) && after.handle == row.handle
    ensures Unrecorded(row, e) == Some(after)
  {
    if e.writes != [] { ApplyOne(map[row.handle := row], e.writes[0]); }
  }

  /** Whether the flag axis settles a row on the spot, landing it clean, whatever the content axis has
    * just derived for it. */
  predicate SettlesFlags(row: Placement, item: RemoteItem) {
    && row.base.Some?
    && MergeFlags(row.base.value.flags, row.flags, item.flags) == item.flags
    && (row.flags != item.flags || row.flags != row.base.value.flags)
  }

  /** What a withheld flag axis leaves of a row whose body is being pushed. */
  lemma WithheldLeaves(opts: Options, row: Placement, item: RemoteItem)
    requires row.base.Some? && row.status == Dirty && row.body.Some? && row.body != row.base.value.body
    ensures var e := ReconcileFlags(opts, row, item, Withhold);
            var merged := MergeFlags(row.base.value.flags, row.flags, item.flags);
            && e.push == None
            && Unrecorded(row, e)
               == Some(if SettlesFlags(row, item) then FlagsPulledRow(row, merged) else row.(flags := merged))
  {
    hide MergeFlags;
    var e := ReconcileFlags(opts, row, item, Withhold);
    var merged := MergeFlags(row.base.value.flags, row.flags, item.flags);
    if e.writes != [] {
      assert e.writes == [e.writes[0]];
      ApplyOne(map[row.handle := row], e.writes[0]);
    } else {
      assert row.(flags := merged) == row;
    }
  }

  /** A refused body push is derived again exactly when the flags did not settle beside it. */
  lemma PushedRederives(coll: CollectionId, opts: Options, row: Placement, item: RemoteItem)
    requires ReconcileContent(coll, opts, row, item).1.Pushed? && item.handle == row.handle
    ensures var e := MergeBoth(coll, opts, row, item);
            var left := Unrecorded(row, e);
            && e.push.Some? && e.push.value.kind.Update?
            && left.Some? && left.value.handle == row.handle && left.value.body == row.body
            && left.value.status != Tombstone
            && (var next := MergeBoth(coll, opts, left.value, item).push;
                if SettlesFlags(row, item) then !(next.Some? && next.value.kind.Update?)
                else next.Some? && next.value.kind == e.push.value.kind)
  {
    var (content, _) := ReconcileContent(coll, opts, row, item);
    var flags := ReconcileFlags(opts, row, item, Withhold);
    var merged := MergeFlags(row.base.value.flags, row.flags, item.flags);
    WithheldLeaves(opts, row, item);
    ContentRederives(coll, opts, row, item, merged);
    assert content.writes + flags.writes == flags.writes;
    var settled := FlagsPulledRow(row, merged);
    CleanPushesNoBody(coll, opts, settled, item);
    hide ReconcileContent, ReconcileFlags, MergeFlags;
  }

  lemma CleanPushesNoBody(coll: CollectionId, opts: Options, row: Placement, item: RemoteItem)
    requires row.status == Clean
    ensures var e := MergeBoth(coll, opts, row, item); !(e.push.Some? && e.push.value.kind.Update?)
  {
    var (content, outcome) := ReconcileContent(coll, opts, row, item);
    assert content.push == None && !outcome.Pushed?;
    hide ReconcileContent;
    var next := if outcome.Rewritten? then outcome.row else row;
    FlagsDeriveFlags(opts, next, item);
    hide ReconcileFlags;
  }

  lemma FlagsDeriveFlags(opts: Options, row: Placement, item: RemoteItem)
    ensures var e := ReconcileFlags(opts, row, item, Derive); e.push.Some? ==> e.push.value.kind.SetFlags?
  {
    hide MergeFlags;
  }

  /** A refused flag push is derived again, the same. */
  lemma SettledRederives(coll: CollectionId, opts: Options, row: Placement, item: RemoteItem)
    requires !ReconcileContent(coll, opts, row, item).1.Pushed? && MergeBoth(coll, opts, row, item).push.Some?
    requires item.handle == row.handle && row.status != Tombstone
    ensures var e := MergeBoth(coll, opts, row, item);
            var left := Unrecorded(row, e);
            && left.Some? && left.value.handle == row.handle && left.value.status != Tombstone
            && e.push.value.kind.SetFlags?
            && (var next := MergeBoth(coll, opts, left.value, item).push;
                next.Some? && next.value.kind == e.push.value.kind)
  {
    var (content, outcome) := ReconcileContent(coll, opts, row, item);
    var middle := if outcome.Rewritten? then outcome.row else row;
    var flags := ReconcileFlags(opts, middle, item, Derive);
    assert content.push == None && MergeBoth(coll, opts, row, item) == content.Then(flags);
    FlagsRederive(opts, middle, item);
    ContentKeepsBase(coll, opts, row, item);
    var merged := MergeFlags(middle.base.value.flags, middle.flags, item.flags);
    var after := middle.(flags := merged);
    ContentSettles(coll, opts, row, item, merged);
    hide ReconcileContent, ReconcileFlags, MergeFlags;
    UnrecordedThen(row, content, flags, middle);
    UnrecordedFlags(middle, flags, after);
  }

  lemma ContentKeepsBase(coll: CollectionId, opts: Options, row: Placement, item: RemoteItem)
    ensures var (e, outcome) := ReconcileContent(coll, opts, row, item);
            outcome.Rewritten? && outcome.row.base.Some? ==> row.base.Some?
  {
  }

  lemma CreateRederives(coll: CollectionId, opts: Options, row: Placement)
    requires MergeOne(coll, opts, Candidate(row.handle, Some(row), None)).push.Some?
    ensures var e := MergeOne(coll, opts, Candidate(row.handle, Some(row), None));
            var left := Unrecorded(row, e);
            && left.Some? && left.value.handle == row.handle && e.push.value.kind.Add?
            && (var next := MergeOne(coll, opts, Candidate(row.handle, left, None)).push;
                next.Some? && next.value.kind == e.push.value.kind)
  {
    var e := MergeOne(coll, opts, Candidate(row.handle, Some(row), None));
    if row.status != Tombstone && row.base.Some? {
      var revived := ResurrectedRow(row);
      assert e.writes == [UpsertPlacement(revived)];
      ApplyOne(map[row.handle := row], UpsertPlacement(revived));
      assert e.push.value.kind == PushAdd(revived).push.value.kind;
    } else {
      assert e.writes == [];
    }
  }

  lemma TombstoneRederives(coll: CollectionId, opts: Options, row: Placement, item: RemoteItem)
    requires row.status == Tombstone && MergeOne(coll, opts, Candidate(row.handle, Some(row), Some(item))).push.Some?
    ensures Unrecorded(row, MergeOne(coll, opts, Candidate(row.handle, Some(row), Some(item)))) == Some(row)
  {
    assert MergeOne(coll, opts, Candidate(row.handle, Some(row), Some(item))).writes == [];
  }

  /** A change derived and never recorded, refused or unanswered, is what the next sync against the
    * same remote derives again: but for a body pushed beside flags that settled at once, which lands
    * clean over its staged edit and is not pushed again. */
  lemma UnrecordedRederives(coll: CollectionId, opts: Options, c: Candidate)
    requires Paired(c) && c.local.Some? && MergeOne(coll, opts, c).push.Some?
    ensures var e := MergeOne(coll, opts, c);
            var left := Unrecorded(c.local.value, e);
            var settles := e.push.value.kind.Update? && c.local.value.status != Tombstone
                           && c.remote.Some? && SettlesFlags(c.local.value, c.remote.value);
            && left.Some? && left.value.handle == c.handle
            && (var next := MergeOne(coll, opts, c.(local := left)).push;
                && (!settles ==> next.Some? && next.value.kind == e.push.value.kind)
                && (settles ==> !(next.Some? && next.value.kind.Update?)))
  {
    var row := c.local.value;
    if c.remote.None? {
      CreateRederives(coll, opts, row);
    } else if row.status == Tombstone {
      TombstoneRederives(coll, opts, row, c.remote.value);
    } else if ReconcileContent(coll, opts, row, c.remote.value).1.Pushed? {
      PushedRederives(coll, opts, row, c.remote.value);
    } else {
      SettledRederives(coll, opts, row, c.remote.value);
    }
  }

  /** A row whose body was edited since its base. */
  function StagedRow(coll: CollectionId, h: Handle, was: Base, now: Hash): Placement {
    Placement(coll, h, None, Some(now), Full, None, UNSORTED, was.flags, Dirty, None, None, Some(was), None)
  }

  /** One such push: an edited body beside a marker the remote alone added. Refused, it leaves its row
    * clean over the staged body, and the next sync derives nothing. */
  lemma SettledPushIsForgotten(coll: CollectionId, opts: Options, h: Handle, was: Base, now: Hash, seen: Text)
    requires was.flags == NO_FLAGS && was.body != Some(now) && opts.MayContent()
    ensures var row, item := StagedRow(coll, h, was, now), RemoteItem(h, Known({seen}), was.revision);
            var e := MergeBoth(coll, opts, row, item);
            var left := Unrecorded(row, e);
            && e.push.Some? && e.push.value.kind == Update(h, now, was.revision)
            && left.Some? && left.value.status == Clean && left.value.StagedEdit() == Some(now)
            && MergeBoth(coll, opts, left.value, item) == NOTHING
  {
    var row, item := StagedRow(coll, h, was, now), RemoteItem(h, Known({seen}), was.revision);
    assert seen in item.flags.markers && item.flags != NO_FLAGS;
    assert MergeFlags(NO_FLAGS, NO_FLAGS, item.flags) == item.flags == MergeFlags(item.flags, item.flags, item.flags);
    WithheldLeaves(opts, row, item);
    var content, flags := ReconcileContent(coll, opts, row, item).0, ReconcileFlags(opts, row, item, Withhold);
    assert content.writes + flags.writes == flags.writes;
    var left := FlagsPulledRow(row, item.flags);
    assert ReconcileContent(coll, opts, left, item) == (NOTHING, Untouched);
    assert ReconcileFlags(opts, left, item, Derive) == NOTHING;
  }
}

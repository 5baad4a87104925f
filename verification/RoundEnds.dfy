/** What an accepted sync leaves of one handle, on its row and on its server, case by case. */
module RoundEnds {
  import opened Wrappers
  import opened Placement
  import opened Change
  import opened Remote
  import opened Join
  import opened MergeRules
  import opened SyncMachine
  import opened JoinLaws
  import opened SyncInvariants
  import opened SyncRuns
  import opened Storage
  import opened NoLoss
  import opened Acceptance
  import opened Rounds
  import opened OneHandle

  /** A row once the ops touching it are applied. */
  function After(row: Option<Placement>, ops: seq<WriteOp>, h: Handle): Option<Placement> {
    Ending(row, Touching(ops, h))
  }

  lemma AfterConcat(row: Option<Placement>, a: seq<WriteOp>, b: seq<WriteOp>, h: Handle)
    ensures After(row, a + b, h) == After(After(row, a, h), b, h)
  {
    TouchingConcat(a, b, h);
  }

  lemma AfterOne(row: Option<Placement>, op: WriteOp, h: Handle)
    ensures After(row, [op], h) == if Touches(op, h) then Left(op) else row
  {
    assert [op][1..] == [];
    assert Touching([op], h) == if Touches(op, h) then [op] else [];
  }

  /** The row the flag axis leaves once its push, if any, is recorded. */
  function FlagsRow(opts: Options, row: Placement, item: RemoteItem): Placement {
    if row.base.None? then FlagsPulledRow(row, item.flags)
    else
      var merged := MergeFlags(row.base.value.flags, row.flags, item.flags);
      if merged != item.flags then
        if opts.MayFlags() then FlagsPulledRow(row, merged) else row.(flags := merged)
      else if merged != row.flags then FlagsPulledRow(row, merged)
      else if Unsettled(row) then RebasedRow(row, merged)
      else row
  }

  /** Whether a row whose flags agree with the remote still has its base or its status to settle. */
  predicate Unsettled(row: Placement) {
    && row.base.Some?
    && (row.flags != row.base.value.flags
        || (row.status == Dirty && !(row.body.Some? && row.base.value.body != row.body)))
  }

  /** The flags it leaves on the server. */
  function FlagsLeft(opts: Options, row: Placement, item: RemoteItem): Flags {
    if row.base.None? then item.flags
    else
      var merged := MergeFlags(row.base.value.flags, row.flags, item.flags);
      if merged != item.flags && opts.MayFlags() then merged else item.flags
  }

  /** What the flag axis writes, and the row its push is recorded from. */
  lemma FlagsWrites(opts: Options, row: Placement, item: RemoteItem)
    ensures var e := ReconcileFlags(opts, row, item, Derive);
            var left := FlagsRow(opts, row, item);
            if e.push.Some? then
              && e.push.value.kind == SetFlags(row.handle, FlagsLeft(opts, row, item)) && e.push.value.pending.FlagPush?
              && row.base.Some? && FlagsLeft(opts, row, item) != item.flags
              && (var pulled := e.push.value.pending.row;
                  && pulled == row.(flags := FlagsLeft(opts, row, item)) && left == RebasedRow(pulled, pulled.flags)
                  && (e.writes == [] || e.writes == [UpsertPlacement(pulled)]))
            else
              && FlagsLeft(opts, row, item) == item.flags
              && ((e.writes == [] && left == row) || e.writes == [UpsertPlacement(left)])
  {
    hide MergeFlags;
  }

  lemma FlagsEnd(coll: CollectionId, opts: Options, row: Placement, item: RemoteItem, stamp: Option<Revision>)
    ensures var e := ReconcileFlags(opts, row, item, Derive);
            var h := row.handle;
            && After(Some(row), EffectOps(coll, h, e, stamp), h) == Some(FlagsRow(opts, row, item))
            && (if e.push.Some? then e.push.value.kind == SetFlags(h, FlagsLeft(opts, row, item))
                else FlagsLeft(opts, row, item) == item.flags)
  {
    var h := row.handle;
    var e := ReconcileFlags(opts, row, item, Derive);
    var left := FlagsRow(opts, row, item);
    assert left.handle == h;
    FlagsWrites(opts, row, item);
    hide ReconcileFlags, FlagsRow, FlagsLeft;
    if e.push.Some? {
      FlagPushRecords(coll, h, e.push.value.pending.row, stamp);
      hide RecordOne, RebasedRow;
      AfterConcat(Some(row), e.writes, [UpsertPlacement(left)], h);
      AfterOne(After(Some(row), e.writes, h), UpsertPlacement(left), h);
      hide After;
    } else {
      assert EffectOps(coll, h, e, stamp) == e.writes;
      AfterOne(Some(row), UpsertPlacement(left), h);
    }
  }

  lemma ContentPushRecords(coll: CollectionId, h: Handle, row: Placement, stamp: Option<Revision>)
    ensures RecordOne(coll, NO_PENDINGS.Add(h, ContentPush(row)), PushResult(h, Accepted, None, stamp)).writes
            == [UpsertPlacement(ContentRebasedRow(row, stamp))]
  {
  }

  lemma DropPushRecords(coll: CollectionId, h: Handle, stamp: Option<Revision>)
    ensures RecordOne(coll, NO_PENDINGS.Add(h, DropPush), PushResult(h, Accepted, None, stamp)).writes
            == [DropPlacement(coll, h, Deleted)]
  {
  }

  lemma CreatePushRecords(coll: CollectionId, h: Handle, row: Placement, stamp: Option<Revision>)
    ensures RecordOne(coll, NO_PENDINGS.Add(h, CreatePush(row)), PushResult(h, Accepted, None, stamp)).writes
            == [DropPlacement(coll, row.handle, Superseded)]
  {
  }

  /** The row the content axis leaves. */
  function ContentRow(coll: CollectionId, opts: Options, row: Placement, item: RemoteItem): Placement {
    var outcome := ReconcileContent(coll, opts, row, item).1;
    if outcome.Rewritten? then outcome.row else row
  }

  lemma ContentEnd(coll: CollectionId, opts: Options, row: Placement, item: RemoteItem)
    ensures var (e, outcome) := ReconcileContent(coll, opts, row, item);
            var left := ContentRow(coll, opts, row, item);
            && After(Some(row), e.writes, row.handle) == Some(left)
            && left.handle == row.handle && (row.status != Tombstone ==> left.status != Tombstone)
            && (outcome.Pushed? <==> e.push.Some?) && (outcome.Pushed? ==> e.writes == [])
  {
    var (e, _) := ReconcileContent(coll, opts, row, item);
    var left := ContentRow(coll, opts, row, item);
    ContentWrites(coll, opts, row, item);
    hide ReconcileContent, ContentRow;
    if e.writes != [] {
      var own := UpsertPlacement(left);
      if e.writes != [own] {
        var dup := DupRow(coll, row, row.body.value);
        DupIsAnother(row.handle, row.body.value);
        assert e.writes == [UpsertPlacement(dup)] + [own];
        AfterConcat(Some(row), [UpsertPlacement(dup)], [own], row.handle);
        AfterOne(Some(row), UpsertPlacement(dup), row.handle);
      }
      AfterOne(Some(row), own, row.handle);
    }
  }

  /** What the content axis writes: the row it leaves, behind its fork if the body is kept twice. */
  lemma ContentWrites(coll: CollectionId, opts: Options, row: Placement, item: RemoteItem)
    ensures var (e, outcome) := ReconcileContent(coll, opts, row, item);
            var left := ContentRow(coll, opts, row, item);
            && (|| (e.writes == [] && left == row)
                || e.writes == [UpsertPlacement(left)]
                || (row.body.Some? && opts.conflict == KeepBoth
                    && e.writes == [UpsertPlacement(DupRow(coll, row, row.body.value)), UpsertPlacement(left)]))
            && left.handle == row.handle && (row.status != Tombstone ==> left.status != Tombstone)
            && (outcome.Pushed? <==> e.push.Some?) && (outcome.Pushed? ==> e.writes == [])
  {
    var (e, _) := ReconcileContent(coll, opts, row, item);
    assert |e.writes| == 2 ==> e.writes == [e.writes[0], e.writes[1]];
  }

  /** Whether the content axis pushes the row's body. */
  predicate PushesBody(coll: CollectionId, opts: Options, row: Placement, item: RemoteItem) {
    ReconcileContent(coll, opts, row, item).1.Pushed?
  }

  /** The row a merge of both sides leaves: content first, then flags on what it left; a body pushed
    * and accepted is all there is of it, the flags being for the next sync. */
  function BothRow(coll: CollectionId, opts: Options, row: Placement, item: RemoteItem, stamp: Option<Revision>)
    : Placement
  {
    if PushesBody(coll, opts, row, item) then ContentRebasedRow(row, stamp)
    else FlagsRow(opts, ContentRow(coll, opts, row, item), item)
  }

  /** What it leaves of the member. */
  function BothMember(coll: CollectionId, opts: Options, row: Placement, m: Member, stamp: Option<Revision>): Member {
    var item := RemoteItem(row.handle, m.flags, m.revision);
    if PushesBody(coll, opts, row, item) then Member(m.flags, stamp, row.body)
    else m.(flags := FlagsLeft(opts, ContentRow(coll, opts, row, item), item))
  }

  lemma BothEnd(coll: CollectionId, opts: Options, row: Placement, m: Member, stamp: Option<Revision>)
    ensures var h := row.handle;
            var item := RemoteItem(h, m.flags, m.revision);
            var e := MergeBoth(coll, opts, row, item);
            && After(Some(row), EffectOps(coll, h, e, stamp), h) == Some(BothRow(coll, opts, row, item, stamp))
            && ServedMember(Some(m), e.push, stamp) == Some(BothMember(coll, opts, row, m, stamp))
            && (e.push.Some? ==> if PushesBody(coll, opts, row, item) then e.push.value.kind.Update?
                                 else e.push.value.kind.SetFlags?)
  {
    var h := row.handle;
    var item := RemoteItem(h, m.flags, m.revision);
    var (content, outcome) := ReconcileContent(coll, opts, row, item);
    var left := ContentRow(coll, opts, row, item);
    ContentEnd(coll, opts, row, item);
    if outcome.Pushed? {
      BodyEnd(coll, opts, row, item, stamp);
      hide ReconcileContent, ReconcileFlags, EffectOps, Touching;
    } else {
      var flags := ReconcileFlags(opts, left, item, Derive);
      FlagsEnd(coll, opts, left, item, stamp);
      hide ReconcileContent, ReconcileFlags, FlagsRow, FlagsLeft;
      assert MergeBoth(coll, opts, row, item) == content.Then(flags);
      hide MergeBoth, ContentRow;
      ThenOps(coll, h, content, flags, stamp);
      hide EffectOps;
      AfterConcat(Some(row), content.writes, EffectOps(coll, h, flags, stamp), h);
      hide After;
    }
  }

  lemma ThenOps(coll: CollectionId, h: Handle, e: Effect, f: Effect, stamp: Option<Revision>)
    requires e.push.None?
    ensures EffectOps(coll, h, e.Then(f), stamp) == e.writes + EffectOps(coll, h, f, stamp)
  {
    hide RecordOne;
  }

  lemma BodyEnd(coll: CollectionId, opts: Options, row: Placement, item: RemoteItem, stamp: Option<Revision>)
    requires PushesBody(coll, opts, row, item)
    ensures var h := row.handle;
            var e := MergeBoth(coll, opts, row, item);
            && After(Some(row), EffectOps(coll, h, e, stamp), h) == Some(ContentRebasedRow(row, stamp))
            && row.body.Some? && e.push.Some? && e.push.value.kind.Update? && e.push.value.kind.hash == row.body.value
  {
    var h := row.handle;
    var (content, _) := ReconcileContent(coll, opts, row, item);
    var flags := ReconcileFlags(opts, row, item, Withhold);
    var e := content.Then(flags);
    assert e == MergeBoth(coll, opts, row, item) && e.push.value.pending == ContentPush(row);
    hide MergeBoth, ReconcileContent, ReconcileFlags;
    ContentPushRecords(coll, h, row, stamp);
    hide RecordOne, ContentRebasedRow;
    var settled := UpsertPlacement(ContentRebasedRow(row, stamp));
    assert Touches(settled, h) by { RebasedStays(row, stamp); }
    AfterConcat(Some(row), e.writes, [settled], h);
    AfterOne(After(Some(row), e.writes, h), settled, h);
    hide After, Touches;
  }

  lemma RebasedStays(row: Placement, stamp: Option<Revision>)
    ensures ContentRebasedRow(row, stamp).handle == row.handle
  {
  }

  /** Whether the remote changed a tombstone's content since its base, and so takes it back. */
  predicate TakenBack(row: Placement, revision: Option<Revision>) {
    row.base.None? || (revision.Some? && revision != row.BaseRevision())
  }

  /** Whether a staged edit of a copied row outlives its delete. */
  predicate EditedCopy(row: Placement) {
    row.StagedEdit().Some? && row.origin.Some?
  }

  /** A delete its source will not take: the row is given back, or waits. */
  function RefusedRow(opts: Options, row: Placement): Placement {
    match opts.delete
    case Revert => row.(status := Clean)
    case Keep => row
  }

  /** What a tombstone's merge leaves. */
  function TombstoneRow(coll: CollectionId, opts: Options, row: Placement, m: Member, stamp: Option<Revision>)
    : Option<Placement>
  {
    if TakenBack(row, m.revision) then Some(PulledRow(coll, RemoteItem(row.handle, m.flags, m.revision)))
    else if EditedCopy(row)
         then Some(if opts.MayContent() then ContentRebasedRow(row, stamp) else RefusedRow(opts, row))
    else if opts.MayRemove() then None
    else Some(RefusedRow(opts, row))
  }

  function TombstoneMember(opts: Options, row: Placement, m: Member, stamp: Option<Revision>): Option<Member> {
    if TakenBack(row, m.revision) then Some(m)
    else if EditedCopy(row) then Some(if opts.MayContent() then Member(m.flags, stamp, row.body) else m)
    else if opts.MayRemove() then None
    else Some(m)
  }

  lemma TombstoneEnd(coll: CollectionId, opts: Options, row: Placement, m: Member, stamp: Option<Revision>)
    requires row.status == Tombstone
    ensures var h := row.handle;
            var e := MergeOne(coll, opts, Candidate(h, Some(row), Listing(h, Some(m))));
            && After(Some(row), EffectOps(coll, h, e, stamp), h) == TombstoneRow(coll, opts, row, m, stamp)
            && ServedMember(Some(m), e.push, stamp) == TombstoneMember(opts, row, m, stamp)
            && (e.push.Some? ==> if EditedCopy(row) then e.push.value.kind.Update? else e.push.value.kind.Remove?)
  {
    var h := row.handle;
    var e := MergeOne(coll, opts, Candidate(h, Some(row), Listing(h, Some(m))));
    TombstoneMerges(coll, opts, row, m);
    hide MergeOne, After, Touching, ContentRebasedRow, PulledRow, TakenBack, EditedCopy;
    if e.push.Some? {
      TombstoneOps(coll, row, e, stamp);
      AfterOne(Some(row), EffectOps(coll, h, e, stamp)[0], h);
    } else {
      assert EffectOps(coll, h, e, stamp) == e.writes;
      if e.writes != [] { AfterOne(Some(row), e.writes[0], h); }
    }
    hide RecordOne, EffectOps;
  }

  /** What recording it writes. */
  lemma TombstoneOps(coll: CollectionId, row: Placement, e: Effect, stamp: Option<Revision>)
    requires e.writes == [] && e.push.Some?
    requires e.push.value.pending == ContentPush(row) || e.push.value.pending == DropPush
    ensures EffectOps(coll, row.handle, e, stamp)
            == [if e.push.value.pending.DropPush? then DropPlacement(coll, row.handle, Deleted)
                else UpsertPlacement(ContentRebasedRow(row, stamp))]
    ensures ContentRebasedRow(row, stamp).handle == row.handle
  {
    ContentPushRecords(coll, row.handle, row, stamp);
    DropPushRecords(coll, row.handle, stamp);
    hide RecordOne;
  }

  /** What a tombstone's merge derives and writes. */
  lemma TombstoneMerges(coll: CollectionId, opts: Options, row: Placement, m: Member)
    requires row.status == Tombstone
    ensures var e := MergeOne(coll, opts, Candidate(row.handle, Some(row), Listing(row.handle, Some(m))));
            var item := RemoteItem(row.handle, m.flags, m.revision);
            if TakenBack(row, m.revision) then e.push == None && e.writes == [UpsertPlacement(PulledRow(coll, item))]
            else if EditedCopy(row) && opts.MayContent() then
              && e.writes == [] && e.push.Some? && e.push.value.pending == ContentPush(row)
              && row.body.Some? && e.push.value.kind == Update(row.handle, row.body.value, row.BaseRevision())
            else if !EditedCopy(row) && opts.MayRemove() then
              e.writes == [] && e.push.Some? && e.push.value.pending == DropPush && e.push.value.kind.Remove?
              && e.push.value.kind.handle == row.handle
            else
              && e.push == None
              && e.writes == (if opts.delete == Revert then [UpsertPlacement(row.(status := Clean))] else [])
  {
    hide MergeBoth, MergeRemoteDelete, MergeLocalCreate;
  }

  /** What an unlisted row's merge leaves under its handle; a create leaves for the handle it is assigned. */
  function UnlistedRow(opts: Options, row: Placement): Option<Placement> {
    if row.status == Tombstone then None
    else if row.base.Some? then
      if Edited(row) && !opts.MayAdd() then Some(ResurrectedRow(row)) else None
    else if opts.MayAdd() && row.status == Created then None
    else Some(row)
  }

  lemma UnlistedEnd(coll: CollectionId, opts: Options, row: Placement, stamp: Option<Revision>)
    ensures var h := row.handle;
            var e := MergeOne(coll, opts, Candidate(h, Some(row), None));
            && After(Some(row), EffectOps(coll, h, e, stamp), h) == UnlistedRow(opts, row)
            && (e.push.Some? ==> e.push.value.kind.Add?)
            && (e.push.Some? <==> opts.MayAdd() && row.status != Tombstone
                                  && (if row.base.Some? then Edited(row) else row.status == Created))
  {
    var h := row.handle;
    var e := MergeOne(coll, opts, Candidate(h, Some(row), None));
    hide MergeBoth, MergeTombstone;
    if e.push.Some? {
      var created := e.push.value.pending.row;
      assert created.handle == h && (e.writes == [] || e.writes == [UpsertPlacement(created)]);
      CreatePushRecords(coll, h, created, stamp);
      hide RecordOne;
      var drop := DropPlacement(coll, h, Superseded);
      AfterConcat(Some(row), e.writes, [drop], h);
      AfterOne(After(Some(row), e.writes, h), drop, h);
    } else {
      assert EffectOps(coll, h, e, stamp) == e.writes;
      if e.writes != [] {
        assert e.writes == [e.writes[0]];
        AfterOne(Some(row), e.writes[0], h);
      }
    }
    hide Touching;
  }

  /** What an accepted sync leaves under a handle. */
  function EndRow(coll: CollectionId, opts: Options, h: Handle, local: Option<Placement>, m: Option<Member>,
                  stamp: Option<Revision>): Option<Placement>
  {
    match local
    case None => if m.Some? then Some(PulledRow(coll, RemoteItem(h, m.value.flags, m.value.revision))) else None
    case Some(row) =>
      if m.None? then UnlistedRow(opts, row)
      else if row.status == Tombstone then TombstoneRow(coll, opts, row, m.value, stamp)
      else Some(BothRow(coll, opts, row, RemoteItem(h, m.value.flags, m.value.revision), stamp))
  }

  /** And what it leaves on the server. */
  function EndMember(coll: CollectionId, opts: Options, local: Option<Placement>, m: Option<Member>,
                     stamp: Option<Revision>)
    : Option<Member>
  {
    if m.None? || local.None? then m
    else if local.value.status == Tombstone then TombstoneMember(opts, local.value, m.value, stamp)
    else Some(BothMember(coll, opts, local.value, m.value, stamp))
  }

  lemma EffectEndsOn(coll: CollectionId, opts: Options, h: Handle, local: Option<Placement>, m: Option<Member>,
                  stamp: Option<Revision>)
    requires local.Some? ==> local.value.handle == h
    ensures var e := MergeOne(coll, opts, Candidate(h, local, Listing(h, m)));
            && After(local, EffectOps(coll, h, e, stamp), h) == EndRow(coll, opts, h, local, m, stamp)
            && ServedMember(m, e.push, stamp) == EndMember(coll, opts, local, m, stamp)
  {
    if local.None? {
      NewEnds(coll, opts, h, m, stamp);
    } else if m.None? {
      UnlistedEnd(coll, opts, local.value, stamp);
      hide MergeOne, EffectOps, After, UnlistedRow;
    } else if local.value.status == Tombstone {
      TombstoneEnd(coll, opts, local.value, m.value, stamp);
      hide MergeOne, EffectOps, After, TombstoneRow, TombstoneMember, ServedMember;
    } else {
      BothEnd(coll, opts, local.value, m.value, stamp);
      hide MergeBoth, EffectOps, After, BothRow, BothMember, ServedMember;
    }
  }

  lemma NewEnds(coll: CollectionId, opts: Options, h: Handle, m: Option<Member>, stamp: Option<Revision>)
    ensures var e := MergeOne(coll, opts, Candidate(h, None, Listing(h, m)));
            && After(None, EffectOps(coll, h, e, stamp), h) == EndRow(coll, opts, h, None, m, stamp)
            && e.push.None?
  {
    var e := MergeOne(coll, opts, Candidate(h, None, Listing(h, m)));
    assert EffectOps(coll, h, e, stamp) == e.writes;
    if e.writes != [] {
      assert e.writes == [e.writes[0]];
      AfterOne(None, e.writes[0], h);
    }
  }

  /** An accepted full run leaves each handle as its own round does, whatever the other rows, the
    * options and the revisions. */
  lemma RunEnds(coll: CollectionId, opts: Options, listing: seq<Placement>, store: Rows, cursor: Option<Checkpoint>,
                snapshot: Snapshot, server: Server, mint: Mint, answers: seq<seq<PushResult>>, h: Handle)
    requires Lists(listing, store) && Shows(snapshot, server) && Alone(coll, opts, store, server, h)
    requires Unminted(coll, opts, store, server, mint, h)
    requires answers == Accepting(RunOf(coll, opts, listing, cursor, snapshot, answers).asked, mint)
    ensures var run := RunOf(coll, opts, listing, cursor, snapshot, answers);
            && At(Apply(store, Ops(run.asked)), h)
               == EndRow(coll, opts, h, At(store, h), MemberAt(server, h), mint.stamp(h))
            && MemberAt(Serve(server, Sent(run.asked), mint), h)
               == EndMember(coll, opts, At(store, h), MemberAt(server, h), mint.stamp(h))
  {
    RowIsOwn(listing, store, h);
    EffectIsMerge(coll, opts, store, server, mint, h);
    hide *;
    RunLeaves(coll, opts, listing, store, cursor, snapshot, server, mint, answers, h);
    RunTouches(coll, opts, listing, store, cursor, snapshot, server, mint, answers, h);
  }

  lemma RowIsOwn(listing: seq<Placement>, store: Rows, h: Handle)
    requires Lists(listing, store)
    ensures At(store, h).Some? ==> At(store, h).value.handle == h
  {
    assert RowAt(listing, h) == At(store, h);
  }

  lemma EffectIsMerge(coll: CollectionId, opts: Options, store: Rows, server: Server, mint: Mint, h: Handle)
    requires At(store, h).Some? ==> At(store, h).value.handle == h
    ensures var e := EffectOf(coll, opts, store, server, h);
            var stamp := mint.stamp(h);
            && Ending(At(store, h), Touching(EffectOps(coll, h, e, stamp), h))
               == EndRow(coll, opts, h, At(store, h), MemberAt(server, h), stamp)
            && ServedMember(MemberAt(server, h), e.push, stamp)
               == EndMember(coll, opts, At(store, h), MemberAt(server, h), stamp)
  {
    EffectEndsOn(coll, opts, h, At(store, h), MemberAt(server, h), mint.stamp(h));
    hide MergeOne, EffectOps, EndRow, EndMember, ServedMember, Touching, Ending;
  }
}

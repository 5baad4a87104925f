/** Whose row each write of a run is: a loaded row's own, under its own identity, the one its create was
  * assigned a handle for, or the fork of a row whose two bodies are both kept.
  */
module RunWrites {
  import opened Wrappers
  import opened Text
  import opened Placement
  import opened Change
  import opened Remote
  import opened Join
  import opened JoinLaws
  import opened MergeRules
  import opened SyncMachine
  import opened SyncInvariants
  import opened SyncRuns
  import opened DeltaSync
  import opened Storage
  import opened NoLoss
  import opened Acceptance
  import opened Rounds
  import opened OneHandle
  import opened RoundEnds

  /** The identity a body is forked under. */
  function ForkLink(body: Hash): LinkId {
    LinkId(KEEP_BOTH + body.text)
  }

  /** The fork of a row whose two bodies are both kept. */
  predicate ForkOf(opts: Options, row: Placement, dup: Placement) {
    && opts.conflict == KeepBoth && row.body.Some?
    && dup.handle == DupHandle(row.handle, row.body.value) && dup.linkId == Some(ForkLink(row.body.value))
    && dup.status == Created && dup.base.None? && dup.conflictRevision.None? && dup.body == row.body
  }

  lemma ContentFollows(coll: CollectionId, opts: Options, row: Placement, item: RemoteItem)
    ensures var (e, outcome) := ReconcileContent(coll, opts, row, item);
            && (forall op :: op in e.writes ==>
                  op.UpsertPlacement?
                  && (|| (op.placement.handle == row.handle && op.placement.linkId == row.linkId)
                      || ForkOf(opts, row, op.placement)))
            && (outcome.Rewritten? ==> outcome.row.handle == row.handle && outcome.row.linkId == row.linkId)
            && (e.push.Some? ==> e.push.value.pending == ContentPush(row))
  {
  }

  lemma FlagsFollow(opts: Options, row: Placement, item: RemoteItem, allow: PushFlags)
    ensures var e := ReconcileFlags(opts, row, item, allow);
            && (forall op :: op in e.writes ==>
                  op.UpsertPlacement? && op.placement.handle == row.handle && op.placement.linkId == row.linkId)
            && (e.push.Some? ==>
                  e.push.value.pending.FlagPush? && e.push.value.pending.row.handle == row.handle
                  && e.push.value.pending.row.linkId == row.linkId)
  {
    hide MergeFlags;
  }

  /** What a pending change carries of its row's identity. */
  predicate PendingFollows(pending: Pending, row: Placement) {
    match pending
    case FlagPush(r) => r.handle == row.handle && r.linkId == row.linkId
    case ContentPush(r) => r.handle == row.handle && r.linkId == row.linkId
    case DropPush => true
    case CreatePush(r) => r.handle == row.handle && r.linkId == row.linkId
  }

  /** A merge writes rows under its own handle, with its row's link id or none, but for the fork of a listed
    * row, and pushes for its row. */
  lemma MergeFollows(coll: CollectionId, opts: Options, c: Candidate)
    requires Paired(c)
    ensures var e := MergeOne(coll, opts, c);
            && (forall op :: op in e.writes && op.UpsertPlacement? ==>
                  || (&& op.placement.handle == c.handle
                      && (op.placement.linkId.Some? ==> c.local.Some? && op.placement.linkId == c.local.value.linkId))
                  || (c.local.Some? && c.remote.Some? && ForkOf(opts, c.local.value, op.placement)))
            && (e.push.Some? ==> c.local.Some? && PendingFollows(e.push.value.pending, c.local.value))
  {
    if c.local.Some? && c.remote.Some? && c.local.value.status != Tombstone {
      var row, item := c.local.value, c.remote.value;
      var (content, outcome) := ReconcileContent(coll, opts, row, item);
      var next, allow := if outcome.Rewritten? then outcome.row else row, if outcome.Pushed? then Withhold else Derive;
      ContentFollows(coll, opts, row, item);
      FlagsFollow(opts, next, item, allow);
      assert MergeOne(coll, opts, c) == content.Then(ReconcileFlags(opts, next, item, allow));
      hide ReconcileContent, ReconcileFlags, MergeOne;
    } else {
      hide MergeBoth;
    }
  }

  lemma {:induction false} MergeWrites(s: SyncState, cs: seq<Candidate>, op: WriteOp)
    requires op in AbsorbAll(s, cs).writes
    ensures op in s.writes || exists c :: c in cs && op in MergeOne(s.collection, s.opts, c).writes
    decreases |cs|
  {
    if cs != [] {
      var e := MergeOne(s.collection, s.opts, cs[0]);
      hide MergeOne;
      assert cs[0] in cs;
      MergeWrites(Absorb(s, e), cs[1..], op);
    }
  }

  /** A recording op is the op of one pushed change, settled on its own. */
  lemma {:induction false} RecordWrites(coll: CollectionId, p: Pendings, ks: seq<ChangeKind>, mint: Mint, op: WriteOp)
    requires Distinct(Handles(ks)) && op in RecordAll(coll, p, Results(ks, mint)).writes
    ensures exists k :: k in ks && op in RecordOne(coll, p, ResultOf(k, mint)).writes
    decreases |ks|
  {
    var one := RecordOne(coll, p, ResultOf(ks[0], mint));
    assert Results(ks, mint)[1..] == Results(ks[1..], mint);
    assert ks[0] in ks;
    if op !in one.writes {
      DistinctTail(ks);
      hide RecordOne;
      RecordWrites(coll, one.pendings, ks[1..], mint, op);
      var k :| k in ks[1..] && op in RecordOne(coll, one.pendings, ResultOf(k, mint)).writes;
      assert k in ks;
      RecordedApart(coll, p, ks, mint, k);
    }
  }

  lemma RecordFollows(coll: CollectionId, p: Pendings, row: Placement, pending: Pending, r: PushResult, op: WriteOp)
    requires OwedAt(p, r.handle) == OwedAt(NO_PENDINGS.Add(r.handle, pending), r.handle)
    requires PendingFollows(pending, row) && row.handle == r.handle
    requires op in RecordOne(coll, p, r).writes && op.UpsertPlacement?
    ensures op.placement.linkId == row.linkId
    ensures op.placement.handle == row.handle
            || (r.assignedHandle.Some? && r.assignedHandle.value == op.placement.handle
                                                  && pending.CreatePush?)
  {
    RecordReadsOwed(coll, p, NO_PENDINGS.Add(r.handle, pending), r);
    match pending {
      case FlagPush(_) =>
      case ContentPush(_) =>
      case DropPush =>
      case CreatePush(_) =>
    }
  }

  /** A written row's identity and place: its loaded row's, or the handle its create was assigned, or those
    * of the fork of a listed row. */
  ghost predicate Follows(coll: CollectionId, opts: Options, store: Rows, server: Server, mint: Mint, op: WriteOp) {
    op.UpsertPlacement? && op.placement.linkId.Some? ==>
      exists g :: g in store && FollowsFrom(coll, opts, store, server, mint, op, g)
  }

  ghost predicate FollowsFrom(coll: CollectionId, opts: Options, store: Rows, server: Server, mint: Mint, op: WriteOp,
                              g: Handle)
    requires op.UpsertPlacement? && g in store
  {
    || (store[g].linkId == op.placement.linkId
        && (op.placement.handle == g
            || (AddsAt(coll, opts, store, server, g) && mint.Names(g, op.placement.handle))))
    || (g in server && ForkOf(opts, store[g], op.placement))
  }

  /** So every row an accepted run writes carries the identity it was loaded with, or forks one. */
  lemma RunFollows(coll: CollectionId, opts: Options, listing: seq<Placement>, store: Rows, cursor: Option<Checkpoint>,
                   snapshot: Snapshot, server: Server, mint: Mint, answers: seq<seq<PushResult>>, op: WriteOp)
    requires Lists(listing, store) && Shows(snapshot, server)
    requires answers == Accepting(RunOf(coll, opts, listing, cursor, snapshot, answers).asked, mint)
    requires op in Ops(RunOf(coll, opts, listing, cursor, snapshot, answers).asked)
    ensures Follows(coll, opts, store, server, mint, op)
  {
    var t := Merged(coll, opts, listing, cursor, snapshot);
    if op.UpsertPlacement? && op.placement.linkId.Some? {
      hide RunOf, Merged, Accepting, Ops, Lists, Shows, RecordAll;
      AcceptedRun(coll, opts, listing, cursor, snapshot, answers, mint);
      if op in t.writes {
        MergedFollows(coll, opts, listing, store, cursor, snapshot, server, mint, op);
      } else {
        RecordedFollows(coll, opts, listing, store, cursor, snapshot, server, mint, op);
      }
    }
  }

  lemma MergedFollows(coll: CollectionId, opts: Options, listing: seq<Placement>, store: Rows,
                      cursor: Option<Checkpoint>, snapshot: Snapshot, server: Server, mint: Mint, op: WriteOp)
    requires Lists(listing, store) && Shows(snapshot, server)
    requires op in Merged(coll, opts, listing, cursor, snapshot).writes
    ensures Follows(coll, opts, store, server, mint, op)
  {
    var s := Opened(coll, opts, listing, cursor, snapshot);
    var cs := Todo(s.merging.value);
    assert s.writes == [] && s.collection == coll && s.opts == opts;
    hide Opened, Todo, MergeOne, AbsorbAll;
    MergeWrites(s, cs, op);
    var c :| c in cs && op in MergeOne(coll, opts, c).writes;
    FullCandidate(coll, opts, listing, store, cursor, snapshot, server, c.handle);
    CandidateIsFull(coll, opts, listing, store, cursor, snapshot, server, c);
    hide Lists, Shows;
    InAscending(cs, c);
    MergeFollows(coll, opts, c);
    hide AddsAt, ForkOf;
    var g := c.handle;
    if op.UpsertPlacement? && op.placement.linkId.Some? {
      assert g in store && FollowsFrom(coll, opts, store, server, mint, op, g);
    }
  }

  lemma RecordedFollows(coll: CollectionId, opts: Options, listing: seq<Placement>, store: Rows,
                        cursor: Option<Checkpoint>, snapshot: Snapshot, server: Server, mint: Mint, op: WriteOp)
    requires Lists(listing, store) && Shows(snapshot, server)
    requires var t := Merged(coll, opts, listing, cursor, snapshot);
             op in RecordAll(coll, t.pendings, Results(t.pushes, mint)).writes && op.UpsertPlacement?
    ensures Follows(coll, opts, store, server, mint, op)
  {
    var t := Merged(coll, opts, listing, cursor, snapshot);
    RowsOwn(listing, store);
    hide *;
    PushesDistinct(coll, opts, listing, store, cursor, snapshot, server);
    RecordWrites(coll, t.pendings, t.pushes, mint, op);
    var k :| k in t.pushes && op in RecordOne(coll, t.pendings, ResultOf(k, mint)).writes;
    PushIsOwn(coll, opts, listing, store, cursor, snapshot, server, k);
    MergedOwes(coll, opts, listing, store, cursor, snapshot, server, k.handle);
    OwnFollows(coll, opts, store, server, mint, t.pendings, k, op);
  }

  lemma OwnFollows(coll: CollectionId, opts: Options, store: Rows, server: Server, mint: Mint, p: Pendings,
                   k: ChangeKind, op: WriteOp)
    requires forall h :: h in store ==> store[h].handle == h
    requires var e := EffectOf(coll, opts, store, server, k.handle);
             && e.push.Some? && e.push.value.kind == k
             && OwedAt(p, k.handle) == OwedAt(NO_PENDINGS.Add(k.handle, e.push.value.pending), k.handle)
    requires op.UpsertPlacement? && op in RecordOne(coll, p, ResultOf(k, mint)).writes
    ensures Follows(coll, opts, store, server, mint, op)
  {
    var g := k.handle;
    EffectFollows(coll, opts, store, server, g);
    hide OwedAt, EffectOf, RecordOne, PendingFollows;
    RecordFollows(coll, p, store[g], EffectOf(coll, opts, store, server, g).push.value.pending, ResultOf(k, mint), op);
    assert k.Add? ==> AddsAt(coll, opts, store, server, g);
    hide AddsAt;
    assert op.placement.linkId.Some? ==> FollowsFrom(coll, opts, store, server, mint, op, g);
  }

  lemma EffectFollows(coll: CollectionId, opts: Options, store: Rows, server: Server, g: Handle)
    requires g in store ==> store[g].handle == g
    requires EffectOf(coll, opts, store, server, g).push.Some?
    ensures g in store && PendingFollows(EffectOf(coll, opts, store, server, g).push.value.pending, store[g])
  {
    MergeFollows(coll, opts, Candidate(g, At(store, g), Listing(g, MemberAt(server, g))));
    hide MergeOne;
  }

  lemma {:induction false} MergeHas(s: SyncState, cs: seq<Candidate>, c: Candidate, op: WriteOp)
    requires c in cs && op in MergeOne(s.collection, s.opts, c).writes
    ensures op in AbsorbAll(s, cs).writes
    decreases |cs|
  {
    hide MergeOne;
    var t := Absorb(s, MergeOne(s.collection, s.opts, cs[0]));
    if cs[0] == c {
      MergeKeeps(t, cs[1..], op);
    } else {
      MergeHas(t, cs[1..], c, op);
    }
  }

  lemma {:induction false} MergeKeeps(s: SyncState, cs: seq<Candidate>, op: WriteOp)
    requires op in s.writes
    ensures op in AbsorbAll(s, cs).writes
    decreases |cs|
  {
    if cs != [] {
      hide MergeOne;
      MergeKeeps(Absorb(s, MergeOne(s.collection, s.opts, cs[0])), cs[1..], op);
    }
  }

  /** What a handle's merge writes, its run writes. */
  lemma EffectIsWritten(coll: CollectionId, opts: Options, listing: seq<Placement>, store: Rows,
                        cursor: Option<Checkpoint>, snapshot: Snapshot, server: Server, mint: Mint,
                        answers: seq<seq<PushResult>>, g: Handle, op: WriteOp)
    requires Lists(listing, store) && Shows(snapshot, server) && (g in store || g in server)
    requires answers == Accepting(RunOf(coll, opts, listing, cursor, snapshot, answers).asked, mint)
    requires op in EffectOf(coll, opts, store, server, g).writes
    ensures op in Ops(RunOf(coll, opts, listing, cursor, snapshot, answers).asked)
  {
    var s := Opened(coll, opts, listing, cursor, snapshot);
    var cs := Todo(s.merging.value);
    assert s.collection == coll && s.opts == opts;
    FullCandidate(coll, opts, listing, store, cursor, snapshot, server, g);
    hide Opened, Todo, MergeOne, AbsorbAll, Lists, Shows, RunOf, Accepting, Ops;
    var c := CandidateAt(cs, g).value;
    AtIsIn(cs, g);
    MergeHas(s, cs, c, op);
    AcceptedRun(coll, opts, listing, cursor, snapshot, answers, mint);
  }

  lemma AtIsIn(cs: seq<Candidate>, g: Handle)
    requires CandidateAt(cs, g).Some?
    ensures CandidateAt(cs, g).value in cs && CandidateAt(cs, g).value.handle == g
  {
  }

  lemma DropsOwn(coll: CollectionId, opts: Options, c: Candidate)
    requires Paired(c)
    ensures forall op ::
            op in MergeOne(coll, opts, c).writes && op.DropPlacement? ==> op.handle == c.handle && c.local.Some?
  {
    if c.local.Some? && c.remote.Some? && c.local.value.status != Tombstone {
      MergeFollows(coll, opts, c);
      BothUpserts(coll, opts, c.local.value, c.remote.value);
      hide MergeBoth;
    } else {
      hide MergeBoth;
    }
  }

  lemma BothUpserts(coll: CollectionId, opts: Options, row: Placement, item: RemoteItem)
    ensures forall op :: op in MergeBoth(coll, opts, row, item).writes ==> op.UpsertPlacement?
  {
    var (content, outcome) := ReconcileContent(coll, opts, row, item);
    var next, allow := if outcome.Rewritten? then outcome.row else row, if outcome.Pushed? then Withhold else Derive;
    ContentFollows(coll, opts, row, item);
    FlagsFollow(opts, next, item, allow);
    assert MergeBoth(coll, opts, row, item) == content.Then(ReconcileFlags(opts, next, item, allow));
    hide ReconcileContent, ReconcileFlags;
  }

  lemma RecordDrops(coll: CollectionId, p: Pendings, r: PushResult)
    ensures forall op :: op in RecordOne(coll, p, r).writes && op.DropPlacement? && Keyed(p) ==> op.handle == r.handle
  {
  }

  /** A run drops rows it was loaded with, and no other. */
  lemma DropsAreLoaded(coll: CollectionId, opts: Options, listing: seq<Placement>, store: Rows,
                       cursor: Option<Checkpoint>, snapshot: Snapshot, server: Server, mint: Mint,
                       answers: seq<seq<PushResult>>, op: WriteOp)
    requires Lists(listing, store) && Shows(snapshot, server)
    requires answers == Accepting(RunOf(coll, opts, listing, cursor, snapshot, answers).asked, mint)
    requires op in Ops(RunOf(coll, opts, listing, cursor, snapshot, answers).asked) && op.DropPlacement?
    ensures op.handle in store
  {
    var t := Merged(coll, opts, listing, cursor, snapshot);
    RowsOwn(listing, store);
    hide RunOf, Merged, Accepting, Ops, Lists, Shows, RecordAll;
    AcceptedRun(coll, opts, listing, cursor, snapshot, answers, mint);
    if op in t.writes {
      MergedDrops(coll, opts, listing, store, cursor, snapshot, server, op);
    } else {
      PushesDistinct(coll, opts, listing, store, cursor, snapshot, server);
      RecordWrites(coll, t.pendings, t.pushes, mint, op);
      var k :| k in t.pushes && op in RecordOne(coll, t.pendings, ResultOf(k, mint)).writes;
      MergedIsKeyed(coll, opts, listing, store, cursor, snapshot, server);
      RecordDrops(coll, t.pendings, ResultOf(k, mint));
      PushIsOwn(coll, opts, listing, store, cursor, snapshot, server, k);
      hide RecordOne, EffectOf, Keyed;
      EffectFollows(coll, opts, store, server, k.handle);
    }
  }

  lemma MergedDrops(coll: CollectionId, opts: Options, listing: seq<Placement>, store: Rows,
                    cursor: Option<Checkpoint>, snapshot: Snapshot, server: Server, op: WriteOp)
    requires Lists(listing, store) && Shows(snapshot, server)
    requires op in Merged(coll, opts, listing, cursor, snapshot).writes && op.DropPlacement?
    ensures op.handle in store
  {
    var s := Opened(coll, opts, listing, cursor, snapshot);
    var cs := Todo(s.merging.value);
    assert s.writes == [] && s.collection == coll && s.opts == opts;
    hide Opened, Todo, MergeOne, AbsorbAll;
    MergeWrites(s, cs, op);
    var c :| c in cs && op in MergeOne(coll, opts, c).writes;
    FullCandidate(coll, opts, listing, store, cursor, snapshot, server, c.handle);
    CandidateIsFull(coll, opts, listing, store, cursor, snapshot, server, c);
    hide Lists, Shows;
    InAscending(cs, c);
    DropsOwn(coll, opts, c);
  }

  /** A row never based, tracking nothing: a fork, or what is left of an edited row deleted elsewhere. */
  predicate Loose(row: Placement, h: Handle) {
    row.handle == h && row.status == Created && row.base.None? && row.conflictRevision.None?
  }

  predicate LeavesLoose(op: WriteOp, h: Handle) {
    Touches(op, h) ==> Left(op).None? || Loose(Left(op).value, h)
  }

  /** What any merge writes of an unlisted handle is loose. */
  lemma MergeLeavesLoose(coll: CollectionId, opts: Options, c: Candidate, h: Handle)
    requires Paired(c) && (c.handle == h ==> c.remote.None?)
    ensures forall op :: op in MergeOne(coll, opts, c).writes ==> LeavesLoose(op, h)
  {
    if c.handle == h {
      hide MergeBoth, MergeTombstone;
    } else {
      MergeFollows(coll, opts, c);
      DropsOwn(coll, opts, c);
      hide MergeOne;
    }
  }

  /** So is what the recording of one change does to a handle the server neither lists nor assigns. */
  lemma RecordLeavesLoose(coll: CollectionId, p: Pendings, k: ChangeKind, mint: Mint, h: Handle)
    requires Keyed(p) && Separate(p)
    requires k.handle == h ==> k.Add? && (h in p.Domain() ==> h in p.creates)
    requires k.Add? ==> !mint.Names(k.handle, h)
    ensures forall op :: op in RecordOne(coll, p, ResultOf(k, mint)).writes ==> LeavesLoose(op, h)
  {
    if k.handle != h {
      RecordWithin(coll, p, ResultOf(k, mint));
      hide RecordOne;
    }
  }

  /** A handle another's fork writes, neither listed nor assigned, ends on a loose row, or on none. */
  lemma ForkedEndsLoose(coll: CollectionId, opts: Options, listing: seq<Placement>, store: Rows,
                        cursor: Option<Checkpoint>, snapshot: Snapshot, server: Server, mint: Mint,
                        answers: seq<seq<PushResult>>, h: Handle)
    requires Lists(listing, store) && Shows(snapshot, server) && !Alone(coll, opts, store, server, h)
    requires h !in server && Unminted(coll, opts, store, server, mint, h)
    requires answers == Accepting(RunOf(coll, opts, listing, cursor, snapshot, answers).asked, mint)
    ensures var end := At(Apply(store, Ops(RunOf(coll, opts, listing, cursor, snapshot, answers).asked)), h);
            end.Some? ==> Loose(end.value, h)
  {
    var ops := Ops(RunOf(coll, opts, listing, cursor, snapshot, answers).asked);
    var g :| g != h && Touching(EffectOf(coll, opts, store, server, g).writes, h) != [];
    var first := Touching(EffectOf(coll, opts, store, server, g).writes, h)[0];
    TouchingHas(EffectOf(coll, opts, store, server, g).writes, h, first);
    EffectIsHeld(coll, opts, store, server, g);
    hide RunOf, Ops, Lists, Shows, Accepting, EffectOf, Alone, Unminted, Loose, AddsAt;
    EffectIsWritten(coll, opts, listing, store, cursor, snapshot, server, mint, answers, g, first);
    LastTouch(store, ops, h);
    var last :| last in ops && Touches(last, h) && At(Apply(store, ops), h) == Left(last);
    RunLeavesLoose(coll, opts, listing, store, cursor, snapshot, server, mint, answers, h, last);
  }

  lemma EffectIsHeld(coll: CollectionId, opts: Options, store: Rows, server: Server, g: Handle)
    ensures EffectOf(coll, opts, store, server, g).writes != [] ==> g in store || g in server
  {
    hide MergeBoth, MergeTombstone, MergeRemoteDelete, PullAdd;
  }

  lemma RunLeavesLoose(coll: CollectionId, opts: Options, listing: seq<Placement>, store: Rows,
                       cursor: Option<Checkpoint>, snapshot: Snapshot, server: Server, mint: Mint,
                       answers: seq<seq<PushResult>>, h: Handle, op: WriteOp)
    requires Lists(listing, store) && Shows(snapshot, server)
    requires h !in server && Unminted(coll, opts, store, server, mint, h)
    requires answers == Accepting(RunOf(coll, opts, listing, cursor, snapshot, answers).asked, mint)
    requires op in Ops(RunOf(coll, opts, listing, cursor, snapshot, answers).asked)
    ensures LeavesLoose(op, h)
  {
    var t := Merged(coll, opts, listing, cursor, snapshot);
    hide RunOf, Merged, Accepting, Ops, Lists, Shows, RecordAll, Unminted, Loose;
    AcceptedRun(coll, opts, listing, cursor, snapshot, answers, mint);
    if op in t.writes {
      MergedLoose(coll, opts, listing, store, cursor, snapshot, server, h, op);
    } else if !op.SetCheckpoint? {
      RecordedLoose(coll, opts, listing, store, cursor, snapshot, server, mint, h, op);
    }
  }

  lemma MergedLoose(coll: CollectionId, opts: Options, listing: seq<Placement>, store: Rows,
                    cursor: Option<Checkpoint>, snapshot: Snapshot, server: Server, h: Handle, op: WriteOp)
    requires Lists(listing, store) && Shows(snapshot, server) && h !in server
    requires op in Merged(coll, opts, listing, cursor, snapshot).writes
    ensures LeavesLoose(op, h)
  {
    var s := Opened(coll, opts, listing, cursor, snapshot);
    var cs := Todo(s.merging.value);
    assert s.writes == [] && s.collection == coll && s.opts == opts;
    hide Opened, Todo, MergeOne, AbsorbAll, LeavesLoose;
    MergeWrites(s, cs, op);
    var c :| c in cs && op in MergeOne(coll, opts, c).writes;
    FullCandidate(coll, opts, listing, store, cursor, snapshot, server, c.handle);
    CandidateIsFull(coll, opts, listing, store, cursor, snapshot, server, c);
    hide Lists, Shows;
    InAscending(cs, c);
    MergeLeavesLoose(coll, opts, c, h);
  }

  lemma RecordedLoose(coll: CollectionId, opts: Options, listing: seq<Placement>, store: Rows,
                      cursor: Option<Checkpoint>, snapshot: Snapshot, server: Server, mint: Mint, h: Handle,
                      op: WriteOp)
    requires Lists(listing, store) && Shows(snapshot, server)
    requires h !in server && Unminted(coll, opts, store, server, mint, h)
    requires var t := Merged(coll, opts, listing, cursor, snapshot);
             op in RecordAll(coll, t.pendings, Results(t.pushes, mint)).writes
    ensures LeavesLoose(op, h)
  {
    var t := Merged(coll, opts, listing, cursor, snapshot);
    UnlistedPushesAdds(coll, opts, store, server, mint, h);
    hide *;
    PushesDistinct(coll, opts, listing, store, cursor, snapshot, server);
    RecordWrites(coll, t.pendings, t.pushes, mint, op);
    var k :| k in t.pushes && op in RecordOne(coll, t.pendings, ResultOf(k, mint)).writes;
    PushIsOwn(coll, opts, listing, store, cursor, snapshot, server, k);
    MergedOwes(coll, opts, listing, store, cursor, snapshot, server, h);
    MergedIsKeyed(coll, opts, listing, store, cursor, snapshot, server);
    if k.handle == h {
      var pending := EffectOf(coll, opts, store, server, h).push.value.pending;
      assert k.Add? && pending.CreatePush?;
      OwesCreate(t.pendings, h, pending);
    } else if k.Add? {
      UnmintedIs(coll, opts, store, server, mint, h, k);
    }
    RecordLeavesLoose(coll, t.pendings, k, mint, h);
  }

  lemma UnlistedPushesAdds(coll: CollectionId, opts: Options, store: Rows, server: Server, mint: Mint, h: Handle)
    requires h !in server && Unminted(coll, opts, store, server, mint, h)
    ensures var e := EffectOf(coll, opts, store, server, h);
            e.push.Some? ==> e.push.value.kind.Add? && e.push.value.pending.CreatePush?
                             && (e.push.value.kind.handle == h ==> !mint.Names(h, h))
  {
    AddsNotOwn(coll, opts, store, server, mint, h);
    hide MergeBoth, MergeTombstone;
  }

  lemma UnmintedIs(coll: CollectionId, opts: Options, store: Rows, server: Server, mint: Mint, h: Handle, k: ChangeKind)
    requires Unminted(coll, opts, store, server, mint, h) && k.Add?
    requires var e := EffectOf(coll, opts, store, server, k.handle); e.push.Some? && e.push.value.kind == k
    ensures !mint.Names(k.handle, h)
  {
    hide EffectOf;
    assert AddsAt(coll, opts, store, server, k.handle);
  }

  lemma OwesCreate(p: Pendings, h: Handle, pending: Pending)
    requires pending.CreatePush? && OwedAt(p, h) == OwedAt(NO_PENDINGS.Add(h, pending), h)
    ensures h in p.creates
  {
    OwedCreate(p, h, pending.row);
  }

  /** Handles forks are made up under are none the server lists or assigns. */
  ghost predicate FreshForks(coll: CollectionId, opts: Options, store: Rows, server: Server, mint: Mint) {
    opts.conflict == KeepBoth ==>
      forall g :: g in store && g in server && store[g].body.Some? ==>
        FreshFork(coll, opts, store, server, mint, DupHandle(g, store[g].body.value))
  }

  ghost predicate FreshFork(coll: CollectionId, opts: Options, store: Rows, server: Server, mint: Mint, d: Handle) {
    d !in server && Unminted(coll, opts, store, server, mint, d)
  }

  /** So a handle some fork writes is neither. */
  lemma ForkedIsFresh(coll: CollectionId, opts: Options, store: Rows, server: Server, mint: Mint, h: Handle)
    requires FreshForks(coll, opts, store, server, mint) && forall g :: g in store ==> store[g].handle == g
    ensures Alone(coll, opts, store, server, h) || FreshFork(coll, opts, store, server, mint, h)
  {
    hide FreshFork, Alone;
    if !FreshFork(coll, opts, store, server, mint, h) { UnforkedIsAlone(coll, opts, store, server, h); }
  }

  /** A member served is one there was, or one assigned. */
  lemma {:induction false} ServedHas(server: Server, ks: seq<ChangeKind>, mint: Mint, h: Handle)
    requires h in Serve(server, ks, mint)
    ensures h in server || exists k :: k in ks && k.Add? && mint.Names(k.handle, h)
    decreases |ks|
  {
    if ks != [] {
      assert ks[0] in ks && forall k :: k in ks[1..] ==> k in ks;
      ServedHas(ServeOne(server, ks[0], mint), ks[1..], mint, h);
    }
  }

  lemma RowsOwn(listing: seq<Placement>, store: Rows)
    requires Lists(listing, store)
    ensures forall h :: h in store ==> store[h].handle == h
  {
    forall h | h in store ensures store[h].handle == h {
      RowIsOwn(listing, store, h);
    }
  }
}

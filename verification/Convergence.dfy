/** One full run against an accepting remote brings both sides together when no edit of a body is
  * staged on a based row, and the next one finds nothing to do.
  */
module Convergence {
  import opened Wrappers
  import opened Placement
  import opened Change
  import opened Remote
  import opened Join
  import opened JoinLaws
  import opened MergeRules
  import opened SyncMachine
  import opened SyncInvariants
  import opened SyncRuns
  import opened DeltaSync
  import opened Storage
  import opened NoLoss
  import opened Acceptance
  import opened Rounds
  import opened OneHandle
  import opened RoundEnds
  import FlagLaws

  /** A run that may push everything but content. */
  predicate Unrestricted(opts: Options) {
    opts.MayFlags() && opts.MayAdd() && opts.MayRemove()
  }

  /** A row with no body to push: based unless it is a pending create, in no conflict, and with no
    * edit staged on its base. */
  predicate Settleable(row: Placement) {
    && (row.base.None? <==> row.status == Created)
    && row.status != Conflict
    && (row.base.Some? && row.status != Clean ==> row.StagedEdit().None?)
  }

  /** Rows under their own handles, each with no body to push, and no create listed with content of
    * its own under the handle it waits on. */
  ghost predicate Reconcilable(store: Rows, server: Server) {
    forall h :: h in store ==>
      && store[h].handle == h && Settleable(store[h])
      && (store[h].base.None? && h in server ==> server[h].revision.None?)
  }

  /** A pending create the server does not list: it ends under the handle it is assigned. */
  ghost predicate CreatesAt(store: Rows, server: Server, h: Handle) {
    h in store && h !in server && store[h].status == Created
  }

  /** The server assigns each create a new handle, and none twice. */
  ghost predicate FreshMint(store: Rows, server: Server, mint: Mint) {
    && (forall g :: CreatesAt(store, server, g) ==>
          mint.name(g).Some? && mint.name(g).value !in store && mint.name(g).value !in server)
    && (forall g, h :: CreatesAt(store, server, g) && CreatesAt(store, server, h) && g != h ==>
          mint.name(g).Some? ==> !mint.Names(h, mint.name(g).value))
  }

  /** The flags both sides end a handle on, or none where they end without it: what both hold merged, a
    * removal winning unless the remote's content has moved since. */
  function FinalFlags(local: Option<Placement>, m: Option<Member>): Option<Flags> {
    if m.None? then None
    else if local.None? || local.value.base.None? then Some(m.value.flags)
    else if local.value.status == Tombstone then
      if TakenBack(local.value, m.value.revision) then Some(m.value.flags) else None
    else Some(MergeFlags(local.value.base.value.flags, local.value.flags, m.value.flags))
  }

  /** The row a handle ends on: pulled if it is new or taken back, else rebased on the final flags, its
    * body let go of if the remote's has moved. */
  function FinalRow(coll: CollectionId, h: Handle, local: Option<Placement>, m: Option<Member>): Option<Placement> {
    var flags := FinalFlags(local, m);
    if flags.None? then None
    else
      var item := RemoteItem(h, flags.value, m.value.revision);
      if local.None? || local.value.status == Tombstone then Some(PulledRow(coll, item))
      else if local.value.base.Some? && TakenBack(local.value, m.value.revision)
      then Some(FlagsPulledRow(RefreshedRow(local.value, item), flags.value))
      else Some(FlagsPulledRow(local.value, flags.value))
  }

  /** The content axis of a row with no body to push: nothing, or the remote's newer content. */
  lemma SettleableContent(coll: CollectionId, opts: Options, row: Placement, item: RemoteItem)
    requires Settleable(row) && row.status != Tombstone && (row.base.None? ==> item.revision.None?)
    ensures !PushesBody(coll, opts, row, item)
    ensures ContentRow(coll, opts, row, item)
            == if row.base.Some? && TakenBack(row, item.revision) then RefreshedRow(row, item) else row
    ensures ReconcileContent(coll, opts, row, item).0.writes
            == if row.base.Some? && TakenBack(row, item.revision)
               then [UpsertPlacement(RefreshedRow(row, item))] else []
  {
  }

  /** With every flag push accepted, the flag axis leaves the merged set on the row and its base. */
  lemma SettleableFlags(opts: Options, row: Placement, item: RemoteItem)
    requires opts.MayFlags() && (row.base.Some? && row.status != Clean ==> row.StagedEdit().None?)
    requires row.base.Some? ==> row.status != Created && row.status != Conflict && row.status != Tombstone
    ensures var flags := if row.base.None? then item.flags else MergeFlags(row.base.value.flags, row.flags, item.flags);
            FlagsRow(opts, row, item) == FlagsPulledRow(row, flags) && FlagsLeft(opts, row, item) == flags
  {
    hide MergeFlags;
  }

  /** An accepted round settles a handle no create waits on. */
  lemma SettledEnds(coll: CollectionId, opts: Options, h: Handle, local: Option<Placement>, m: Option<Member>,
                    stamp: Option<Revision>)
    requires Unrestricted(opts)
    requires local.Some? ==> local.value.handle == h && Settleable(local.value)
    requires local.Some? && local.value.base.None? && m.Some? ==> m.value.revision.None?
    requires local.Some? && local.value.status == Created ==> m.Some?
    ensures EndRow(coll, opts, h, local, m, stamp) == FinalRow(coll, h, local, m)
    ensures EndMember(coll, opts, local, m, stamp)
            == if FinalFlags(local, m).Some? then Some(m.value.(flags := FinalFlags(local, m).value)) else None
  {
    if local.Some? && m.Some? && local.value.status != Tombstone {
      var item := RemoteItem(h, m.value.flags, m.value.revision);
      SettleableContent(coll, opts, local.value, item);
      var left := ContentRow(coll, opts, local.value, item);
      SettleableFlags(opts, left, item);
      hide ContentRow, PushesBody, FlagsRow, FlagsLeft, MergeFlags, FlagsPulledRow;
    } else {
      hide BothRow, BothMember, MergeFlags;
    }
  }

  /** A settleable row's merge derives its own change alone: no body, and an add only for a create. */
  lemma SettleableMerges(coll: CollectionId, opts: Options, store: Rows, server: Server, h: Handle)
    requires Unrestricted(opts) && Reconcilable(store, server)
    ensures var e := EffectOf(coll, opts, store, server, h);
            && Within(e.writes, {h})
            && (CreatesAt(store, server, h) <==> AddsAt(coll, opts, store, server, h))
            && (CreatesAt(store, server, h) ==> e == PushAdd(store[h]))
  {
    if h in store && h in server && store[h].status != Tombstone {
      var row, item := store[h], RemoteItem(h, server[h].flags, server[h].revision);
      SettleableContent(coll, opts, row, item);
      BothEnd(coll, opts, row, server[h], None);
      var left := ContentRow(coll, opts, row, item);
      FlagsWithin(opts, left, item, Derive, {h});
      hide ReconcileContent, ReconcileFlags, MergeFlags, BothRow, BothMember, ServedMember, RefreshedRow;
    } else {
      hide MergeBoth, MergeFlags;
    }
  }

  /** So every handle is alone, and the handles assigned are those of its creates. */
  lemma SettleableIsAlone(coll: CollectionId, opts: Options, store: Rows, server: Server, mint: Mint, h: Handle)
    requires Unrestricted(opts) && Reconcilable(store, server) && FreshMint(store, server, mint)
    ensures Alone(coll, opts, store, server, h) && FreshNames(coll, opts, store, server, mint)
    ensures (forall g :: CreatesAt(store, server, g) ==> !mint.Names(g, h))
            ==> Unminted(coll, opts, store, server, mint, h)
  {
    hide Reconcilable;
    forall g ensures CreatesAt(store, server, g) <==> AddsAt(coll, opts, store, server, g)
             ensures g != h ==> Touching(EffectOf(coll, opts, store, server, g).writes, h) == [] {
      SettleableMerges(coll, opts, store, server, g);
      if g != h { TouchingNone(EffectOf(coll, opts, store, server, g).writes, {g}, h); }
    }
    hide EffectOf, AddsAt, CreatesAt;
  }

  /** What an accepted full run leaves under a handle no create is assigned: its final state. */
  lemma RunSettles(coll: CollectionId, opts: Options, listing: seq<Placement>, store: Rows, cursor: Option<Checkpoint>,
                   snapshot: Snapshot, server: Server, mint: Mint, answers: seq<seq<PushResult>>, h: Handle)
    requires Lists(listing, store) && Shows(snapshot, server) && Reconcilable(store, server) && Unrestricted(opts)
    requires FreshMint(store, server, mint) && forall g :: CreatesAt(store, server, g) ==> !mint.Names(g, h)
    requires answers == Accepting(RunOf(coll, opts, listing, cursor, snapshot, answers).asked, mint)
    ensures var run := RunOf(coll, opts, listing, cursor, snapshot, answers);
            var row := FinalRow(coll, h, At(store, h), MemberAt(server, h));
            var flags := FinalFlags(At(store, h), MemberAt(server, h));
            && At(Apply(store, Ops(run.asked)), h) == row
            && MemberAt(Serve(server, Sent(run.asked), mint), h)
               == if flags.Some? then Some(server[h].(flags := flags.value)) else None
  {
    SettleableIsAlone(coll, opts, store, server, mint, h);
    var local, m := At(store, h), MemberAt(server, h);
    FlagsOfMember(local, m);
    if local.Some? && local.value.status == Created && m.None? {
      CreateLeaves(coll, opts, h, local.value, mint.stamp(h));
    } else {
      SettledEnds(coll, opts, h, local, m, mint.stamp(h));
    }
    hide *;
    RunEnds(coll, opts, listing, store, cursor, snapshot, server, mint, answers, h);
  }

  lemma FlagsOfMember(local: Option<Placement>, m: Option<Member>)
    ensures FinalFlags(local, m).Some? ==> m.Some?
  {
  }

  /** A create leaves nothing under the handle it waited on. */
  lemma CreateLeaves(coll: CollectionId, opts: Options, h: Handle, row: Placement, stamp: Option<Revision>)
    requires opts.MayAdd() && row.handle == h && row.status == Created && row.base.None?
    ensures EndRow(coll, opts, h, Some(row), None, stamp) == FinalRow(coll, h, Some(row), None) == None
    ensures EndMember(coll, opts, Some(row), None, stamp) == None && FinalFlags(Some(row), None) == None
  {
  }

  /** A create ends under the handle it was assigned, with its flags and its body on both sides. */
  lemma CreateSettles(coll: CollectionId, opts: Options, listing: seq<Placement>, store: Rows,
                      cursor: Option<Checkpoint>, snapshot: Snapshot, server: Server, mint: Mint,
                      answers: seq<seq<PushResult>>, g: Handle)
    requires Lists(listing, store) && Shows(snapshot, server) && Reconcilable(store, server) && Unrestricted(opts)
    requires FreshMint(store, server, mint) && CreatesAt(store, server, g)
    requires answers == Accepting(RunOf(coll, opts, listing, cursor, snapshot, answers).asked, mint)
    ensures var run := RunOf(coll, opts, listing, cursor, snapshot, answers);
            var a := mint.name(g);
            && a.Some?
            && At(Apply(store, Ops(run.asked)), a.value) == Some(PlacedRow(store[g], a.value, mint.stamp(g)))
            && MemberAt(Serve(server, Sent(run.asked), mint), a.value)
               == Some(Member(store[g].flags, mint.stamp(g), store[g].body))
  {
    var a := mint.name(g).value;
    var run := RunOf(coll, opts, listing, cursor, snapshot, answers);
    SettleableIsAlone(coll, opts, store, server, mint, g);
    SettleableIsAlone(coll, opts, store, server, mint, a);
    SettleableMerges(coll, opts, store, server, g);
    hide EffectOf, AddsAt, Alone, FreshNames, FreshMint, Reconcilable, Lists, Shows, RunOf, Touching, Accepting,
         PlacedRow, Apply, Serve;
    CreateTouches(coll, opts, listing, store, cursor, snapshot, server, mint, answers, g, a);
    ApplyEnds(store, Ops(run.asked), a);
    hide Ops, Sent;
  }

  /** Both sides hold the same handles, each row clean and its flags and revision those of its base and
    * of the server. */
  ghost predicate InStep(store: Rows, server: Server) {
    && (forall h :: h in store <==> h in server)
    && (forall h :: h in store ==> AgreesWith(store[h], h, server[h]))
  }

  predicate AgreesWith(row: Placement, h: Handle, m: Member) {
    && row.handle == h && row.status == Clean && row.flags == m.flags
    && row.base.Some? && row.base.value.flags == m.flags
    && (m.revision.None? || m.revision == row.base.value.revision)
  }

  /** After one accepted full run the two sides are in step: new members pulled, changed content let go
    * of to be fetched again, members either side deleted gone from both, flags merged three ways, and
    * each create under the handle it was assigned, its body its base. */
  lemma RunConverges(coll: CollectionId, opts: Options, listing: seq<Placement>, store: Rows,
                     cursor: Option<Checkpoint>, snapshot: Snapshot, server: Server, mint: Mint,
                     answers: seq<seq<PushResult>>)
    requires Lists(listing, store) && Shows(snapshot, server) && Reconcilable(store, server) && Unrestricted(opts)
    requires FreshMint(store, server, mint)
    requires answers == Accepting(RunOf(coll, opts, listing, cursor, snapshot, answers).asked, mint)
    ensures var run := RunOf(coll, opts, listing, cursor, snapshot, answers);
            var after, served := Apply(store, Ops(run.asked)), Serve(server, Sent(run.asked), mint);
            && InStep(after, served)
            && (forall h :: (forall g :: CreatesAt(store, server, g) ==> !mint.Names(g, h)) ==>
                  At(after, h) == FinalRow(coll, h, At(store, h), MemberAt(server, h)))
            && (forall g :: CreatesAt(store, server, g) ==>
                  && mint.name(g).Some?
                  && At(after, mint.name(g).value) == Some(PlacedRow(store[g], mint.name(g).value, mint.stamp(g))))
  {
    assert forall g :: CreatesAt(store, server, g) ==> g in store;
    var run := RunOf(coll, opts, listing, cursor, snapshot, answers);
    var after, served := Apply(store, Ops(run.asked)), Serve(server, Sent(run.asked), mint);
    hide Lists, Shows, Reconcilable, Unrestricted, FreshMint, RunOf, Accepting, Apply, Serve, Ops, Sent, FinalRow,
         PlacedRow, CreatesAt, AgreeAt, InStep;
    forall h | forall g :: CreatesAt(store, server, g) ==> !mint.Names(g, h)
      ensures At(after, h) == FinalRow(coll, h, At(store, h), MemberAt(server, h))
    {
      HandleConverges(coll, opts, listing, store, cursor, snapshot, server, mint, answers, h);
    }
    forall g | CreatesAt(store, server, g)
      ensures mint.name(g).Some?
      ensures At(after, mint.name(g).value) == Some(PlacedRow(store[g], mint.name(g).value, mint.stamp(g)))
    {
      CreateConverges(coll, opts, listing, store, cursor, snapshot, server, mint, answers, g);
    }
    forall h ensures AgreeAt(after, served, h) {
      if g :| CreatesAt(store, server, g) && mint.Names(g, h) {
        CreateConverges(coll, opts, listing, store, cursor, snapshot, server, mint, answers, g);
      } else {
        HandleConverges(coll, opts, listing, store, cursor, snapshot, server, mint, answers, h);
      }
    }
    AgreeingIsInStep(after, served);
  }

  /** A handle no create is assigned ends on its final row, in step. */
  lemma HandleConverges(coll: CollectionId, opts: Options, listing: seq<Placement>, store: Rows,
                        cursor: Option<Checkpoint>, snapshot: Snapshot, server: Server, mint: Mint,
                        answers: seq<seq<PushResult>>, h: Handle)
    requires Lists(listing, store) && Shows(snapshot, server) && Reconcilable(store, server) && Unrestricted(opts)
    requires FreshMint(store, server, mint) && forall g :: CreatesAt(store, server, g) ==> !mint.Names(g, h)
    requires answers == Accepting(RunOf(coll, opts, listing, cursor, snapshot, answers).asked, mint)
    ensures var run := RunOf(coll, opts, listing, cursor, snapshot, answers);
            var after, served := Apply(store, Ops(run.asked)), Serve(server, Sent(run.asked), mint);
            && At(after, h) == FinalRow(coll, h, At(store, h), MemberAt(server, h))
            && AgreeAt(after, served, h)
  {
    hide *;
    RunSettles(coll, opts, listing, store, cursor, snapshot, server, mint, answers, h);
    FinalAgrees(coll, store, server, h);
    var run := RunOf(coll, opts, listing, cursor, snapshot, answers);
    EndsAgreeing(Apply(store, Ops(run.asked)), Serve(server, Sent(run.asked), mint), h);
  }

  /** And one a create is assigned, on the create. */
  lemma CreateConverges(coll: CollectionId, opts: Options, listing: seq<Placement>, store: Rows,
                        cursor: Option<Checkpoint>, snapshot: Snapshot, server: Server, mint: Mint,
                        answers: seq<seq<PushResult>>, g: Handle)
    requires Lists(listing, store) && Shows(snapshot, server) && Reconcilable(store, server) && Unrestricted(opts)
    requires FreshMint(store, server, mint) && CreatesAt(store, server, g)
    requires answers == Accepting(RunOf(coll, opts, listing, cursor, snapshot, answers).asked, mint)
    ensures g in store
    ensures var run := RunOf(coll, opts, listing, cursor, snapshot, answers);
            var after, served := Apply(store, Ops(run.asked)), Serve(server, Sent(run.asked), mint);
            var a := mint.name(g);
            && a.Some? && At(after, a.value) == Some(PlacedRow(store[g], a.value, mint.stamp(g)))
            && AgreeAt(after, served, a.value)
  {
    assert g in store;
    hide *;
    CreateSettles(coll, opts, listing, store, cursor, snapshot, server, mint, answers, g);
    var a := mint.name(g).value;
    PlacedAgrees(store[g], a, mint.stamp(g));
    var run := RunOf(coll, opts, listing, cursor, snapshot, answers);
    EndsAgreeing(Apply(store, Ops(run.asked)), Serve(server, Sent(run.asked), mint), a);
  }

  lemma EndsAgreeing(store: Rows, server: Server, h: Handle)
    requires At(store, h).Some? <==> MemberAt(server, h).Some?
    requires At(store, h).Some? ==> AgreesWith(At(store, h).value, h, MemberAt(server, h).value)
    ensures AgreeAt(store, server, h)
  {
  }

  lemma AgreeingIsInStep(store: Rows, server: Server)
    requires forall h :: AgreeAt(store, server, h)
    ensures InStep(store, server)
  {
    hide AgreesWith;
    assert forall h :: AgreeAt(store, server, h) ==>
             (h in store <==> h in server) && (h in store ==> AgreesWith(store[h], h, server[h]));
  }

  predicate AgreeAt(store: Rows, server: Server, h: Handle) {
    (h in store <==> h in server) && (h in store ==> AgreesWith(store[h], h, server[h]))
  }

  lemma PlacedAgrees(row: Placement, h: Handle, stamp: Option<Revision>)
    ensures AgreesWith(PlacedRow(row, h, stamp), h, Member(row.flags, stamp, row.body))
  {
  }

  lemma FinalAgrees(coll: CollectionId, store: Rows, server: Server, h: Handle)
    requires Reconcilable(store, server)
    ensures var row := FinalRow(coll, h, At(store, h), MemberAt(server, h));
            var flags := FinalFlags(At(store, h), MemberAt(server, h));
            && (row.Some? <==> flags.Some?)
            && (row.Some? ==> h in server && AgreesWith(row.value, h, server[h].(flags := flags.value)))
  {
    hide MergeFlags;
  }

  /** A row in step has nothing to reconcile. */
  lemma InStepIsIdle(coll: CollectionId, opts: Options, row: Placement, h: Handle, m: Member)
    requires AgreesWith(row, h, m)
    ensures MergeOne(coll, opts, Candidate(h, Some(row), Listing(h, Some(m)))) == NOTHING
  {
    InStepBoth(coll, opts, row, h, m);
    hide MergeBoth, MergeTombstone, MergeRemoteDelete, MergeLocalCreate, PullAdd;
  }

  lemma InStepBoth(coll: CollectionId, opts: Options, row: Placement, h: Handle, m: Member)
    requires AgreesWith(row, h, m)
    ensures MergeBoth(coll, opts, row, RemoteItem(h, m.flags, m.revision)) == NOTHING
  {
    var item := RemoteItem(h, m.flags, m.revision);
    InStepFlags(opts, row, h, m);
    InStepContent(coll, opts, row, h, m);
    hide ReconcileContent, ReconcileFlags;
    assert MergeBoth(coll, opts, row, item) == NOTHING.Then(NOTHING);
    hide MergeBoth;
    NothingFirst(NOTHING);
  }

  lemma InStepContent(coll: CollectionId, opts: Options, row: Placement, h: Handle, m: Member)
    requires AgreesWith(row, h, m)
    ensures ReconcileContent(coll, opts, row, RemoteItem(h, m.flags, m.revision)) == (NOTHING, Untouched)
  {
  }

  lemma InStepFlags(opts: Options, row: Placement, h: Handle, m: Member)
    requires AgreesWith(row, h, m)
    ensures ReconcileFlags(opts, row, RemoteItem(h, m.flags, m.revision), Derive) == NOTHING
  {
    FlagLaws.UnchangedSideYields(m.flags, m.flags);
    hide MergeFlags, PullFlags, RebasedRow, Pushing;
  }

  lemma {:induction false} IdleAll(s: SyncState, cs: seq<Candidate>)
    requires forall c :: c in cs ==> MergeOne(s.collection, s.opts, c) == NOTHING
    ensures AbsorbAll(s, cs) == s
    decreases |cs|
  {
    if cs != [] {
      assert cs[0] in cs;
      hide MergeOne;
      IdleAbsorbs(s);
      IdleAll(s, cs[1..]);
    }
  }

  /** A run writing nothing but its checkpoint and pushing nothing asks for that one write. */
  lemma OneWrite(ys: seq<Yield>, mark: WriteOp)
    requires RunGrammar(ys) && Ops(ys) == [mark] && Sent(ys) == []
    ensures ys == [WantsWrite([mark])]
  {
    if !PushGrammar(ys) && |ys| == 1 {
      var ops := ys[0].ops;
      assert ys == [WantsWrite(ops)] + [];
      OpsOfWrite(ops, []);
      assert ops + [] == ops;
    }
  }

  /** Two sides in step stay put: the run asks for one write, of the checkpoint alone, and
    * reports nothing. */
  lemma InStepRunIsIdle(coll: CollectionId, opts: Options, listing: seq<Placement>, store: Rows,
                        cursor: Option<Checkpoint>, snapshot: Snapshot, server: Server, answers: seq<seq<PushResult>>)
    requires Lists(listing, store) && Shows(snapshot, server) && InStep(store, server)
    ensures RunOf(coll, opts, listing, cursor, snapshot, answers)
            == Run([WantsLoad, WantsEnumerate(if opts.full then None else cursor),
                    WantsWrite([SetCheckpoint(coll, snapshot.checkpoint)])], EMPTY_REPORT)
  {
    InStepMerges(coll, opts, listing, store, cursor, snapshot, server);
    RunIsUnbounded(coll, opts, listing, cursor, snapshot, answers);
    var run := RunOf(coll, opts, listing, cursor, snapshot, answers);
    var t := Merged(coll, opts, listing, cursor, snapshot);
    assert Unbounded(coll, opts, listing, cursor, snapshot, answers) == RecordRest(t, answers) == t;
    hide *;
    var opening, ys := run.asked[..2], run.asked[2..];
    assert run.asked == opening + ys;
    OpeningWritesNothing(opening, ys);
    OneWrite(ys, SetCheckpoint(coll, snapshot.checkpoint));
  }

  lemma InStepMerges(coll: CollectionId, opts: Options, listing: seq<Placement>, store: Rows,
                     cursor: Option<Checkpoint>, snapshot: Snapshot, server: Server)
    requires Lists(listing, store) && Shows(snapshot, server) && InStep(store, server)
    ensures var t := Merged(coll, opts, listing, cursor, snapshot);
            t.writes == [] && t.pushes == [] && t.report == EMPTY_REPORT
  {
    var s := Opened(coll, opts, listing, cursor, snapshot);
    var cs := Todo(s.merging.value);
    assert s.writes == [] && s.pushes == [] && s.report == EMPTY_REPORT && s.collection == coll && s.opts == opts;
    forall c | c in cs ensures MergeOne(coll, opts, c) == NOTHING {
      FullCandidate(coll, opts, listing, store, cursor, snapshot, server, c.handle);
      hide Todo, Opened, Shows, Lists, MergeOne;
      InAscending(cs, c);
      InStepIsIdle(coll, opts, store[c.handle], c.handle, server[c.handle]);
    }
    hide Opened, Todo, MergeOne, AbsorbAll;
    IdleAll(s, cs);
  }

  /** So the run after an accepted full run, against whatever order and checkpoint the server then
    * lists with, writes only its checkpoint. */
  lemma NextRunIsIdle(coll: CollectionId, opts: Options, listing: seq<Placement>, store: Rows,
                      cursor: Option<Checkpoint>, snapshot: Snapshot, server: Server, mint: Mint,
                      answers: seq<seq<PushResult>>, relisting: seq<Placement>, recursor: Option<Checkpoint>,
                      resnapshot: Snapshot, reanswers: seq<seq<PushResult>>)
    requires Lists(listing, store) && Shows(snapshot, server) && Reconcilable(store, server) && Unrestricted(opts)
    requires FreshMint(store, server, mint)
    requires answers == Accepting(RunOf(coll, opts, listing, cursor, snapshot, answers).asked, mint)
    requires var run := RunOf(coll, opts, listing, cursor, snapshot, answers);
             && Lists(relisting, Apply(store, Ops(run.asked)))
             && Shows(resnapshot, Serve(server, Sent(run.asked), mint))
    ensures RunOf(coll, opts, relisting, recursor, resnapshot, reanswers)
            == Run([WantsLoad, WantsEnumerate(if opts.full then None else recursor),
                    WantsWrite([SetCheckpoint(coll, resnapshot.checkpoint)])], EMPTY_REPORT)
  {
    RunConverges(coll, opts, listing, store, cursor, snapshot, server, mint, answers);
    var run := RunOf(coll, opts, listing, cursor, snapshot, answers);
    InStepRunIsIdle(coll, opts, relisting, Apply(store, Ops(run.asked)), recursor, resnapshot,
                    Serve(server, Sent(run.asked), mint), reanswers);
  }
}

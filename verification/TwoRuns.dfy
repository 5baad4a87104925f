/** Where bodies are staged, one run delivers the content and the next the flags it withheld. */
module TwoRuns {
  import opened Wrappers
  import opened Placement
  import opened Change
  import opened Remote
  import opened Join
  import opened JoinLaws
  import opened MergeRules
  import opened SyncMachine
  import opened SyncInvariants
  import opened SyncRuns
  import opened DeltaSync
  import opened Storage
  import opened Acceptance
  import opened OneHandle
  import opened RoundEnds
  import opened RunWrites
  import opened Convergence

  /** A row two runs settle: based unless it is a pending create, in no conflict, and under the manual
    * policy staging no body beside content the remote changed. */
  predicate Deliverable(opts: Options, row: Placement, m: Option<Member>) {
    && (row.base.None? <==> row.status == Created)
    && row.status != Conflict
    && (row.base.None? && m.Some? ==> m.value.revision.None?)
    && (opts.conflict == Manual && m.Some? && row.status == Dirty && row.StagedEdit().Some? ==>
          !TakenBack(row, m.value.revision))
  }

  ghost predicate AllDeliverable(opts: Options, store: Rows, server: Server) {
    forall h :: h in store ==> store[h].handle == h && Deliverable(opts, store[h], MemberAt(server, h))
  }

  /** A row with nothing left for a second run but flags, or its removal. */
  predicate Landed(row: Placement, h: Handle) {
    row.handle == h && row.base.Some? && Settleable(row)
  }

  /** A round leaves a deliverable row delivered, or nothing. */
  lemma RoundDelivers(coll: CollectionId, opts: Options, h: Handle, local: Option<Placement>, m: Option<Member>,
                      stamp: Option<Revision>)
    requires Unrestricted(opts) && opts.MayContent()
    requires local.Some? ==> local.value.handle == h && Deliverable(opts, local.value, m)
    ensures var end := EndRow(coll, opts, h, local, m, stamp); end.Some? ==> Landed(end.value, h)
  {
    if local.Some? && m.Some? && local.value.status != Tombstone {
      var row, item := local.value, RemoteItem(h, m.value.flags, m.value.revision);
      ContentDelivers(coll, opts, row, item, stamp);
      FlagsDeliver(opts, ContentRow(coll, opts, row, item), item);
      hide ContentRow, PushesBody, FlagsRow, ContentRebasedRow, Settleable;
    } else {
      hide BothRow;
    }
  }

  lemma ContentDelivers(coll: CollectionId, opts: Options, row: Placement, item: RemoteItem, stamp: Option<Revision>)
    requires opts.MayContent() && row.handle == item.handle && row.status != Tombstone
    requires Deliverable(opts, row, Some(Member(item.flags, item.revision, None)))
    ensures if PushesBody(coll, opts, row, item) then Landed(ContentRebasedRow(row, stamp), item.handle)
            else Uneditable(ContentRow(coll, opts, row, item), item.handle)
  {
  }

  /** A row whose flags are all that is left to settle. */
  predicate Uneditable(row: Placement, h: Handle) {
    && row.handle == h && row.status != Conflict && row.status != Tombstone
    && (row.base.None? <==> row.status == Created)
    && (row.status == Dirty ==> row.StagedEdit().None?)
  }

  lemma FlagsDeliver(opts: Options, row: Placement, item: RemoteItem)
    requires opts.MayFlags()
    ensures Uneditable(row, item.handle) ==> Landed(FlagsRow(opts, row, item), item.handle)
  {
    hide MergeFlags;
  }

  /** A row after the first run: landed, or a fork the server has yet to hear of. */
  predicate Ready(row: Placement, h: Handle, m: Option<Member>) {
    Landed(row, h) || (Loose(row, h) && m.None?)
  }

  /** After one accepted run, every row is. */
  lemma RunDelivers(coll: CollectionId, opts: Options, listing: seq<Placement>, store: Rows, cursor: Option<Checkpoint>,
                    snapshot: Snapshot, server: Server, mint: Mint, answers: seq<seq<PushResult>>, h: Handle)
    requires Lists(listing, store) && Shows(snapshot, server) && AllDeliverable(opts, store, server)
    requires Unrestricted(opts) && opts.MayContent()
    requires FreshNames(coll, opts, store, server, mint) && FreshForks(coll, opts, store, server, mint)
    requires answers == Accepting(RunOf(coll, opts, listing, cursor, snapshot, answers).asked, mint)
    ensures var run := RunOf(coll, opts, listing, cursor, snapshot, answers);
            var after := Apply(store, Ops(run.asked));
            h in after ==> Ready(after[h], h, MemberAt(Serve(server, Sent(run.asked), mint), h))
  {
    var run := RunOf(coll, opts, listing, cursor, snapshot, answers);
    var after := Apply(store, Ops(run.asked));
    assert forall g :: g in store ==> store[g].handle == g;
    ForkedIsFresh(coll, opts, store, server, mint, h);
    if g :| AddsAt(coll, opts, store, server, g) && mint.Names(g, h) {
      hide *;
      FreshIsUnminted(coll, opts, store, server, mint, g, h);
      CreateTouches(coll, opts, listing, store, cursor, snapshot, server, mint, answers, g, h);
      ApplyEnds(store, Ops(run.asked), h);
      var row := EffectOf(coll, opts, store, server, g).push.value.pending.row;
      LastLeft(UpsertPlacement(PlacedRow(row, h, mint.stamp(g))), At(store, h));
      PlacedHasLanded(row, h, mint.stamp(g), after);
      LandedIsReady(after, h, MemberAt(Serve(server, Sent(run.asked), mint), h));
    } else if Alone(coll, opts, store, server, h) {
      assert Unminted(coll, opts, store, server, mint, h);
      DeliversOwn(coll, opts, store, server, h, mint.stamp(h));
      hide *;
      RunEnds(coll, opts, listing, store, cursor, snapshot, server, mint, answers, h);
      EndHasLanded(EndRow(coll, opts, h, At(store, h), MemberAt(server, h), mint.stamp(h)), h, after);
      LandedIsReady(after, h, MemberAt(Serve(server, Sent(run.asked), mint), h));
    } else {
      assert h !in server && Unminted(coll, opts, store, server, mint, h);
      hide *;
      ForkedEndsLoose(coll, opts, listing, store, cursor, snapshot, server, mint, answers, h);
      StaysUnlisted(coll, opts, listing, store, cursor, snapshot, server, mint, answers, h);
      LooseIsReady(after, h, MemberAt(Serve(server, Sent(run.asked), mint), h));
    }
  }

  lemma FreshIsUnminted(coll: CollectionId, opts: Options, store: Rows, server: Server, mint: Mint, g: Handle,
                        h: Handle)
    requires AddsAt(coll, opts, store, server, g) && mint.Names(g, h)
    requires Alone(coll, opts, store, server, h) || FreshFork(coll, opts, store, server, mint, h)
    ensures Alone(coll, opts, store, server, h)
  {
    hide Alone, AddsAt;
  }

  lemma LandedIsReady(after: Rows, h: Handle, m: Option<Member>)
    requires h in after ==> Landed(after[h], h)
    ensures h in after ==> Ready(after[h], h, m)
  {
  }

  lemma LooseIsReady(after: Rows, h: Handle, m: Option<Member>)
    requires m.None? && (At(after, h).Some? ==> Loose(At(after, h).value, h))
    ensures h in after ==> Ready(after[h], h, m)
  {
  }

  /** A handle neither listed nor assigned stays so. */
  lemma StaysUnlisted(coll: CollectionId, opts: Options, listing: seq<Placement>, store: Rows,
                      cursor: Option<Checkpoint>, snapshot: Snapshot, server: Server, mint: Mint,
                      answers: seq<seq<PushResult>>, h: Handle)
    requires Lists(listing, store) && Shows(snapshot, server)
    requires h !in server && Unminted(coll, opts, store, server, mint, h)
    requires answers == Accepting(RunOf(coll, opts, listing, cursor, snapshot, answers).asked, mint)
    ensures MemberAt(Serve(server, Sent(RunOf(coll, opts, listing, cursor, snapshot, answers).asked), mint), h).None?
  {
    var sent := Sent(RunOf(coll, opts, listing, cursor, snapshot, answers).asked);
    hide RunOf, Lists, Shows, Accepting, Sent, Serve, Unminted;
    AcceptedRun(coll, opts, listing, cursor, snapshot, answers, mint);
    if h in Serve(server, sent, mint) {
      ServedHas(server, sent, mint, h);
      var k :| k in sent && k.Add? && mint.Names(k.handle, h);
      PushIsOwn(coll, opts, listing, store, cursor, snapshot, server, k);
      UnmintedIs(coll, opts, store, server, mint, h, k);
    }
  }

  lemma DeliversOwn(coll: CollectionId, opts: Options, store: Rows, server: Server, h: Handle, stamp: Option<Revision>)
    requires AllDeliverable(opts, store, server)
    requires Unrestricted(opts) && opts.MayContent()
    ensures var end := EndRow(coll, opts, h, At(store, h), MemberAt(server, h), stamp);
            end.Some? ==> Landed(end.value, h)
  {
    hide EndRow, Deliverable, Landed;
    RoundDelivers(coll, opts, h, At(store, h), MemberAt(server, h), stamp);
  }

  lemma LastLeft(op: WriteOp, row: Option<Placement>)
    ensures Ending(row, [op]) == Left(op)
  {
  }

  lemma PlacedHasLanded(row: Placement, h: Handle, stamp: Option<Revision>, after: Rows)
    requires At(after, h) == Left(UpsertPlacement(PlacedRow(row, h, stamp)))
    ensures h in after && Landed(after[h], h)
  {
  }

  lemma EndHasLanded(end: Option<Placement>, h: Handle, after: Rows)
    requires At(after, h) == end && (end.Some? ==> Landed(end.value, h))
    ensures h in after ==> Landed(after[h], h)
  {
  }

  /** Then the next run has no body to push, and no create but the forks. */
  lemma ReadyIsReconcilable(store: Rows, server: Server)
    requires forall h :: h in store ==> Ready(store[h], h, MemberAt(server, h))
    ensures Reconcilable(store, server)
  {
  }

  /** A handle whose merge pushes its row's body. */
  predicate PushesItsBody(coll: CollectionId, opts: Options, store: Rows, server: Server, h: Handle) {
    && h in store && h in server && store[h].status != Tombstone
    && PushesBody(coll, opts, store[h], RemoteItem(h, server[h].flags, server[h].revision))
  }

  /** A staged body, and both sides' flags, on the row, on its base and on the server. */
  predicate Arrived(row: Placement, m: Member, end: Option<Placement>, served: Option<Member>) {
    var flags := MergeFlags(row.BaseFlags(), row.flags, m.flags);
    && end.Some? && end.value.status == Clean && end.value.body == row.body && end.value.StagedEdit().None?
    && end.value.flags == end.value.BaseFlags() == flags
    && served.Some? && served.value.body == row.body && served.value.flags == flags
  }

  /** Of a body pushed by the first run, two runs leave it and the merged flags everywhere. */
  lemma PushedArrives(coll: CollectionId, opts: Options, listing: seq<Placement>, store: Rows,
                      cursor: Option<Checkpoint>, snapshot: Snapshot, server: Server, mint: Mint,
                      answers: seq<seq<PushResult>>, relisting: seq<Placement>, recursor: Option<Checkpoint>,
                      resnapshot: Snapshot, remint: Mint, reanswers: seq<seq<PushResult>>, h: Handle)
    requires Lists(listing, store) && Shows(snapshot, server) && AllDeliverable(opts, store, server)
    requires Unrestricted(opts) && opts.MayContent()
    requires FreshNames(coll, opts, store, server, mint) && FreshForks(coll, opts, store, server, mint)
    requires answers == Accepting(RunOf(coll, opts, listing, cursor, snapshot, answers).asked, mint)
    requires var run := RunOf(coll, opts, listing, cursor, snapshot, answers);
             && Lists(relisting, Apply(store, Ops(run.asked)))
             && Shows(resnapshot, Serve(server, Sent(run.asked), mint))
             && FreshMint(Apply(store, Ops(run.asked)), Serve(server, Sent(run.asked), mint), remint)
    requires reanswers == Accepting(RunOf(coll, opts, relisting, recursor, resnapshot, reanswers).asked, remint)
    requires PushesItsBody(coll, opts, store, server, h) && Unminted(coll, opts, store, server, mint, h)
    requires var run := RunOf(coll, opts, listing, cursor, snapshot, answers);
             Reconcilable(Apply(store, Ops(run.asked)), Serve(server, Sent(run.asked), mint))
    ensures var run := RunOf(coll, opts, listing, cursor, snapshot, answers);
            var rerun := RunOf(coll, opts, relisting, recursor, resnapshot, reanswers);
            var after := Apply(Apply(store, Ops(run.asked)), Ops(rerun.asked));
            var served := Serve(Serve(server, Sent(run.asked), mint), Sent(rerun.asked), remint);
            Arrived(store[h], server[h], At(after, h), MemberAt(served, h))
  {
    var run := RunOf(coll, opts, listing, cursor, snapshot, answers);
    var rerun := RunOf(coll, opts, relisting, recursor, resnapshot, reanswers);
    var rows, members := Apply(store, Ops(run.asked)), Serve(server, Sent(run.asked), mint);
    var after, served := Apply(rows, Ops(rerun.asked)), Serve(members, Sent(rerun.asked), remint);
    assert h in store && h in server;
    hide *;
    OwnRows(opts, store, server);
    ForkedIsFresh(coll, opts, store, server, mint, h);
    ListedIsAlone(coll, opts, store, server, mint, h);
    RunEnds(coll, opts, listing, store, cursor, snapshot, server, mint, answers, h);
    BodyArrives(coll, opts, store, server, h, mint.stamp(h), At(rows, h), MemberAt(members, h));
    MembersThere(members, h);
    HeldIsUnnamed(rows, members, remint, h);
    RunSettles(coll, opts, relisting, rows, recursor, resnapshot, members, remint, reanswers, h);
  }

  lemma ListedIsAlone(coll: CollectionId, opts: Options, store: Rows, server: Server, mint: Mint, h: Handle)
    requires h in server
    requires Alone(coll, opts, store, server, h) || FreshFork(coll, opts, store, server, mint, h)
    ensures Alone(coll, opts, store, server, h)
  {
    hide Alone;
  }

  lemma HeldIsUnnamed(store: Rows, server: Server, mint: Mint, h: Handle)
    requires FreshMint(store, server, mint) && h in server
    ensures forall g :: CreatesAt(store, server, g) ==> !mint.Names(g, h)
  {
    hide CreatesAt;
  }

  lemma MembersThere(server: Server, h: Handle)
    requires MemberAt(server, h).Some?
    ensures h in server && server[h] == MemberAt(server, h).value
  {
  }

  /** Two accepted full runs, of rows staging bodies and flags alike, bring the two sides in step: the
    * first pushes the content, or forks it, the second the flags withheld beside it,
      and adds the forks. A body the first pushed is then on
    * row, base and server, with the flags of both sides merged against the base. */
  lemma TwoRunsConverge(coll: CollectionId, opts: Options, listing: seq<Placement>, store: Rows,
                        cursor: Option<Checkpoint>, snapshot: Snapshot, server: Server, mint: Mint,
                        answers: seq<seq<PushResult>>, relisting: seq<Placement>, recursor: Option<Checkpoint>,
                        resnapshot: Snapshot, remint: Mint, reanswers: seq<seq<PushResult>>)
    requires Lists(listing, store) && Shows(snapshot, server) && AllDeliverable(opts, store, server)
    requires Unrestricted(opts) && opts.MayContent()
    requires FreshNames(coll, opts, store, server, mint) && FreshForks(coll, opts, store, server, mint)
    requires answers == Accepting(RunOf(coll, opts, listing, cursor, snapshot, answers).asked, mint)
    requires var run := RunOf(coll, opts, listing, cursor, snapshot, answers);
             && Lists(relisting, Apply(store, Ops(run.asked)))
             && Shows(resnapshot, Serve(server, Sent(run.asked), mint))
             && FreshMint(Apply(store, Ops(run.asked)), Serve(server, Sent(run.asked), mint), remint)
    requires reanswers == Accepting(RunOf(coll, opts, relisting, recursor, resnapshot, reanswers).asked, remint)
    ensures var run := RunOf(coll, opts, listing, cursor, snapshot, answers);
            var rerun := RunOf(coll, opts, relisting, recursor, resnapshot, reanswers);
            var after := Apply(Apply(store, Ops(run.asked)), Ops(rerun.asked));
            var served := Serve(Serve(server, Sent(run.asked), mint), Sent(rerun.asked), remint);
            && InStep(after, served)
            && (forall h ::
                PushesItsBody(coll, opts, store, server, h) && Unminted(coll, opts, store, server, mint, h) ==>
                  h in store && h in server && Arrived(store[h], server[h], At(after, h), MemberAt(served, h)))
  {
    var run := RunOf(coll, opts, listing, cursor, snapshot, answers);
    var rerun := RunOf(coll, opts, relisting, recursor, resnapshot, reanswers);
    var rows, members := Apply(store, Ops(run.asked)), Serve(server, Sent(run.asked), mint);
    var after, served := Apply(rows, Ops(rerun.asked)), Serve(members, Sent(rerun.asked), remint);
    hide *;
    forall h ensures h in rows ==> Ready(rows[h], h, MemberAt(members, h)) {
      RunDelivers(coll, opts, listing, store, cursor, snapshot, server, mint, answers, h);
    }
    ReadyIsReconcilable(rows, members);
    RunConverges(coll, opts, relisting, rows, recursor, resnapshot, members, remint, reanswers);
    forall h | PushesItsBody(coll, opts, store, server, h) && Unminted(coll, opts, store, server, mint, h)
      ensures h in store && h in server
      ensures Arrived(store[h], server[h], At(after, h), MemberAt(served, h))
    {
      PushingIsHeld(coll, opts, store, server, h);
      PushedArrives(coll, opts, listing, store, cursor, snapshot, server, mint, answers, relisting, recursor,
                    resnapshot,
                    remint, reanswers, h);
    }
  }

  lemma PushingIsHeld(coll: CollectionId, opts: Options, store: Rows, server: Server, h: Handle)
    requires PushesItsBody(coll, opts, store, server, h)
    ensures h in store && h in server
  {
  }

  lemma OwnRows(opts: Options, store: Rows, server: Server)
    requires AllDeliverable(opts, store, server)
    ensures forall g :: g in store ==> store[g].handle == g
  {
  }

  /** The first run leaves a pushed body at the revision it was given; the second settles the flags. */
  lemma BodyArrives(coll: CollectionId, opts: Options, store: Rows, server: Server, h: Handle, stamp: Option<Revision>,
                    row: Option<Placement>, m: Option<Member>)
    requires AllDeliverable(opts, store, server) && PushesItsBody(coll, opts, store, server, h)
    requires row == EndRow(coll, opts, h, At(store, h), MemberAt(server, h), stamp)
    requires m == EndMember(coll, opts, At(store, h), MemberAt(server, h), stamp)
    ensures m.Some? && FinalFlags(row, m).Some?
    ensures Arrived(store[h], server[h], FinalRow(coll, h, row, m), Some(m.value.(flags := FinalFlags(row, m).value)))
  {
    BodyIsBased(coll, opts, store[h], RemoteItem(h, server[h].flags, server[h].revision));
    hide PushesBody, MergeFlags;
  }

  lemma BodyIsBased(coll: CollectionId, opts: Options, row: Placement, item: RemoteItem)
    ensures PushesBody(coll, opts, row, item) ==> row.base.Some? && row.body.Some? && row.status == Dirty
  {
  }
}

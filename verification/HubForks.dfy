/** A body kept beside the remote's becomes one more item of the hub, under its own identity. */
module HubForks {
  import opened Wrappers
  import opened Text
  import opened Placement
  import opened Change
  import opened Remote
  import opened Join
  import opened JoinLaws
  import opened MergeRules
  import opened SyncMachine
  import opened SyncInvariants
  import opened SyncRuns
  import opened DeltaSync
  import opened Storage
  import opened NoLoss
  import opened Acceptance
  import opened Rounds
  import opened OneHandle
  import opened RoundEnds
  import opened Hub
  import opened RunWrites
  import opened HubTurns

  /** A live row whose body and whose member's both moved since its base. */
  predicate BothMoved(row: Placement, revision: Option<Revision>) {
    row.status == Dirty && row.base.Some? && row.StagedEdit().Some? && TakenBack(row, revision)
  }

  /** Where both bodies are kept, its merge forks it. */
  lemma MergeForks(coll: CollectionId, opts: Options, row: Placement, item: RemoteItem)
    requires opts.conflict == KeepBoth && BothMoved(row, item.revision)
    ensures row.body.Some?
    ensures UpsertPlacement(DupRow(coll, row, row.body.value)) in MergeBoth(coll, opts, row, item).writes
  {
    var (content, outcome) := ReconcileContent(coll, opts, row, item);
    assert content.writes[0] == UpsertPlacement(DupRow(coll, row, row.body.value))
           && content.writes[0] in content.writes;
    hide ReconcileContent, ReconcileFlags, DupRow;
  }

  /** An item as one source's fork leaves it. */
  predicate Forked(item: Option<HubItem>, source: SourceId, body: Hash, handles: set<Handle>) {
    item.Some? ==>
      && item.value.body == Some(body) && !item.value.deleted && !item.value.conflicted
      && item.value.sources.Keys == {source} && item.value.sources[source].handle in handles
      && item.value.sources[source].base.None?
      && !item.value.sources[source].conflicted
  }

  /** Every write of an identity is a fork of one body, and none unbinds it. */
  ghost predicate ForksOnly(ops: seq<WriteOp>, link: LinkId, body: Hash, handles: set<Handle>) {
    forall op :: op in ops ==>
      && (op.UpsertPlacement? && op.placement.linkId == Some(link) ==>
            && op.placement.body == Some(body) && op.placement.status == Created && op.placement.base.None?
            && op.placement.handle in handles)
      && (op.DropPlacement? ==> op.handle !in handles)
  }

  lemma {:induction false} ForksAbsorb(item: Option<HubItem>, link: LinkId, source: SourceId, ops: seq<WriteOp>,
                                       policy: Policy, body: Hash, handles: set<Handle>)
    requires Forked(item, source, body, handles) && ForksOnly(ops, link, body, handles)
    ensures Forked(OnItemAll(item, link, source, ops, policy), source, body, handles)
    ensures item.Some? || (exists op :: op in ops && op.UpsertPlacement? && op.placement.linkId == Some(link)) ==>
              OnItemAll(item, link, source, ops, policy).Some?
    decreases |ops|
  {
    if ops != [] {
      assert ops[0] in ops && ops == [ops[0]] + ops[1..];
      ForkAbsorbs(item, link, source, ops[0], policy, body, handles);
      hide OnItem, Forked;
      ForksAbsorb(OnItem(item, link, source, ops[0], policy), link, source, ops[1..], policy, body, handles);
    }
  }

  lemma ForkAbsorbs(item: Option<HubItem>, link: LinkId, source: SourceId, op: WriteOp, policy: Policy, body: Hash,
                    handles: set<Handle>)
    requires Forked(item, source, body, handles) && ForksOnly([op], link, body, handles)
    ensures Forked(OnItem(item, link, source, op, policy), source, body, handles)
    ensures item.Some? || (op.UpsertPlacement? && op.placement.linkId == Some(link)) ==>
              OnItem(item, link, source, op, policy).Some?
  {
    assert op in [op];
  }

  /** The handles a turn may fork one identity to. */
  ghost function ForkHandles(turn: Turn, store: Rows, server: Server, link: LinkId): set<Handle> {
    set g | g in store && g in server && store[g].body.Some? && turn.opts.conflict == KeepBoth
            && link == ForkLink(store[g].body.value) :: DupHandle(g, store[g].body.value)
  }

  lemma ForkLinkTells(a: Hash, b: Hash)
    ensures ForkLink(a) == ForkLink(b) ==> a == b
  {
    assert (KEEP_BOTH + a.text)[|KEEP_BOTH|..] == a.text && (KEEP_BOTH + b.text)[|KEEP_BOTH|..] == b.text;
  }

  /** No handle forked to is on the shelf, where the identity is new. */
  lemma ForkIsUnshelved(coll: CollectionId, w: HubWorld, turn: Turn, link: LinkId, d: Handle)
    requires OrderlyWorld(w) && ForksApart(coll, w, turn) && link !in w.items
    requires exists g :: ForksTo(turn, Shelf(coll, w.items, turn.source), w.ServerAt(turn.source), g, d, link)
    ensures d !in Shelf(coll, w.items, turn.source)
  {
    var store := Shelf(coll, w.items, turn.source);
    if d in store {
      hide Shelf, AddsAt, Offered;
      var held := ShelfOf(coll, w.items, turn.source, d);
      OfferedIs(coll, held, w.items[held], turn.source);
      CreatedIsReserved(held, held);
      hide Reserved;
    }
  }

  /** A turn whose source keeps both bodies of a row leaves the row's own in the hub, live and unconflicted, as
    * an item under its own identity that only this source holds and has still to create. */
  lemma ForkTurn(coll: CollectionId, policy: Policy, w: HubWorld, turn: Turn, g: Handle, d: Handle, link: LinkId)
    requires OrderlyWorld(w) && Fair(coll, w, turn) && link !in w.items
    requires var store, server := Shelf(coll, w.items, turn.source), w.ServerAt(turn.source);
             ForksTo(turn, store, server, g, d, link) && BothMoved(store[g], server[g].revision)
    ensures var store := Shelf(coll, w.items, turn.source);
            var after := Taken(coll, policy, w, turn).items;
            && link in after && after[link].body == store[g].body && !after[link].deleted && !after[link].conflicted
            && after[link].sources.Keys == {turn.source}
            && Offered(coll, link, after[link], turn.source).Some?
            && (var row := Offered(coll, link, after[link], turn.source).value;
                row.status == Created && row.base.None? && row.body == store[g].body && row.linkId == Some(link))
  {
    var source := turn.source;
    var store, server := Shelf(coll, w.items, source), w.ServerAt(source);
    var ops := Ops(Asked(coll, w, turn));
    var body := store[g].body.value;
    var handles := ForkHandles(turn, store, server, link);
    ForkIsAsked(coll, w, turn, g);
    TurnForksOnly(coll, w, turn, link, body);
    var op := UpsertPlacement(DupRow(coll, store[g], body));
    assert op.placement.linkId == Some(link);
    hide Shelf, Ops, Asked, Absorbed, OnItemAll, Fair, OrderlyWorld, DupRow, ForksOnly, ForkHandles;
    ForksAbsorb(None, link, source, ops, policy, body, handles);
    AbsorbedItem(w.items, source, ops, policy, link);
    hide Serve, Sent;
    assert ItemOf(Taken(coll, policy, w, turn).items, link) == PrunedItem(OnItemAll(None, link, source, ops, policy));
  }

  lemma ForkIsAsked(coll: CollectionId, w: HubWorld, turn: Turn, g: Handle)
    requires Fair(coll, w, turn) && turn.opts.conflict == KeepBoth
    requires var store, server := Shelf(coll, w.items, turn.source), w.ServerAt(turn.source);
             g in store && g in server && BothMoved(store[g], server[g].revision)
    ensures var row := Shelf(coll, w.items, turn.source)[g];
            row.body.Some? && UpsertPlacement(DupRow(coll, row, row.body.value)) in Ops(Asked(coll, w, turn))
  {
    var source := turn.source;
    var store, server := Shelf(coll, w.items, source), w.ServerAt(source);
    var listing := Loaded(coll, w.items, source);
    ShelfLists(coll, w.items, source);
    RowsOwn(listing, store);
    var row := store[g];
    MergeForks(coll, turn.opts, row, RemoteItem(g, server[g].flags, server[g].revision));
    assert EffectOf(coll, turn.opts, store, server, g)
           == MergeBoth(coll, turn.opts, row, RemoteItem(g, server[g].flags, server[g].revision));
    hide MergeBoth, EffectOf, Shelf, Loaded, RunOf, Ops, Accepting, FreshNames, ForksApart, AddsAt, DupRow, BothMoved;
    EffectIsWritten(coll, turn.opts, listing, store, turn.cursor, turn.snapshot, server, turn.mint, turn.answers, g,
                    UpsertPlacement(DupRow(coll, row, row.body.value)));
  }

  lemma TurnForksOnly(coll: CollectionId, w: HubWorld, turn: Turn, link: LinkId, body: Hash)
    requires OrderlyWorld(w) && Fair(coll, w, turn) && link !in w.items && link == ForkLink(body)
    ensures var store, server := Shelf(coll, w.items, turn.source), w.ServerAt(turn.source);
            ForksOnly(Ops(Asked(coll, w, turn)), link, body, ForkHandles(turn, store, server, link))
  {
    var source := turn.source;
    var store, server := Shelf(coll, w.items, source), w.ServerAt(source);
    var handles := ForkHandles(turn, store, server, link);
    forall op | op in Ops(Asked(coll, w, turn))
      ensures op.UpsertPlacement? && op.placement.linkId == Some(link) ==>
                && op.placement.body == Some(body) && op.placement.status == Created && op.placement.base.None?
                && op.placement.handle in handles
      ensures op.DropPlacement? ==> op.handle !in handles
    {
      if op.UpsertPlacement? && op.placement.linkId == Some(link) {
        ForkIsWritten(coll, w, turn, link, body, op);
      } else if op.DropPlacement? {
        DropIsShelved(coll, w, turn, op);
        if op.handle in handles {
          ForkHandleIs(turn, store, server, link, op.handle);
          ForkIsUnshelved(coll, w, turn, link, op.handle);
        }
      }
    }
  }

  lemma ForkHandleIs(turn: Turn, store: Rows, server: Server, link: LinkId, d: Handle)
    ensures d in ForkHandles(turn, store, server, link) <==> exists g :: ForksTo(turn, store, server, g, d, link)
  {
    hide DupHandle, ForkLink;
    if d in ForkHandles(turn, store, server, link) {
      var g :| g in store && g in server && store[g].body.Some? && turn.opts.conflict == KeepBoth
               && link == ForkLink(store[g].body.value) && d == DupHandle(g, store[g].body.value);
      assert ForksTo(turn, store, server, g, d, link);
    }
  }

  lemma DropIsShelved(coll: CollectionId, w: HubWorld, turn: Turn, op: WriteOp)
    requires Fair(coll, w, turn) && op in Ops(Asked(coll, w, turn)) && op.DropPlacement?
    ensures op.handle in Shelf(coll, w.items, turn.source)
  {
    ShelfLists(coll, w.items, turn.source);
    hide Shelf, Loaded, RunOf, Ops, Accepting, FreshNames, ForksApart, AddsAt;
    DropsAreLoaded(coll, turn.opts, Loaded(coll, w.items, turn.source), Shelf(coll, w.items, turn.source), turn.cursor,
                   turn.snapshot, w.ServerAt(turn.source), turn.mint, turn.answers, op);
  }

  lemma ForkIsWritten(coll: CollectionId, w: HubWorld, turn: Turn, link: LinkId, body: Hash, op: WriteOp)
    requires OrderlyWorld(w) && Fair(coll, w, turn) && link !in w.items && link == ForkLink(body)
    requires op in Ops(Asked(coll, w, turn)) && op.UpsertPlacement? && op.placement.linkId == Some(link)
    ensures op.placement.body == Some(body) && op.placement.status == Created && op.placement.base.None?
    ensures op.placement.handle
            in ForkHandles(turn, Shelf(coll, w.items, turn.source), w.ServerAt(turn.source), link)
  {
    var source := turn.source;
    var store, server := Shelf(coll, w.items, source), w.ServerAt(source);
    ShelfLists(coll, w.items, source);
    RowsOwn(Loaded(coll, w.items, source), store);
    hide RunOf, Ops, Loaded, Shelf, FreshNames, Accepting, AddsAt, ForksApart, Orderly;
    RunFollows(coll, turn.opts, Loaded(coll, w.items, source), store, turn.cursor, turn.snapshot, server, turn.mint,
               turn.answers, op);
    var g :| g in store && FollowsFrom(coll, turn.opts, store, server, turn.mint, op, g);
    var held := ShelfOf(coll, w.items, source, g);
    assert ForkOf(turn.opts, store[g], op.placement) && g in server;
    ForkLinkTells(body, store[g].body.value);
    ForkHandleIs(turn, store, server, link, op.placement.handle);
    assert ForksTo(turn, store, server, g, op.placement.handle, link);
  }
}

/** Sources of a hub taking turns: each syncs, in one accepted run, everything the hub offers it against
  * its own server, and the hub absorbs what it wrote.
  */
module HubTurns {
  import opened Wrappers
  import opened Text
  import opened Placement
  import opened Change
  import opened Remote
  import opened Join
  import opened JoinLaws
  import opened MergeRules
  import opened SyncMachine
  import opened SyncInvariants
  import opened SyncRuns
  import opened Storage
  import opened Acceptance
  import opened Rounds
  import opened OneHandle
  import opened RoundEnds
  import opened Hub
  import opened RunWrites

  function ItemOf(items: Items, link: LinkId): Option<HubItem> {
    if link in items then Some(items[link]) else None
  }

  /** What absorbing an op does to one item. */
  function OnItem(item: Option<HubItem>, link: LinkId, source: SourceId, op: WriteOp, policy: Policy): Option<HubItem> {
    match op
    case UpsertPlacement(row) =>
      if row.linkId == Some(link)
      then Some(UpsertedItem(if item.Some? then item.value else NewItem(row), source, row, policy)) else item
    case DropPlacement(_, h, reason) => if item.Some? then Some(DroppedItem(item.value, source, h, reason)) else None
    case _ => item
  }

  function OnItemAll(item: Option<HubItem>, link: LinkId, source: SourceId, ops: seq<WriteOp>, policy: Policy)
    : Option<HubItem>
    decreases |ops|
  {
    if ops == [] then item else OnItemAll(OnItem(item, link, source, ops[0], policy), link, source, ops[1..], policy)
  }

  /** An item no source holds is let go of. */
  function PrunedItem(item: Option<HubItem>): Option<HubItem> {
    if item.Some? && item.value.sources == map[] then None else item
  }

  lemma {:induction false} AbsorbedOnItem(items: Items, source: SourceId, ops: seq<WriteOp>, policy: Policy,
                                          link: LinkId)
    ensures ItemOf(AbsorbedAll(items, source, ops, policy), link)
            == OnItemAll(ItemOf(items, link), link, source, ops, policy)
    decreases |ops|
  {
    if ops != [] {
      hide UpsertedItem, DroppedItem;
      assert ItemOf(AbsorbedOp(items, source, ops[0], policy), link)
             == OnItem(ItemOf(items, link), link, source, ops[0], policy);
      hide AbsorbedOp, OnItem;
      AbsorbedOnItem(AbsorbedOp(items, source, ops[0], policy), source, ops[1..], policy, link);
    }
  }

  lemma AbsorbedItem(items: Items, source: SourceId, ops: seq<WriteOp>, policy: Policy, link: LinkId)
    ensures ItemOf(Absorbed(items, source, ops, policy), link)
            == PrunedItem(OnItemAll(ItemOf(items, link), link, source, ops, policy))
  {
    AbsorbedOnItem(items, source, ops, policy, link);
    hide AbsorbedAll, OnItemAll;
  }

  /** A source holding an item holds it, if at all, under one handle. */
  predicate BoundAt(item: Option<HubItem>, source: SourceId, h: Handle) {
    item.Some? && source in item.value.sources ==> item.value.sources[source].handle == h
  }

  /** Writes carrying an item's identity are all of one handle's row. */
  ghost predicate CarriedAt(ops: seq<WriteOp>, link: LinkId, h: Handle) {
    forall op :: op in ops && op.UpsertPlacement? && op.placement.linkId == Some(link) ==> op.placement.handle == h
  }

  lemma UpsertBinds(item: HubItem, source: SourceId, row: Placement, policy: Policy)
    ensures var after := UpsertedItem(item, source, row, policy);
            && source in after.sources && after.sources[source].handle == row.handle
            && (forall other :: other != source ==>
                  (other in after.sources <==> other in item.sources)
                  && (other in item.sources ==> after.sources[other] == item.sources[other]))
  {
    hide Judge;
  }

  /** Then only the ops touching that handle matter to the item. */
  lemma {:induction false} OnlyTouchingMatter(item: Option<HubItem>, link: LinkId, source: SourceId, ops: seq<WriteOp>,
                                              policy: Policy, h: Handle)
    requires BoundAt(item, source, h) && CarriedAt(ops, link, h)
    ensures OnItemAll(item, link, source, ops, policy) == OnItemAll(item, link, source, Touching(ops, h), policy)
    decreases |ops|
  {
    if ops != [] {
      var op, rest := ops[0], ops[1..];
      assert op in ops && forall o :: o in rest ==> o in ops;
      var next := OnItem(item, link, source, op, policy);
      if op.UpsertPlacement? && op.placement.linkId == Some(link) {
        UpsertBinds(if item.Some? then item.value else NewItem(op.placement), source, op.placement, policy);
      }
      hide UpsertedItem;
      assert BoundAt(next, source, h);
      OnlyTouchingMatter(next, link, source, rest, policy, h);
      if Touches(op, h) {
        assert Touching(ops, h)[0] == op && Touching(ops, h)[1..] == Touching(rest, h);
      } else {
        assert Touching(ops, h) == Touching(rest, h) && next == item;
      }
    }
  }

  /** An item a source neither holds nor writes is none of its business. */
  lemma {:induction false} UnheldIsUntouched(item: Option<HubItem>, link: LinkId, source: SourceId, ops: seq<WriteOp>,
                                             policy: Policy)
    requires item.Some? ==> source !in item.value.sources
    requires forall op :: op in ops && op.UpsertPlacement? ==> op.placement.linkId != Some(link)
    ensures OnItemAll(item, link, source, ops, policy) == item
    decreases |ops|
  {
    if ops != [] {
      assert ops[0] in ops && forall o :: o in ops[1..] ==> o in ops;
      UnheldIsUntouched(item, link, source, ops[1..], policy);
    }
  }

  /** A handle kept for items a source still lacks. */
  predicate Reserved(h: Handle) {
    |h.text| >= |HUB| && h.text[|h.text| - |HUB|..] == HUB
  }

  lemma CreatedIsReserved(a: LinkId, b: LinkId)
    ensures Reserved(CreatedHandle(a))
    ensures CreatedHandle(a) == CreatedHandle(b) ==> a == b
  {
    assert CreatedHandle(a).text[|a.text|..] == HUB && CreatedHandle(a).text[..|a.text|] == a.text;
    assert CreatedHandle(b).text[..|b.text|] == b.text;
  }

  /** No source binds two items under one handle. */
  ghost predicate OneItemPerHandle(items: Items) {
    forall a, b, s :: a in items && b in items && a != b && s in items[a].sources && s in items[b].sources ==>
      items[a].sources[s].handle != items[b].sources[s].handle
  }

  /** Every item has a source holding it. */
  ghost predicate Populated(items: Items) {
    forall link :: link in items ==> items[link].sources != map[]
  }

  ghost predicate Orderly(items: Items) {
    && OneItemPerHandle(items) && Populated(items)
    && (forall link, s :: link in items && s in items[link].sources ==> !Reserved(items[link].sources[s].handle))
  }

  /** What a source is offered in all. */
  ghost function Loaded(coll: CollectionId, items: Items, source: SourceId): seq<Placement> {
    Projected(coll, items, source, LinksInOrder(items.Keys))
  }

  lemma {:induction false} ProjectedHas(coll: CollectionId, items: Items, source: SourceId, links: seq<LinkId>,
                                        row: Placement)
    requires forall link :: link in links ==> link in items
    ensures row in Projected(coll, items, source, links)
            <==> exists link :: link in links && Offered(coll, link, items[link], source) == Some(row)
    decreases |links|
  {
    if links != [] {
      hide Offered;
      assert links == [links[0]] + links[1..];
      ProjectedHas(coll, items, source, links[1..], row);
    }
  }

  lemma LoadedHas(coll: CollectionId, items: Items, source: SourceId, row: Placement)
    ensures row in Loaded(coll, items, source)
            <==> exists link :: link in items && Offered(coll, link, items[link], source) == Some(row)
  {
    hide Offered, Projected, LinksInOrder;
    ProjectedHas(coll, items, source, LinksInOrder(items.Keys), row);
  }

  /** A row offered of an item carries its identity, and lies where its source holds it or waits for it. */
  lemma OfferedIs(coll: CollectionId, link: LinkId, item: HubItem, source: SourceId)
    ensures var offered := Offered(coll, link, item, source);
            offered.Some? ==>
              && offered.value.linkId == Some(link)
              && (if source in item.sources then offered.value.handle == item.sources[source].handle
                  else offered.value.handle == CreatedHandle(link) && offered.value.status == Created
                       && offered.value.base.None?)
  {
  }

  /** In an orderly hub each handle is offered the row of one item. */
  lemma OfferedOnce(coll: CollectionId, items: Items, source: SourceId, a: LinkId, b: LinkId)
    requires Orderly(items) && a in items && b in items
    requires var x, y := Offered(coll, a, items[a], source), Offered(coll, b, items[b], source);
             x.Some? && y.Some? && x.value.handle == y.value.handle
    ensures a == b
  {
    OfferedIs(coll, a, items[a], source);
    OfferedIs(coll, b, items[b], source);
    CreatedIsReserved(a, b);
    CreatedIsReserved(b, a);
    hide Offered, Reserved;
  }

  /** The rows a source loads, by handle. */
  ghost function Shelf(coll: CollectionId, items: Items, source: SourceId): Rows {
    Indexed(Loaded(coll, items, source))
  }

  lemma ShelfLists(coll: CollectionId, items: Items, source: SourceId)
    ensures Lists(Loaded(coll, items, source), Shelf(coll, items, source))
  {
    IndexedLists(Loaded(coll, items, source));
  }

  lemma ShelfHolds(coll: CollectionId, items: Items, source: SourceId, link: LinkId)
    requires Orderly(items) && link in items && Offered(coll, link, items[link], source).Some?
    ensures var row := Offered(coll, link, items[link], source).value;
            At(Shelf(coll, items, source), row.handle) == Some(row)
  {
    var row := Offered(coll, link, items[link], source).value;
    var listing := Loaded(coll, items, source);
    ShelfLists(coll, items, source);
    LoadedHas(coll, items, source, row);
    hide Offered, Loaded, Orderly;
    var found := RowAt(listing, row.handle).value;
    LoadedHas(coll, items, source, found);
    var other :| other in items && Offered(coll, other, items[other], source) == Some(found);
    OfferedOnce(coll, items, source, link, other);
  }

  lemma ShelfOf(coll: CollectionId, items: Items, source: SourceId, g: Handle) returns (link: LinkId)
    requires g in Shelf(coll, items, source)
    ensures link in items && Offered(coll, link, items[link], source) == Some(Shelf(coll, items, source)[g])
    ensures Shelf(coll, items, source)[g].linkId == Some(link) && Shelf(coll, items, source)[g].handle == g
  {
    var listing := Loaded(coll, items, source);
    ShelfLists(coll, items, source);
    assert RowAt(listing, g) == At(Shelf(coll, items, source), g);
    var row := Shelf(coll, items, source)[g];
    LoadedHas(coll, items, source, row);
    hide Offered, Loaded;
    link :| link in items && Offered(coll, link, items[link], source) == Some(row);
    OfferedIs(coll, link, items[link], source);
  }

  /** The hub, and each source's own server. */
  datatype HubWorld = HubWorld(items: Items, servers: map<SourceId, Server>) {
    function ServerAt(source: SourceId): Server {
      if source in servers then servers[source] else map[]
    }
  }

  /** One source's turn: its options, what it is shown of its server, what that answers, and with what. */
  datatype Turn = Turn(source: SourceId, opts: Options, cursor: Option<Checkpoint>, snapshot: Snapshot,
                       answers: seq<seq<PushResult>>, mint: Mint)

  ghost function Asked(coll: CollectionId, w: HubWorld, turn: Turn): seq<Yield> {
    RunOf(coll, turn.opts, Loaded(coll, w.items, turn.source), turn.cursor, turn.snapshot, turn.answers).asked
  }

  /** The world once a source has run a whole sync of what it is offered. */
  ghost function Taken(coll: CollectionId, policy: Policy, w: HubWorld, turn: Turn): HubWorld {
    var asked := Asked(coll, w, turn);
    HubWorld(Absorbed(w.items, turn.source, Ops(asked), policy),
          w.servers[turn.source := Serve(w.ServerAt(turn.source), Sent(asked), turn.mint)])
  }

  /** The handle a listed row on the shelf may fork its body to, and the identity it forks under. */
  ghost predicate ForksTo(turn: Turn, store: Rows, server: Server, g: Handle, d: Handle, link: LinkId) {
    && turn.opts.conflict == KeepBoth && g in store && g in server && store[g].body.Some?
    && d == DupHandle(g, store[g].body.value) && link == ForkLink(store[g].body.value)
  }

  /** The handles forks are made up under are of one body each: none is listed, assigned, kept for items
    * still to create, or bound but to an earlier fork of that body. */
  ghost predicate ForksApart(coll: CollectionId, w: HubWorld, turn: Turn) {
    var store, server := Shelf(coll, w.items, turn.source), w.ServerAt(turn.source);
    && (forall g, d, link :: ForksTo(turn, store, server, g, d, link) ==>
          && !Reserved(d) && d !in server
          && (forall a :: a in w.items && BoundUnder(w.items[a], turn.source, d) ==> a == link)
          && (forall k :: AddsAt(coll, turn.opts, store, server, k) ==> !turn.mint.Names(k, d)))
    && (forall g, k, d, a,
        b :: ForksTo(turn, store, server, g, d, a) && ForksTo(turn, store, server, k, d, b) ==> a == b)
  }

  predicate BoundUnder(item: HubItem, source: SourceId, h: Handle) {
    source in item.sources && item.sources[source].handle == h
  }

  /** An item under an identity of the kind forks are made under. */
  predicate IsFork(link: LinkId) {
    KEEP_BOTH <= link.text
  }

  /** A turn no fork of which can land on an item. */
  predicate Unforked(turn: Turn, link: LinkId) {
    turn.opts.conflict == KeepBoth ==> !IsFork(link)
  }

  lemma UnforkedIsElsewhere(turn: Turn, store: Rows, server: Server, link: LinkId)
    requires Unforked(turn, link)
    ensures forall g, d :: !ForksTo(turn, store, server, g, d, link)
  {
  }

  /** A fair turn: the source is shown all its server holds, every push is accepted, and a create is
    * assigned a handle that is new, and none kept for items still to create; a fork's handle is new too. */
  ghost predicate Fair(coll: CollectionId, w: HubWorld, turn: Turn) {
    var store, server := Shelf(coll, w.items, turn.source), w.ServerAt(turn.source);
    && Shows(turn.snapshot, server) && turn.answers == Accepting(Asked(coll, w, turn), turn.mint)
    && FreshNames(coll, turn.opts, store, server, turn.mint)
    && (forall g :: AddsAt(coll, turn.opts, store, server, g) && turn.mint.name(g).Some? ==>
          !Reserved(turn.mint.name(g).value))
    && ForksApart(coll, w, turn)
  }

  ghost predicate OrderlyWorld(w: HubWorld) {
    && Orderly(w.items)
    && (forall s, h :: h in w.ServerAt(s) ==> !Reserved(h))
  }

  /** Whatever a turn writes of an item it writes under the handle its source holds it at. */
  lemma TurnCarries(coll: CollectionId, w: HubWorld, turn: Turn, link: LinkId, h: Handle)
    requires OrderlyWorld(w) && Fair(coll, w, turn)
    requires link in w.items && turn.source in w.items[link].sources && w.items[link].sources[turn.source].handle == h
    requires !AddsAt(coll, turn.opts, Shelf(coll, w.items, turn.source), w.ServerAt(turn.source), h)
    requires Unforked(turn, link)
    ensures CarriedAt(Ops(Asked(coll, w, turn)), link, h)
  {
    forall op | op in Ops(Asked(coll, w, turn)) && op.UpsertPlacement? && op.placement.linkId == Some(link)
      ensures op.placement.handle == h
    {
      hide *;
      var g := WrittenFrom(coll, w, turn, op);
      UnforkedIsElsewhere(turn, Shelf(coll, w.items, turn.source), w.ServerAt(turn.source), link);
      HeldOnShelf(coll, w.items, turn.source, link, g);
    }
  }

  /** A row a turn writes with an identity comes from the row on the shelf with it, or forks one. */
  lemma WrittenFrom(coll: CollectionId, w: HubWorld, turn: Turn, op: WriteOp) returns (g: Handle)
    requires Fair(coll, w, turn)
    requires op in Ops(Asked(coll, w, turn)) && op.UpsertPlacement? && op.placement.linkId.Some?
    ensures var store, server := Shelf(coll, w.items, turn.source), w.ServerAt(turn.source);
            && g in store
            && (|| (store[g].linkId == op.placement.linkId
                    && (op.placement.handle == g
                        || (AddsAt(coll, turn.opts, store, server, g) && turn.mint.Names(g, op.placement.handle))))
                || ForksTo(turn, store, server, g, op.placement.handle, op.placement.linkId.value))
  {
    var store, server := Shelf(coll, w.items, turn.source), w.ServerAt(turn.source);
    ShelfLists(coll, w.items, turn.source);
    RowsOwn(Loaded(coll, w.items, turn.source), store);
    hide RunOf, Ops, Loaded, Shelf, FreshNames, Accepting, AddsAt, ForksApart;
    RunFollows(coll, turn.opts, Loaded(coll, w.items, turn.source), store, turn.cursor, turn.snapshot, server,
               turn.mint,
               turn.answers, op);
    g :| g in store && FollowsFrom(coll, turn.opts, store, server, turn.mint, op, g);
  }

  /** The one row on the shelf with an item's identity is where its source holds it. */
  lemma HeldOnShelf(coll: CollectionId, items: Items, source: SourceId, link: LinkId, g: Handle)
    requires link in items && source in items[link].sources
    requires g in Shelf(coll, items, source) && Shelf(coll, items, source)[g].linkId == Some(link)
    ensures g == items[link].sources[source].handle
  {
    hide Shelf, Offered;
    var other := ShelfOf(coll, items, source, g);
    OfferedIs(coll, link, items[link], source);
  }

  /** What a turn does to an item its source holds, and creates nothing of, is what one round of its row
    * does: on the hub, and on the source's server. */
  lemma HeldTurn(coll: CollectionId, policy: Policy, w: HubWorld, turn: Turn, link: LinkId)
    requires OrderlyWorld(w) && Fair(coll, w, turn)
    requires link in w.items && turn.source in w.items[link].sources
    requires var h := w.items[link].sources[turn.source].handle;
             !AddsAt(coll, turn.opts, Shelf(coll, w.items, turn.source), w.ServerAt(turn.source), h)
    requires Unforked(turn, link)
    ensures Offered(coll, link, w.items[link], turn.source).Some?
    ensures var row := Offered(coll, link, w.items[link], turn.source).value;
            var h := w.items[link].sources[turn.source].handle;
            var m := MemberAt(w.ServerAt(turn.source), h);
            var ops := RoundOps(coll, turn.opts, row, Listing(h, m), turn.mint.stamp(h));
            var after := Taken(coll, policy, w, turn);
            && row.handle == h
            && ItemOf(after.items, link)
               == PrunedItem(OnItemAll(Some(w.items[link]), link, turn.source, Touching(ops, h), policy))
            && MemberAt(after.ServerAt(turn.source), h)
               == ServedMember(m, RoundEffect(coll, turn.opts, row, Listing(h, m)).push, turn.mint.stamp(h))
  {
    var source := turn.source;
    var store, server := Shelf(coll, w.items, source), w.ServerAt(source);
    var item := w.items[link];
    var h := item.sources[source].handle;
    var asked := Asked(coll, w, turn);
    OfferedIs(coll, link, item, source);
    ShelfLists(coll, w.items, source);
    ShelfHolds(coll, w.items, source, link);
    TurnCarries(coll, w, turn, link, h);
    assert BoundUnder(item, source, h);
    UnforkedIsElsewhere(turn, store, server, link);
    TurnIsAlone(coll, w, turn, h);
    NoneNamed(coll, w, turn, h);
    EffectIsRound(coll, turn.opts, store, server, h);
    hide RunOf, Ops, Sent, Loaded, Shelf, Orderly, FreshNames, Accepting, AddsAt, Reserved, Offered, Absorbed, Serve,
         OnItemAll, Shows, Touching, EffectOf, RoundEffect, EffectOps, Lists, Alone, Unminted, CarriedAt, ServedMember;
    RunTouches(coll, turn.opts, Loaded(coll, w.items, source), store, turn.cursor, turn.snapshot, server, turn.mint,
               turn.answers, h);
    AbsorbedItem(w.items, source, Ops(asked), policy, link);
    OnlyTouchingMatter(Some(item), link, source, Ops(asked), policy, h);
  }

  /** A handle no row forks to is written by its own row alone. */
  lemma TurnIsAlone(coll: CollectionId, w: HubWorld, turn: Turn, h: Handle)
    requires forall g, link :: !ForksTo(turn, Shelf(coll, w.items, turn.source), w.ServerAt(turn.source), g, h, link)
    ensures Alone(coll, turn.opts, Shelf(coll, w.items, turn.source), w.ServerAt(turn.source), h)
  {
    var store, server := Shelf(coll, w.items, turn.source), w.ServerAt(turn.source);
    ShelfLists(coll, w.items, turn.source);
    RowsOwn(Loaded(coll, w.items, turn.source), store);
    hide Shelf, Loaded;
    if turn.opts.conflict == KeepBoth {
      forall g | g in store && g in server && g != h && store[g].body.Some?
        ensures DupHandle(g, store[g].body.value) != h
      {
        assert !ForksTo(turn, store, server, g, h, ForkLink(store[g].body.value));
      }
    }
    UnforkedIsAlone(coll, turn.opts, store, server, h);
  }

  /** A handle on the shelf is no create's new name. */
  lemma NoneNamed(coll: CollectionId, w: HubWorld, turn: Turn, h: Handle)
    requires Fair(coll, w, turn)
    requires h in Shelf(coll, w.items, turn.source) || h in w.ServerAt(turn.source)
    ensures Unminted(coll, turn.opts, Shelf(coll, w.items, turn.source), w.ServerAt(turn.source), turn.mint, h)
  {
    hide AddsAt, Shelf, Shows, Accepting, Asked;
  }

  lemma EffectIsRound(coll: CollectionId, opts: Options, store: Rows, server: Server, h: Handle)
    requires h in store && store[h].handle == h
    ensures EffectOf(coll, opts, store, server, h) == RoundEffect(coll, opts, store[h], Listing(h, MemberAt(server, h)))
    ensures forall stamp :: RoundOps(coll, opts, store[h], Listing(h, MemberAt(server, h)), stamp)
                            == EffectOps(coll, h, EffectOf(coll, opts, store, server, h), stamp)
  {
    hide MergeOne;
  }

  /** A turn leaves an item its source neither holds nor is offered as it was, gone or not. */
  lemma UnofferedTurn(coll: CollectionId, policy: Policy, w: HubWorld, turn: Turn, link: LinkId)
    requires OrderlyWorld(w) && Fair(coll, w, turn) && Unforked(turn, link)
    requires link in w.items ==> turn.source !in w.items[link].sources && w.items[link].deleted
    ensures ItemOf(Taken(coll, policy, w, turn).items, link) == ItemOf(w.items, link)
  {
    var source := turn.source;
    var ops := Ops(Asked(coll, w, turn));
    assert PrunedItem(ItemOf(w.items, link)) == ItemOf(w.items, link);
    forall op | op in ops && op.UpsertPlacement? ensures op.placement.linkId != Some(link) {
      if op.placement.linkId == Some(link) {
        hide *;
        var g := WrittenFrom(coll, w, turn, op);
        UnforkedIsElsewhere(turn, Shelf(coll, w.items, source), w.ServerAt(source), link);
        var other := ShelfOf(coll, w.items, source, g);
        NotOffered(coll, w.items, source, link);
      }
    }
    hide Asked, Ops, Absorbed, OnItemAll, Fair, OrderlyWorld;
    UnheldIsUntouched(ItemOf(w.items, link), link, source, ops, policy);
    AbsorbedItem(w.items, source, ops, policy, link);
  }

  lemma NotOffered(coll: CollectionId, items: Items, source: SourceId, link: LinkId)
    requires link in items ==> source !in items[link].sources && items[link].deleted
    ensures link in items ==> Offered(coll, link, items[link], source) == None
  {
  }

  /** No turn touches another source's server. */
  lemma OthersServers(coll: CollectionId, policy: Policy, w: HubWorld, turn: Turn, s: SourceId)
    requires s != turn.source
    ensures Taken(coll, policy, w, turn).ServerAt(s) == w.ServerAt(s)
  {
    hide Absorbed, Serve;
  }

  /** Where an absorption leaves a binding from: as it was, or as some write bound it. */
  ghost predicate BoundFrom(item: Option<HubItem>, link: LinkId, source: SourceId, ops: seq<WriteOp>, h: Handle) {
    || (item.Some? && source in item.value.sources && item.value.sources[source].handle == h)
    || (exists op :: op in ops && op.UpsertPlacement? && op.placement.linkId == Some(link) && op.placement.handle == h)
  }

  ghost predicate OthersAsWere(before: Option<HubItem>, after: Option<HubItem>, source: SourceId) {
    forall s :: s != source ==>
      && (after.Some? && s in after.value.sources <==> before.Some? && s in before.value.sources)
      && (after.Some? && s in after.value.sources ==> after.value.sources[s] == before.value.sources[s])
  }

  lemma {:induction false} BindingsCome(item: Option<HubItem>, link: LinkId, source: SourceId, ops: seq<WriteOp>,
                                        policy: Policy)
    ensures var after := OnItemAll(item, link, source, ops, policy);
            && OthersAsWere(item, after, source)
            && (after.Some? && source in after.value.sources ==>
                  BoundFrom(item, link, source, ops, after.value.sources[source].handle))
    decreases |ops|
  {
    if ops != [] {
      var next := OnItem(item, link, source, ops[0], policy);
      BindingComes(item, link, source, ops[0], policy);
      hide OnItem;
      assert ops[0] in ops && forall o :: o in ops[1..] ==> o in ops;
      BindingsCome(next, link, source, ops[1..], policy);
    }
  }

  lemma BindingComes(item: Option<HubItem>, link: LinkId, source: SourceId, op: WriteOp, policy: Policy)
    ensures var next := OnItem(item, link, source, op, policy);
            && OthersAsWere(item, next, source)
            && (next.Some? && source in next.value.sources ==>
                  var h := next.value.sources[source].handle;
                  || (item.Some? && source in item.value.sources && item.value.sources[source].handle == h)
                  || (op.UpsertPlacement? && op.placement.linkId == Some(link) && op.placement.handle == h))
  {
    if op.UpsertPlacement? && op.placement.linkId == Some(link) {
      UpsertBinds(if item.Some? then item.value else NewItem(op.placement), source, op.placement, policy);
    }
    hide UpsertedItem;
  }

  /** A handle an item's source holds it under, its create is assigned, or a row forks to as it. */
  ghost predicate OwnedBy(coll: CollectionId, w: HubWorld, turn: Turn, h: Handle, link: LinkId) {
    var store, server := Shelf(coll, w.items, turn.source), w.ServerAt(turn.source);
    || (link in w.items && BoundUnder(w.items[link], turn.source, h))
    || NamedFor(coll, turn, store, server, h, link)
    || (exists g :: ForksTo(turn, store, server, g, h, link))
  }

  ghost predicate NamedFor(coll: CollectionId, turn: Turn, store: Rows, server: Server, h: Handle, link: LinkId) {
    exists g :: g in store && store[g].linkId == Some(link) && AddsAt(coll, turn.opts, store, server, g)
                && turn.mint.Names(g, h)
  }

  lemma OneOwner(coll: CollectionId, w: HubWorld, turn: Turn, h: Handle, a: LinkId, b: LinkId)
    requires OrderlyWorld(w) && Fair(coll, w, turn)
    requires OwnedBy(coll, w, turn, h, a) && OwnedBy(coll, w, turn, h, b)
    ensures a == b && !Reserved(h)
  {
    var store, server := Shelf(coll, w.items, turn.source), w.ServerAt(turn.source);
    HeldIsShelved(coll, w.items, turn.source, a);
    HeldIsShelved(coll, w.items, turn.source, b);
    OneFork(coll, w, turn, h, a, b);
    OneFork(coll, w, turn, h, b, a);
    NameIsNew(coll, turn, store, server, h, a, b);
    NameIsNew(coll, turn, store, server, h, b, a);
    hide Shelf, AddsAt, Shows, Accepting, Asked, Reserved, ForksTo, ForksApart, NamedFor, FreshNames;
  }

  /** A handle forked to is that fork's alone. */
  lemma OneFork(coll: CollectionId, w: HubWorld, turn: Turn, h: Handle, a: LinkId, b: LinkId)
    requires ForksApart(coll, w, turn)
    ensures var store, server := Shelf(coll, w.items, turn.source), w.ServerAt(turn.source);
            (exists g :: ForksTo(turn, store, server, g, h, a)) ==>
              && !Reserved(h) && !NamedFor(coll, turn, store, server, h, b)
              && (b in w.items && BoundUnder(w.items[b], turn.source, h) ==> a == b)
              && ((exists g :: ForksTo(turn, store, server, g, h, b)) ==> a == b)
  {
    hide Shelf, AddsAt, Reserved, ForksTo, BoundUnder;
  }

  /** A handle assigned to a create is that create's alone. */
  lemma NameIsNew(coll: CollectionId, turn: Turn, store: Rows, server: Server, h: Handle, a: LinkId, b: LinkId)
    requires FreshNames(coll, turn.opts, store, server, turn.mint)
    ensures NamedFor(coll, turn, store, server, h, a) ==>
              && h !in store && (NamedFor(coll, turn, store, server, h, b) ==> a == b)
              && exists g :: AddsAt(coll, turn.opts, store, server, g) && turn.mint.Names(g, h)
  {
    hide AddsAt;
  }

  lemma HeldIsShelved(coll: CollectionId, items: Items, source: SourceId, link: LinkId)
    requires Orderly(items)
    ensures link in items && source in items[link].sources
            ==> items[link].sources[source].handle in Shelf(coll, items, source)
  {
    if link in items && source in items[link].sources {
      OfferedIs(coll, link, items[link], source);
      hide Shelf, Orderly, Reserved;
      ShelfHolds(coll, items, source, link);
      assert Offered(coll, link, items[link], source).Some?;
      hide Offered;
    }
  }

  /** A create still waiting writes nothing under the handle it waits under. */
  lemma PlaceholderUnwritten(coll: CollectionId, w: HubWorld, turn: Turn, g: Handle, op: WriteOp)
    requires OrderlyWorld(w) && Fair(coll, w, turn)
    requires var store := Shelf(coll, w.items, turn.source);
             g in store && store[g].handle == g && store[g].status == Created && store[g].base.None? && Reserved(g)
    requires op in Ops(Asked(coll, w, turn)) && op.UpsertPlacement?
    ensures op.placement.handle != g
  {
    var source := turn.source;
    var store, server := Shelf(coll, w.items, source), w.ServerAt(source);
    var asked := Asked(coll, w, turn);
    assert g !in server;
    ShelfLists(coll, w.items, source);
    TurnIsAlone(coll, w, turn, g);
    NoneNamed(coll, w, turn, g);
    WaitingWrites(coll, turn.opts, store, server, g, turn.mint.stamp(g), op);
    hide RunOf, Ops, Sent, Loaded, Shelf, Orderly, FreshNames, Accepting, AddsAt, Reserved, Touching, EffectOf,
         EffectOps, Lists, Alone, Unminted, Shows;
    RunTouches(coll, turn.opts, Loaded(coll, w.items, source), store, turn.cursor, turn.snapshot, server, turn.mint,
               turn.answers, g);
    TouchingHas(Ops(asked), g, op);
  }

  lemma WaitingWrites(coll: CollectionId, opts: Options, store: Rows, server: Server, g: Handle,
                      stamp: Option<Revision>, op: WriteOp)
    requires g in store && store[g].handle == g && store[g].status == Created && store[g].base.None? && g !in server
    requires op.UpsertPlacement?
    ensures op !in Touching(EffectOps(coll, g, EffectOf(coll, opts, store, server, g), stamp), g)
  {
    var e := EffectOf(coll, opts, store, server, g);
    assert e.writes == [];
    if e.push.Some? {
      CreatePushRecords(coll, g, e.push.value.pending.row, stamp);
      hide RecordOne;
    }
    TouchingHas(EffectOps(coll, g, e, stamp), g, op);
  }

  /** Every row a turn writes with an identity lies under a handle that identity owns. */
  lemma WrittenIsOwned(coll: CollectionId, w: HubWorld, turn: Turn, op: WriteOp)
    requires OrderlyWorld(w) && Fair(coll, w, turn)
    requires op in Ops(Asked(coll, w, turn)) && op.UpsertPlacement? && op.placement.linkId.Some?
    ensures OwnedBy(coll, w, turn, op.placement.handle, op.placement.linkId.value)
  {
    hide *;
    var store, server := Shelf(coll, w.items, turn.source), w.ServerAt(turn.source);
    var g := WrittenFrom(coll, w, turn, op);
    var h, link := op.placement.handle, op.placement.linkId.value;
    var held := ShelfOf(coll, w.items, turn.source, g);
    if h == g && store[g].linkId == Some(link) {
      OfferedIs(coll, link, w.items[link], turn.source);
      CreatedIsReserved(link, link);
      if turn.source !in w.items[link].sources { PlaceholderUnwritten(coll, w, turn, g, op); }
    }
    IsOwned(coll, w, turn, h, link, g);
  }

  lemma IsOwned(coll: CollectionId, w: HubWorld, turn: Turn, h: Handle, link: LinkId, g: Handle)
    requires var store, server := Shelf(coll, w.items, turn.source), w.ServerAt(turn.source);
             || (link in w.items && turn.source in w.items[link].sources
                 && w.items[link].sources[turn.source].handle == h)
             || (g in store && store[g].linkId == Some(link) && AddsAt(coll, turn.opts, store, server, g)
                 && turn.mint.Names(g, h))
             || ForksTo(turn, store, server, g, h, link)
    ensures OwnedBy(coll, w, turn, h, link)
  {
    hide Shelf, AddsAt, ForksTo;
  }

  /** A binding after a turn is another source's as it was, or lies under a handle its item owns. */
  lemma TurnBinds(coll: CollectionId, policy: Policy, w: HubWorld, turn: Turn, link: LinkId)
    requires OrderlyWorld(w) && Fair(coll, w, turn)
    ensures var before, after := ItemOf(w.items, link), ItemOf(Taken(coll, policy, w, turn).items, link);
            && (after.Some? ==> after.value.sources != map[])
            && (after.Some? ==> forall s :: s != turn.source && s in after.value.sources ==>
                  before.Some? && s in before.value.sources && after.value.sources[s] == before.value.sources[s])
            && (after.Some? && turn.source in after.value.sources ==>
                  OwnedBy(coll, w, turn, after.value.sources[turn.source].handle, link))
  {
    var source := turn.source;
    var ops := Ops(Asked(coll, w, turn));
    AbsorbedItem(w.items, source, ops, policy, link);
    BindingsCome(ItemOf(w.items, link), link, source, ops, policy);
    var after := ItemOf(Taken(coll, policy, w, turn).items, link);
    hide Shelf, AddsAt, Asked, OrderlyWorld, Fair, Ops, Absorbed, OnItemAll, Serve, Sent;
    if after.Some? && source in after.value.sources {
      var h := after.value.sources[source].handle;
      if op :| op in ops && op.UpsertPlacement? && op.placement.linkId == Some(link) && op.placement.handle == h {
        WrittenIsOwned(coll, w, turn, op);
      }
    }
  }

  lemma TurnServes(coll: CollectionId, policy: Policy, w: HubWorld, turn: Turn, h: Handle)
    requires OrderlyWorld(w) && Fair(coll, w, turn)
             && h in Taken(coll, policy, w, turn).ServerAt(turn.source)
    ensures !Reserved(h)
  {
    var source := turn.source;
    var store, server := Shelf(coll, w.items, source), w.ServerAt(source);
    var listing := Loaded(coll, w.items, source);
    ShelfLists(coll, w.items, source);
    hide RunOf, Ops, Sent, Loaded, Shelf, Orderly, FreshNames, Accepting, AddsAt, Reserved, Absorbed, Shows, Serve;
    ServedHas(server, Sent(Asked(coll, w, turn)), turn.mint, h);
    if h !in server {
      var k :| k in Sent(Asked(coll, w, turn)) && k.Add? && turn.mint.Names(k.handle, h);
      AcceptedRun(coll, turn.opts, listing, turn.cursor, turn.snapshot, turn.answers, turn.mint);
      PushIsOwn(coll, turn.opts, listing, store, turn.cursor, turn.snapshot, server, k);
      AddIsAdd(coll, turn.opts, store, server, k);
    }
  }

  lemma AddIsAdd(coll: CollectionId, opts: Options, store: Rows, server: Server, k: ChangeKind)
    requires var e := EffectOf(coll, opts, store, server, k.handle); e.push.Some? && e.push.value.kind == k && k.Add?
    ensures AddsAt(coll, opts, store, server, k.handle)
  {
  }

  /** So a fair turn leaves the world in order. */
  lemma TurnKeepsOrder(coll: CollectionId, policy: Policy, w: HubWorld, turn: Turn)
    requires OrderlyWorld(w) && Fair(coll, w, turn)
    ensures OrderlyWorld(Taken(coll, policy, w, turn))
  {
    var t := Taken(coll, policy, w, turn);
    hide Taken, Fair, OwnedBy, Reserved;
    forall link | link in t.items ensures t.items[link].sources != map[] {
      TurnBinds(coll, policy, w, turn, link);
      assert ItemOf(t.items, link) == Some(t.items[link]);
    }
    forall a, s | a in t.items && s in t.items[a].sources ensures !Reserved(t.items[a].sources[s].handle) {
      TurnBinds(coll, policy, w, turn, a);
      assert ItemOf(t.items, a) == Some(t.items[a]);
      if s == turn.source { OneOwner(coll, w, turn, t.items[a].sources[s].handle, a, a); }
    }
    forall a, b, s | a in t.items && b in t.items && a != b && s in t.items[a].sources && s in t.items[b].sources
      ensures t.items[a].sources[s].handle != t.items[b].sources[s].handle
    {
      TurnBinds(coll, policy, w, turn, a);
      TurnBinds(coll, policy, w, turn, b);
      assert ItemOf(t.items, a) == Some(t.items[a]) && ItemOf(t.items, b) == Some(t.items[b]);
      if s == turn.source && t.items[a].sources[s].handle == t.items[b].sources[s].handle {
        OneOwner(coll, w, turn, t.items[a].sources[s].handle, a, b);
      }
    }
    forall s, h | h in t.ServerAt(s) ensures !Reserved(h) {
      if s == turn.source {
        TurnServes(coll, policy, w, turn, h);
      } else {
        OthersServers(coll, policy, w, turn, s);
      }
    }
  }

  ghost function TakenAll(coll: CollectionId, policy: Policy, w: HubWorld, turns: seq<Turn>): HubWorld
    decreases |turns|
  {
    if turns == [] then w else TakenAll(coll, policy, Taken(coll, policy, w, turns[0]), turns[1..])
  }

  ghost predicate FairAll(coll: CollectionId, policy: Policy, w: HubWorld, turns: seq<Turn>)
    decreases |turns|
  {
    turns != [] ==>
      && Fair(coll, w, turns[0])
      && FairAll(coll, policy, Taken(coll, policy, w, turns[0]), turns[1..])
  }

  lemma TurnsUnfold(coll: CollectionId, policy: Policy, w: HubWorld, turns: seq<Turn>)
    requires turns != []
    ensures TakenAll(coll, policy, w, turns)
            == TakenAll(coll, policy, Taken(coll, policy, w, turns[0]), turns[1..])
    ensures FairAll(coll, policy, w, turns) <==>
              Fair(coll, w, turns[0])
                && FairAll(coll, policy, Taken(coll, policy, w, turns[0]), turns[1..])
  {
    hide Taken, Fair;
  }

  lemma NoTurns(coll: CollectionId, policy: Policy, w: HubWorld, turns: seq<Turn>)
    requires |turns| == 0
    ensures TakenAll(coll, policy, w, turns) == w
  {
  }

  /** The sources that take a turn. */
  ghost function Syncing(turns: seq<Turn>): set<SourceId> {
    set turn | turn in turns :: turn.source
  }

  lemma SyncingFirst(turns: seq<Turn>)
    requires turns != []
    ensures Syncing(turns) == {turns[0].source} + Syncing(turns[1..])
  {
    assert turns == [turns[0]] + turns[1..];
  }
}

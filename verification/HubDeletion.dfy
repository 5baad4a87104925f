/** A deletion reaches every source holding the item, and ends. */
module HubDeletion {
  import opened Wrappers
  import opened Text
  import opened Placement
  import opened Change
  import opened Remote
  import opened MergeRules
  import opened SyncMachine
  import opened Storage
  import opened Acceptance
  import opened Rounds
  import opened OneHandle
  import opened Hub
  import opened HubTurns

  /** A source reporting no edit of the item since the binding's base. */
  predicate Unedited(binding: Binding, listed: Option<RemoteItem>) {
    listed.Some? ==>
      && listed.value.handle == binding.handle && binding.base.Some?
      && (listed.value.revision.None? || listed.value.revision == binding.base.value.revision)
  }

  /** The sync of a source bound to a deleted item asks for one thing: its own row dropped. */
  lemma TombstoneRound(coll: CollectionId, opts: Options, link: LinkId, item: HubItem, binding: Binding,
                       listed: Option<RemoteItem>, stamp: Option<Revision>)
    requires opts.MayRemove() && Unedited(binding, listed)
    ensures RoundOps(coll, opts, TombstonePlacement(coll, link, item, binding), listed, stamp)
            == [DropPlacement(coll, binding.handle, Deleted)]
    ensures var push := RoundEffect(coll, opts, TombstonePlacement(coll, link, item, binding), listed).push;
            push.Some? ==> push.value.kind.Remove?
  {
    var row := TombstonePlacement(coll, link, item, binding);
    hide MergeBoth, MergeRemoteDelete, PullAdd, RefuseDelete, PushUpdate;
    var e := RoundEffect(coll, opts, row, listed);
    if listed.Some? {
      assert e.writes == [] && e.push.Some? && e.push.value.pending == DropPush;
    } else {
      assert e == Dropping(coll, binding.handle);
    }
  }

  /** A turn that may remove an item, and forks nothing onto it. */
  predicate Removing(turn: Turn, link: LinkId) {
    turn.opts.MayRemove() && Unforked(turn, link)
  }

  /** The item as one of its sources reports it. */
  ghost predicate UneditedAt(w: HubWorld, link: LinkId, source: SourceId)
    requires link in w.items && source in w.items[link].sources
  {
    var binding := w.items[link].sources[source];
    Unedited(binding, Listing(binding.handle, MemberAt(w.ServerAt(source), binding.handle)))
  }

  /** No holder among some sources reporting an edit. */
  ghost predicate UneditedBy(w: HubWorld, link: LinkId, sources: set<SourceId>) {
    link in w.items && forall s :: s in w.items[link].sources && s in sources ==> UneditedAt(w, link, s)
  }

  lemma UneditedHas(w: HubWorld, link: LinkId, sources: set<SourceId>, fewer: set<SourceId>, source: SourceId)
    requires UneditedBy(w, link, sources) && sources == {source} + fewer
    ensures UneditedBy(w, link, fewer)
    ensures source in w.items[link].sources ==> UneditedAt(w, link, source)
  {
  }

  /** A deleted item, one holder fewer; gone with its last. */
  function Without(item: HubItem, sources: set<SourceId>): Option<HubItem> {
    PrunedItem(Some(item.(sources := item.sources - sources)))
  }

  /** A source's whole sync takes away its own binding of a deleted item and nothing else of it; a source
    * lacking the item is offered nothing of it, and writes nothing of it. */
  lemma DeletionStep(coll: CollectionId, policy: Policy, w: HubWorld, turn: Turn, link: LinkId)
    requires OrderlyWorld(w) && Fair(coll, w, turn) && Removing(turn, link)
    requires link in w.items && w.items[link].deleted
    requires turn.source in w.items[link].sources ==> UneditedAt(w, link, turn.source)
    ensures turn.source !in w.items[link].sources ==> Offered(coll, link, w.items[link], turn.source) == None
    ensures ItemOf(Taken(coll, policy, w, turn).items, link) == Without(w.items[link], {turn.source})
  {
    if turn.source in w.items[link].sources {
      DeletionHeld(coll, policy, w, turn, link);
    } else {
      LacksNothing(w.items[link], link, turn.source, coll);
      IsPopulated(w, link);
      hide *;
      UnofferedTurn(coll, policy, w, turn, link);
    }
  }

  lemma IsPopulated(w: HubWorld, link: LinkId)
    requires OrderlyWorld(w) && link in w.items
    ensures w.items[link].sources != map[] && ItemOf(w.items, link) == Some(w.items[link])
    ensures forall s :: s !in w.items[link].sources ==> Without(w.items[link], {s}) == Some(w.items[link])
  {
    forall s | s !in w.items[link].sources ensures Without(w.items[link], {s}) == Some(w.items[link]) {
      assert w.items[link].sources - {s} == w.items[link].sources;
    }
  }

  lemma LacksNothing(item: HubItem, link: LinkId, source: SourceId, coll: CollectionId)
    requires item.deleted && source !in item.sources
    ensures Offered(coll, link, item, source) == None
  {
  }

  lemma DeletionHeld(coll: CollectionId, policy: Policy, w: HubWorld, turn: Turn, link: LinkId)
    requires OrderlyWorld(w) && Fair(coll, w, turn) && Removing(turn, link)
    requires link in w.items && w.items[link].deleted
    requires turn.source in w.items[link].sources && UneditedAt(w, link, turn.source)
    ensures ItemOf(Taken(coll, policy, w, turn).items, link) == Without(w.items[link], {turn.source})
  {
    var item, source := w.items[link], turn.source;
    var h := item.sources[source].handle;
    assert Unedited(item.sources[source], Listing(h, MemberAt(w.ServerAt(source), h)));
    hide *;
    TombstoneRound(coll, turn.opts, link, item, item.sources[source], Listing(h, MemberAt(w.ServerAt(source), h)),
                   turn.mint.stamp(h));
    TombstoneOffered(coll, link, item, source);
    DeletedAddsNothing(coll, turn.opts, w, link, source);
    HeldTurn(coll, policy, w, turn, link);
    DropUnbinds(coll, item, link, source, h, policy);
  }

  lemma TombstoneOffered(coll: CollectionId, link: LinkId, item: HubItem, source: SourceId)
    requires item.deleted && source in item.sources
    ensures Offered(coll, link, item, source) == Some(TombstonePlacement(coll, link, item, item.sources[source]))
  {
  }

  lemma DropUnbinds(coll: CollectionId, item: HubItem, link: LinkId, source: SourceId, h: Handle, policy: Policy)
    requires item.deleted && source in item.sources && item.sources[source].handle == h
    ensures var ops := [DropPlacement(coll, h, Deleted)];
            PrunedItem(OnItemAll(Some(item), link, source, Touching(ops, h), policy)) == Without(item, {source})
  {
    var ops := [DropPlacement(coll, h, Deleted)];
    assert ops[1..] == [] && Touching(ops, h) == ops;
  }

  /** No create waits under the handle a deleted item is held at. */
  lemma DeletedAddsNothing(coll: CollectionId, opts: Options, w: HubWorld, link: LinkId, source: SourceId)
    requires OrderlyWorld(w) && opts.MayRemove() && link in w.items && w.items[link].deleted
    requires source in w.items[link].sources && UneditedAt(w, link, source)
    ensures !AddsAt(coll, opts, Shelf(coll, w.items, source), w.ServerAt(source), w.items[link].sources[source].handle)
  {
    var item := w.items[link];
    var h := item.sources[source].handle;
    var store, server := Shelf(coll, w.items, source), w.ServerAt(source);
    TombstoneOffered(coll, link, item, source);
    ShelfHolds(coll, w.items, source, link);
    TombstoneRound(coll, opts, link, item, item.sources[source], Listing(h, MemberAt(server, h)), None);
    assert store[h] == TombstonePlacement(coll, link, item, item.sources[source]) && store[h].handle == h;
    EffectIsRound(coll, opts, store, server, h);
    hide Shelf, EffectOf, RoundEffect, TombstonePlacement;
  }

  /** What is left of a deleted item through any turns: its holders less those that took one. */
  lemma {:induction false} DeletionRuns(coll: CollectionId, policy: Policy, w: HubWorld,
                                        turns: seq<Turn>, link: LinkId)
    requires OrderlyWorld(w) && FairAll(coll, policy, w, turns) && forall turn :: turn in turns ==> Removing(turn, link)
    requires link in w.items && w.items[link].deleted
    requires UneditedBy(w, link, Syncing(turns))
    ensures ItemOf(TakenAll(coll, policy, w, turns).items, link) == Without(w.items[link], Syncing(turns))
    decreases |turns|
  {
    var item := w.items[link];
    if |turns| == 0 {
      NoTurns(coll, policy, w, turns);
      assert item.sources != map[] && item.sources - Syncing(turns) == item.sources
             && item.(sources := item.sources) == item;
    } else {
      RemovingAll(turns, link);
      hide *;
      var next := Taken(coll, policy, w, turns[0]);
      TurnsUnfold(coll, policy, w, turns);
      SyncingFirst(turns);
      UneditedHas(w, link, Syncing(turns), Syncing(turns[1..]), turns[0].source);
      WithoutMore(item, turns[0].source, Syncing(turns[1..]));
      DeletionStep(coll, policy, w, turns[0], link);
      TurnKeepsOrder(coll, policy, w, turns[0]);
      WithoutOne(next.items, link, item, turns[0].source);
      if link in next.items {
        StillUnedited(coll, policy, w, turns[0], link, Syncing(turns[1..]));
        DeletionRuns(coll, policy, next, turns[1..], link);
      } else {
        StaysGone(coll, policy, next, turns[1..], link);
      }
    }
  }

  lemma RemovingAll(turns: seq<Turn>, link: LinkId)
    requires |turns| > 0 && forall turn :: turn in turns ==> Removing(turn, link)
    ensures Removing(turns[0], link)
    ensures forall turn :: turn in turns[1..] ==> Removing(turn, link) && Unforked(turn, link)
  {
    assert turns[0] in turns && forall turn :: turn in turns[1..] ==> turn in turns;
  }

  lemma WithoutOne(items: Items, link: LinkId, item: HubItem, source: SourceId)
    requires ItemOf(items, link) == Without(item, {source}) && item.deleted
    ensures link in items <==> item.sources - {source} != map[]
    ensures link in items ==> items[link] == item.(sources := item.sources - {source}) && items[link].deleted
  {
  }

  /** The holders left are as unedited as they were. */
  lemma StillUnedited(coll: CollectionId, policy: Policy, w: HubWorld, turn: Turn, link: LinkId,
                      sources: set<SourceId>)
    requires UneditedBy(w, link, sources)
    requires var next := Taken(coll, policy, w, turn);
             link in next.items && next.items[link].sources == w.items[link].sources - {turn.source}
    ensures var next := Taken(coll, policy, w, turn);
            UneditedBy(next, link, sources)
  {
    var next := Taken(coll, policy, w, turn);
    hide Taken, Unedited;
    forall s | s in next.items[link].sources && s in sources ensures UneditedAt(next, link, s) {
      assert s in w.items[link].sources && UneditedAt(w, link, s);
      OthersServers(coll, policy, w, turn, s);
    }
  }

  lemma WithoutMore(item: HubItem, source: SourceId, later: set<SourceId>)
    ensures var left := item.(sources := item.sources - {source});
            Without(left, later) == Without(item, {source} + later)
    ensures item.sources - {source} == map[] ==> Without(item, {source} + later) == None
  {
    assert (item.sources - {source}) - later == item.sources - ({source} + later);
  }

  lemma {:induction false} StaysGone(coll: CollectionId, policy: Policy, w: HubWorld, turns: seq<Turn>,
                                     link: LinkId)
    requires OrderlyWorld(w) && FairAll(coll, policy, w, turns) && link !in w.items
    requires forall turn :: turn in turns ==> Unforked(turn, link)
    ensures ItemOf(TakenAll(coll, policy, w, turns).items, link) == None
    decreases |turns|
  {
    if |turns| == 0 {
      NoTurns(coll, policy, w, turns);
    } else {
      TurnsUnfold(coll, policy, w, turns);
      hide TakenAll, FairAll, Fair, Taken, OrderlyWorld;
      UnofferedTurn(coll, policy, w, turns[0], link);
      TurnKeepsOrder(coll, policy, w, turns[0]);
      StaysGone(coll, policy, Taken(coll, policy, w, turns[0]), turns[1..], link);
    }
  }

  /** So once every holder has synced, in whatever order, however often and whatever else each had to sync,
    * the item is gone, and not before. */
  lemma DeletionCompletes(coll: CollectionId, policy: Policy, w: HubWorld, turns: seq<Turn>,
                          link: LinkId)
    requires OrderlyWorld(w) && FairAll(coll, policy, w, turns) && forall turn :: turn in turns ==> Removing(turn, link)
    requires link in w.items && w.items[link].deleted
    requires UneditedBy(w, link, Syncing(turns))
    ensures link !in TakenAll(coll, policy, w, turns).items
            <==> forall s :: s in w.items[link].sources ==> s in Syncing(turns)
  {
    DeletionRuns(coll, policy, w, turns, link);
    hide TakenAll, FairAll, OrderlyWorld, Syncing;
    NoneLeft(w.items[link].sources, Syncing(turns));
  }

  lemma NoneLeft(sources: map<SourceId, Binding>, synced: set<SourceId>)
    ensures sources - synced == map[] <==> forall s :: s in sources ==> s in synced
  {
    var left := sources - synced;
    assert forall s :: s in left <==> s in sources && s !in synced;
    assert left == map[] <==> forall s :: s !in left;
  }

  lemma AbsorbedSingle(items: Items, source: SourceId, op: WriteOp, policy: Policy)
    ensures AbsorbedAll(items, source, [op], policy) == AbsorbedOp(items, source, op, policy)
  {
    assert [op][1..] == [];
    hide AbsorbedOp;
  }

  lemma AbsorbedTwo(items: Items, source: SourceId, a: WriteOp, b: WriteOp, policy: Policy)
    ensures AbsorbedAll(items, source, [a, b], policy)
            == AbsorbedOp(AbsorbedOp(items, source, a, policy), source, b, policy)
  {
    assert [a, b][1..] == [b];
    AbsorbedSingle(AbsorbedOp(items, source, a, policy), source, b, policy);
    hide AbsorbedOp;
  }

  /** A batch deleting nothing for good marks no item deleted: a superseded row is a handle the
    * batch replaces. */
  lemma {:induction false} SupersedingDeletesNothing(items: Items, source: SourceId, ops: seq<WriteOp>, policy: Policy,
                                                     link: LinkId)
    requires forall op :: op in ops ==>
      (op.DropPlacement? ==> op.reason == Superseded) && (op.UpsertPlacement? ==> op.placement.status != Tombstone)
    requires link in items ==> !items[link].deleted
    ensures var after := AbsorbedAll(items, source, ops, policy); link in after ==> !after[link].deleted
    decreases |ops|
  {
    if ops != [] {
      assert ops[0] in ops;
      UpsertRevives(items, source, ops[0], policy, link);
      hide AbsorbedOp;
      SupersedingDeletesNothing(AbsorbedOp(items, source, ops[0], policy), source, ops[1..], policy, link);
    }
  }

  lemma UpsertRevives(items: Items, source: SourceId, op: WriteOp, policy: Policy, link: LinkId)
    requires op.DropPlacement? ==> op.reason == Superseded
    requires op.UpsertPlacement? ==> op.placement.status != Tombstone
    requires link in items ==> !items[link].deleted
    ensures var after := AbsorbedOp(items, source, op, policy); link in after ==> !after[link].deleted
  {
    hide Judge;
  }

  /** The drop and upsert an accepted create records leave its item bound to the source under the
    * assigned handle, live, and every other binding alone: it is not let go of in between. */
  lemma RekeyedCreateKeepsItem(items: Items, source: SourceId, coll: CollectionId, placeholder: Placement,
                               r: PushResult, policy: Policy)
    requires placeholder.linkId.Some? && placeholder.linkId.value in items && r.assignedHandle.Some?
    ensures var link := placeholder.linkId.value;
            var after := Absorbed(items, source, CreateWrites(coll, placeholder, r), policy);
            && link in after && !after[link].deleted
            && source in after[link].sources && after[link].sources[source].handle == r.assignedHandle.value
            && (forall other :: other != source ==>
                  (other in after[link].sources <==> other in items[link].sources)
                  && (other in after[link].sources ==> after[link].sources[other] == items[link].sources[other]))
  {
    var link := placeholder.linkId.value;
    var drop := DropPlacement(coll, placeholder.handle, Superseded);
    var placed := PlacedRow(placeholder, r.assignedHandle.value, r.revision);
    var ops := CreateWrites(coll, placeholder, r);
    assert ops == [drop, UpsertPlacement(placed)];
    AbsorbedTwo(items, source, drop, UpsertPlacement(placed), policy);
    var dropped := Dropped(items, source, placeholder.handle, Superseded);
    var after := Upserted(dropped, source, placed, policy);
    assert AbsorbedAll(items, source, ops, policy) == after;
    hide Judge;
    assert source in after[link].sources;
  }
}

/** The multi-source hub: one shared item, and a base per source holding it. */
module Hub {
  import opened Wrappers
  import opened Text
  import opened Placement
  import opened Change

  datatype SourceId = SourceId(text: Text)

  datatype Binding = Binding(
    handle: Handle,
    base: Option<Base>,
    conflicted: bool,
    conflictRevision: Option<Revision>,
    conflictBody: Option<Hash>,
    shared: Option<Hash>
  ) {
    function BaseBody(): Option<Hash> {
      if base.Some? then base.value.body else None
    }
  }

  datatype Policy = Manual | PreferIncoming | PreferExisting

  datatype HubItem = HubItem(
    flags: Flags,
    body: Option<Hash>,
    meta: Option<Meta>,
    sortKey: SortKey,
    level: Level,
    deleted: bool,
    conflicted: bool,
    conflictBody: Option<Hash>,
    sources: map<SourceId, Binding>
  ) {
    /** The level the item can honestly claim: `Full` only with a body. */
    function StoredLevel(): Level {
      if body.Some? then level else level.Min(MetaLevel)
    }

    /** The shared half of a projection, the same for every source. */
    function Project(coll: CollectionId, link: LinkId, h: Handle): Placement {
      Placement(coll, h, Some(link), body, StoredLevel(), meta, sortKey, flags, Clean, None, None, None, None)
    }
  }

  type Items = map<LinkId, HubItem>

  function BoundStatus(item: HubItem, binding: Binding): Status {
    if binding.conflicted then Conflict
    else if binding.base.None? && item.body.Some? then Created
    else if binding.base.Some? && binding.base.value.flags == item.flags && binding.base.value.body == item.body
         then Clean
    else Dirty
  }

  /** An item the source already holds: the shared content against the source's own base. */
  function BoundPlacement(coll: CollectionId, link: LinkId, item: HubItem, binding: Binding): Placement {
    item.Project(coll, link, binding.handle).(
      status := BoundStatus(item, binding),
      conflictRevision := binding.conflictRevision,
      conflictObject := binding.conflictBody,
      base := binding.base)
  }

  /** An item deleted elsewhere but still held here. */
  function TombstonePlacement(coll: CollectionId, link: LinkId, item: HubItem, binding: Binding): Placement {
    item.Project(coll, link, binding.handle).(status := Tombstone, base := binding.base)
  }

  const HUB: Text := [0x01, 0x68, 0x75, 0x62]

  /** The handle an item waits under on a source that lacks it. */
  function CreatedHandle(link: LinkId): Handle {
    Handle(link.text + HUB)
  }

  /** An append for an item missing on the source, once its body is there. */
  function CreatedPlacement(coll: CollectionId, link: LinkId, item: HubItem): Option<Placement> {
    if item.body.None? then None
    else Some(item.Project(coll, link, CreatedHandle(link)).(status := Created, level := Full))
  }

  /** What a source is offered of one item. */
  function Offered(coll: CollectionId, link: LinkId, item: HubItem, source: SourceId): Option<Placement> {
    if source in item.sources then
      Some(if item.deleted then TombstonePlacement(coll, link, item, item.sources[source])
           else BoundPlacement(coll, link, item, item.sources[source]))
    else if item.deleted then None
    else CreatedPlacement(coll, link, item)
  }

  /** How an incoming body stands against the shared one, each measured against its own base. */
  datatype Verdict = Diverged | Adopted | Kept

  function Judge(item: HubItem, source: SourceId, placement: Placement): Verdict {
    var prev := if source in item.sources then item.sources[source].BaseBody() else None;
    var agreed := if source in item.sources && item.sources[source].shared.Some? then item.sources[source].shared
                  else prev;
    var resolving := source in item.sources && item.sources[source].conflicted && placement.status != Conflict;
    var sourceEdited := placement.body != prev || resolving;
    var hubMoved := item.body != agreed;
    if placement.body == item.body || !sourceEdited then Kept
    else if !hubMoved then Adopted
    else if placement.body.Some? && item.body.Some? then Diverged
    else Kept
  }

  function Reconciled(item: HubItem, source: SourceId, placement: Placement, policy: Policy): HubItem {
    match Judge(item, source, placement)
    case Kept => item
    case Adopted => item.(body := placement.body, conflicted := false, conflictBody := None)
    case Diverged =>
      match policy
      case Manual => item.(conflicted := true, conflictBody := placement.body)
      case PreferIncoming => item.(body := placement.body, conflicted := false, conflictBody := None)
      case PreferExisting => item.(conflicted := false, conflictBody := None)
  }

  /** The binding an upsert leaves for its source. */
  function BindingOf(placement: Placement, shared: Option<Hash>): Binding {
    var conflicted := placement.status == Conflict;
    Binding(placement.handle, placement.base, conflicted,
            if conflicted then placement.conflictRevision else None,
            if conflicted then placement.conflictObject else None, shared)
  }

  function NewItem(placement: Placement): HubItem {
    HubItem(placement.flags, placement.body, placement.meta, placement.sortKey, placement.level, false, false,
            None, map[])
  }

  /** The shared fields a live upsert folds in: what it does not know erases nothing. */
  function Folded(item: HubItem, placement: Placement): HubItem {
    item.(deleted := false,
          flags := if placement.flags.Unknown? then item.flags else placement.flags,
          meta := if placement.meta.Some? then placement.meta else item.meta,
          sortKey := if placement.sortKey.IsUnknown() then item.sortKey else placement.sortKey,
          level := item.level.Max(placement.level))
  }

  /** The item an upsert leaves. */
  function UpsertedItem(item: HubItem, source: SourceId, placement: Placement, policy: Policy): HubItem {
    if placement.status == Tombstone then
      var agreed := if source in item.sources then item.sources[source].shared else None;
      item.(deleted := true, sources := item.sources[source := BindingOf(placement, agreed)])
    else
      var settled := Reconciled(Folded(item, placement), source, placement, policy);
      settled.(level := settled.StoredLevel(), sources := settled.sources[source := BindingOf(placement, settled.body)])
  }

  function Entry(items: Items, link: LinkId, placement: Placement): HubItem {
    if link in items then items[link] else NewItem(placement)
  }

  function Upserted(items: Items, source: SourceId, placement: Placement, policy: Policy): Items {
    if placement.linkId.None? then items
    else
      var link := placement.linkId.value;
      items[link := UpsertedItem(Entry(items, link, placement), source, placement, policy)]
  }

  function DroppedItem(item: HubItem, source: SourceId, h: Handle, reason: DropReason): HubItem {
    if source in item.sources && item.sources[source].handle == h
    then item.(deleted := item.deleted || reason == Deleted, sources := item.sources - {source})
    else item
  }

  function Dropped(items: Items, source: SourceId, h: Handle, reason: DropReason): Items {
    map link | link in items :: DroppedItem(items[link], source, h, reason)
  }

  function AbsorbedOp(items: Items, source: SourceId, op: WriteOp, policy: Policy): Items {
    match op
    case UpsertPlacement(placement) => Upserted(items, source, placement, policy)
    case DropPlacement(_, h, reason) => Dropped(items, source, h, reason)
    case StoreObject(_, _) => items
    case SetCheckpoint(_, _) => items
  }

  function AbsorbedAll(items: Items, source: SourceId, ops: seq<WriteOp>, policy: Policy): Items
    decreases |ops|
  {
    if ops == [] then items
    else AbsorbedAll(AbsorbedOp(items, source, ops[0], policy), source, ops[1..], policy)
  }

  /** The items some source still holds. */
  function Pruned(items: Items): Items {
    map link | link in items && items[link].sources != map[] :: items[link]
  }

  function Absorbed(items: Items, source: SourceId, ops: seq<WriteOp>, policy: Policy): Items {
    Pruned(AbsorbedAll(items, source, ops, policy))
  }

  predicate LinkLess(a: LinkId, b: LinkId) {
    LexLess(a.text, b.text)
  }

  lemma LinkTransitive(a: LinkId, b: LinkId, c: LinkId)
    requires LinkLess(a, b) && LinkLess(b, c)
    ensures LinkLess(a, c)
  {
    LexTransitive(a.text, b.text, c.text);
  }

  predicate IsLeastLink(least: LinkId, links: set<LinkId>) {
    least in links && forall link :: link in links ==> link == least || LinkLess(least, link)
  }

  lemma LeastLink(links: set<LinkId>)
    requires links != {}
    ensures exists least :: IsLeastLink(least, links)
  {
    var texts := set link | link in links :: link.text;
    var some :| some in links;
    assert some.text in texts;
    LeastText(texts);
    var least :| IsLeast(least, texts);
    assert IsLeastLink(LinkId(least), links);
  }

  /** Keys in order. */
  ghost function LinksInOrder(links: set<LinkId>): (r: seq<LinkId>)
    ensures |r| == |links| && forall link :: link in r <==> link in links
    ensures forall i, j :: 0 <= i < j < |r| ==> LinkLess(r[i], r[j])
    decreases links
  {
    if links == {} then []
    else
      LeastLink(links);
      var least :| IsLeastLink(least, links);
      [least] + LinksInOrder(links - {least})
  }

  lemma LeastIsIn(links: set<LinkId>, least: LinkId)
    requires IsLeastLink(least, links)
    ensures least in links
  {
  }

  lemma LeastIsFirst(links: set<LinkId>, least: LinkId)
    requires IsLeastLink(least, links)
    ensures LinksInOrder(links) == [least] + LinksInOrder(links - {least})
  {
    var first := LinksInOrder(links)[0];
    if first != least {
      LinkTransitive(first, least, first);
      LexIrreflexive(first.text);
    }
  }

  /** What a source is offered of each item, in turn. */
  function Projected(coll: CollectionId, items: Items, source: SourceId, links: seq<LinkId>): seq<Placement>
    requires forall link :: link in links ==> link in items
  {
    if links == [] then []
    else
      var offered := Offered(coll, links[0], items[links[0]], source);
      (if offered.Some? then [offered.value] else []) + Projected(coll, items, source, links[1..])
  }

  /** The least item's offer, then the others'. */
  lemma ProjectedFirst(coll: CollectionId, items: Items, source: SourceId, todo: set<LinkId>, link: LinkId,
                       out: seq<Placement>)
    requires todo <= items.Keys && IsLeastLink(link, todo)
    ensures var offered := Offered(coll, link, items[link], source);
            out + Projected(coll, items, source, LinksInOrder(todo))
            == (if offered.Some? then out + [offered.value] else out)
               + Projected(coll, items, source, LinksInOrder(todo - {link}))
  {
    LeastIsFirst(todo, link);
    var rest := LinksInOrder(todo - {link});
    hide Offered, LinksInOrder, IsLeastLink;
    var offered := Offered(coll, link, items[link], source);
    ProjectedCons(coll, items, source, link, rest);
    Reassociates(out, if offered.Some? then [offered.value] else [], Projected(coll, items, source, rest));
    assert out + [] == out;
  }

  lemma ProjectedCons(coll: CollectionId, items: Items, source: SourceId, link: LinkId, rest: seq<LinkId>)
    requires link in items && forall other :: other in rest ==> other in items
    ensures var offered := Offered(coll, link, items[link], source);
            Projected(coll, items, source, [link] + rest)
            == (if offered.Some? then [offered.value] else []) + Projected(coll, items, source, rest)
  {
    hide Offered;
    assert ([link] + rest)[1..] == rest;
  }

  lemma Reassociates<T>(a: seq<T>, b: seq<T>, c: seq<T>)
    ensures a + (b + c) == (a + b) + c
  {
  }

  lemma NothingProjected(coll: CollectionId, items: Items, source: SourceId)
    ensures Projected(coll, items, source, LinksInOrder({})) == []
  {
    assert LinksInOrder({}) == [];
  }

  class ReplicaHub {
    var items: Items
    var policy: Policy

    constructor (policy: Policy)
      ensures items == map[] && this.policy == policy
    {
      items := map[];
      this.policy := policy;
    }

    /** Every item the source holds or can be given, in link order. */
    method Project(coll: CollectionId, source: SourceId) returns (out: seq<Placement>)
      ensures out == Projected(coll, items, source, LinksInOrder(items.Keys))
    {
      hide BoundPlacement, TombstonePlacement, CreatedPlacement, IsLeastLink, LinksInOrder, Projected;
      out := [];
      ghost var all := Projected(coll, items, source, LinksInOrder(items.Keys));
      var todo := items.Keys;
      while todo != {}
        invariant todo <= items.Keys
        invariant out + Projected(coll, items, source, LinksInOrder(todo)) == all
        decreases todo
      {
        LeastLink(todo);
        var link :| IsLeastLink(link, todo);
        LeastIsIn(todo, link);
        ProjectedFirst(coll, items, source, todo, link, out);
        var item := items[link];
        var offered: Option<Placement> := None;
        if source in item.sources {
          if item.deleted {
            offered := Some(TombstonePlacement(coll, link, item, item.sources[source]));
          } else {
            offered := Some(BoundPlacement(coll, link, item, item.sources[source]));
          }
        } else if !item.deleted {
          offered := CreatedPlacement(coll, link, item);
        }
        if offered.Some? { out := out + [offered.value]; }
        todo := todo - {link};
      }
      NothingProjected(coll, items, source);
      assert out + [] == out;
    }

    /** Folds a source's writes back in, then lets go of what no source holds. */
    method Absorb(source: SourceId, writes: seq<WriteOp>)
      modifies this`items
      ensures items == Absorbed(old(items), source, writes, policy)
    {
      var i := 0;
      while i < |writes|
        invariant 0 <= i <= |writes|
        invariant AbsorbedAll(items, source, writes[i..], policy) == AbsorbedAll(old(items), source, writes, policy)
      {
        assert writes[i..][1..] == writes[i + 1..];
        match writes[i] {
          case UpsertPlacement(placement) => AbsorbUpsert(source, placement);
          case DropPlacement(_, h, reason) => AbsorbDrop(source, h, reason);
          case StoreObject(_, _) =>
          case SetCheckpoint(_, _) =>
        }
        i := i + 1;
      }
      items := map link | link in items && items[link].sources != map[] :: items[link];
    }

    method AbsorbUpsert(source: SourceId, placement: Placement)
      modifies this`items
      ensures items == Upserted(old(items), source, placement, policy)
    {
      if placement.linkId.None? { return; }
      var link := placement.linkId.value;
      var item := if link in items then items[link] else NewItem(placement);
      if placement.status == Tombstone {
        var agreed := if source in item.sources then item.sources[source].shared else None;
        item := item.(deleted := true);
        item := item.(sources := item.sources[source := BindingOf(placement, agreed)]);
        items := items[link := item];
        return;
      }
      item := item.(deleted := false);
      if !placement.flags.Unknown? { item := item.(flags := placement.flags); }
      if placement.meta.Some? { item := item.(meta := placement.meta); }
      if !placement.sortKey.IsUnknown() { item := item.(sortKey := placement.sortKey); }
      item := item.(level := item.level.Max(placement.level));
      item := ReconcileContent(item, source, placement, policy);
      item := item.(level := item.StoredLevel());
      item := item.(sources := item.sources[source := BindingOf(placement, item.body)]);
      items := items[link := item];
    }

    /** The shared body against an incoming upsert: a fast-forward adopts it, a divergence is
      * settled by policy. */
    static method ReconcileContent(before: HubItem, source: SourceId, placement: Placement, policy: Policy)
      returns (item: HubItem)
      ensures item == Reconciled(before, source, placement, policy)
    {
      item := before;
      var bound := source in item.sources;
      var prev := if bound then item.sources[source].BaseBody() else None;
      var agreed := if bound && item.sources[source].shared.Some? then item.sources[source].shared else prev;
      var shared, incoming := item.body, placement.body;
      var resolving := bound && item.sources[source].conflicted && placement.status != Conflict;
      var sourceEdited := incoming != prev || resolving;
      var hubMoved := shared != agreed;
      var bodyChanged := incoming != shared;
      var diverged := sourceEdited && hubMoved && bodyChanged && incoming.Some? && shared.Some?;
      if diverged {
        match policy {
          case Manual =>
            item := item.(conflicted := true, conflictBody := incoming);
          case PreferIncoming =>
            item := item.(body := incoming, conflicted := false, conflictBody := None);
          case PreferExisting =>
            item := item.(conflicted := false, conflictBody := None);
        }
      } else if sourceEdited && !hubMoved && bodyChanged {
        item := item.(body := incoming, conflicted := false, conflictBody := None);
      }
    }

    method AbsorbDrop(source: SourceId, h: Handle, reason: DropReason)
      modifies this`items
      ensures items == Dropped(old(items), source, h, reason)
    {
      var todo := items.Keys;
      while todo != {}
        invariant todo <= old(items).Keys && items.Keys == old(items).Keys
        invariant forall link :: link in items ==>
          items[link] == if link in todo then old(items)[link] else DroppedItem(old(items)[link], source, h, reason)
        decreases todo
      {
        var link :| link in todo;
        var item := items[link];
        if source in item.sources && item.sources[source].handle == h {
          var genuine := reason == Deleted;
          item := item.(deleted := item.deleted || genuine);
          item := item.(sources := item.sources - {source});
          items := items[link := item];
        }
        todo := todo - {link};
      }
    }
  }
}

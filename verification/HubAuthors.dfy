/** A source never conflicts with itself across the hub: over any history of absorbed batches
  * a cross-source conflict has another source behind it.
  */
module HubAuthors {
  import opened Wrappers
  import opened Text
  import opened Placement
  import opened Change
  import opened Hub

  /** Who put the shared body there, and whether the hub still knows it did: its binding never
    * dropped since, and the item first met alive. */
  datatype Author = Author(source: SourceId, intact: bool)

  /** The hub, and the author of each shared body. */
  datatype Attributed = Attributed(items: Items, authors: map<LinkId, Author>)

  /** Whose body the shared one is once an upsert is in. */
  function Credited(before: Attributed, source: SourceId, placement: Placement, policy: Policy): map<LinkId, Author>
    requires placement.linkId.Some?
  {
    var link := placement.linkId.value;
    var body := Upserted(before.items, source, placement, policy)[link].body;
    if link in before.items && before.items[link].body == body then before.authors
    else if body.None? then before.authors - {link}
    else before.authors[link := Author(source, placement.status != Tombstone)]
  }

  function Bereaved(before: Attributed, source: SourceId, h: Handle): map<LinkId, Author> {
    map link | link in before.authors ::
      var author := before.authors[link];
      if author.source == source && link in before.items && source in before.items[link].sources
         && before.items[link].sources[source].handle == h
      then author.(intact := false) else author
  }

  function Took(before: Attributed, source: SourceId, op: WriteOp, policy: Policy): Attributed {
    Attributed(AbsorbedOp(before.items, source, op, policy),
          match op
          case UpsertPlacement(placement) =>
            if placement.linkId.Some? then Credited(before, source, placement, policy) else before.authors
          case DropPlacement(_, h, _) => Bereaved(before, source, h)
          case _ => before.authors)
  }

  function TookAll(before: Attributed, source: SourceId, ops: seq<WriteOp>, policy: Policy): Attributed
    decreases |ops|
  {
    if ops == [] then before else TookAll(Took(before, source, ops[0], policy), source, ops[1..], policy)
  }

  function TookBatch(before: Attributed, source: SourceId, ops: seq<WriteOp>, policy: Policy): Attributed {
    var after := TookAll(before, source, ops, policy);
    var kept := Pruned(after.items);
    Attributed(kept, map link | link in after.authors && link in kept :: after.authors[link])
  }

  datatype SourceBatch = SourceBatch(source: SourceId, ops: seq<WriteOp>)

  /** An empty hub, once a history of batches is absorbed. */
  function Lived(history: seq<SourceBatch>, policy: Policy): Attributed
    decreases |history|
  {
    if history == [] then Attributed(map[], map[])
    else
      var last := history[|history| - 1];
      TookBatch(Lived(history[..|history| - 1], policy), last.source, last.ops, policy)
  }

  /** The ghost bookkeeping does not disturb the hub. */
  lemma {:induction false} TookIsAbsorbed(before: Attributed, source: SourceId, ops: seq<WriteOp>, policy: Policy)
    ensures TookAll(before, source, ops, policy).items == AbsorbedAll(before.items, source, ops, policy)
    ensures TookBatch(before, source, ops, policy).items == Absorbed(before.items, source, ops, policy)
    decreases |ops|
  {
    if ops != [] {
      TookIsAbsorbed(Took(before, source, ops[0], policy), source, ops[1..], policy);
    }
  }

  /** A shared body has an author; one still known to the hub is bound, and last agreed on
    * that very body. */
  ghost predicate CredibleItem(item: HubItem, author: Option<Author>) {
    && (item.body.Some? ==> author.Some?)
    && (author.Some? && author.value.intact ==>
          && author.value.source in item.sources && item.body.Some?
          && item.sources[author.value.source].shared == item.body)
  }

  function AuthorOf(w: Attributed, link: LinkId): Option<Author> {
    if link in w.authors then Some(w.authors[link]) else None
  }

  ghost predicate Credible(w: Attributed) {
    && (forall link :: link in w.items ==> CredibleItem(w.items[link], AuthorOf(w, link)))
    && (forall link :: link in w.authors ==> link in w.items)
  }

  lemma UpsertKeepsBody(item: HubItem, source: SourceId, placement: Placement, policy: Policy)
    ensures var after := UpsertedItem(item, source, placement, policy);
            && (placement.status == Tombstone ==> after.body == item.body)
            && (placement.status != Tombstone ==> source in after.sources && after.sources[source].shared == after.body)
            && (forall other :: other in item.sources && other != source ==>
                  other in after.sources && after.sources[other] == item.sources[other])
            && (source in item.sources && placement.status == Tombstone ==>
                  source in after.sources && after.sources[source].shared == item.sources[source].shared)
  {
    hide Judge;
  }

  lemma UpsertKeepsCredible(w: Attributed, source: SourceId, placement: Placement, policy: Policy)
    requires Credible(w) && placement.linkId.Some?
    ensures Credible(Took(w, source, UpsertPlacement(placement), policy))
  {
    var link := placement.linkId.value;
    var t := Took(w, source, UpsertPlacement(placement), policy);
    var item := Entry(w.items, link, placement);
    var after := UpsertedItem(item, source, placement, policy);
    UpsertKeepsBody(item, source, placement, policy);
    hide UpsertedItem;
    assert t.items == w.items[link := after];
    assert CredibleItem(after, AuthorOf(t, link));
    forall other | other in w.items && other != link ensures CredibleItem(t.items[other], AuthorOf(t, other)) {
      assert AuthorOf(t, other) == AuthorOf(w, other);
    }
  }

  lemma DropKeepsCredible(w: Attributed, source: SourceId, h: Handle, reason: DropReason, coll: CollectionId,
                          policy: Policy)
    requires Credible(w)
    ensures Credible(Took(w, source, DropPlacement(coll, h, reason), policy))
  {
    var t := Took(w, source, DropPlacement(coll, h, reason), policy);
    forall link | link in t.items ensures CredibleItem(t.items[link], AuthorOf(t, link)) {
      assert CredibleItem(w.items[link], AuthorOf(w, link));
    }
  }

  lemma TookKeepsCredible(w: Attributed, source: SourceId, op: WriteOp, policy: Policy)
    requires Credible(w)
    ensures Credible(Took(w, source, op, policy))
  {
    match op {
      case UpsertPlacement(placement) =>
        if placement.linkId.Some? { UpsertKeepsCredible(w, source, placement, policy); }
      case DropPlacement(coll, h, reason) => DropKeepsCredible(w, source, h, reason, coll, policy);
      case StoreObject(_, _) =>
      case SetCheckpoint(_, _) =>
    }
    hide Credible;
  }

  lemma {:induction false} TookAllKeepsCredible(w: Attributed, source: SourceId, ops: seq<WriteOp>, policy: Policy)
    requires Credible(w)
    ensures Credible(TookAll(w, source, ops, policy))
    decreases |ops|
  {
    if ops != [] {
      TookKeepsCredible(w, source, ops[0], policy);
      hide Credible, Took;
      TookAllKeepsCredible(Took(w, source, ops[0], policy), source, ops[1..], policy);
    }
  }

  lemma {:induction false} LivedIsCredible(history: seq<SourceBatch>, policy: Policy)
    ensures Credible(Lived(history, policy))
    decreases |history|
  {
    if history != [] {
      var before := Lived(history[..|history| - 1], policy);
      var last := history[|history| - 1];
      LivedIsCredible(history[..|history| - 1], policy);
      TookAllKeepsCredible(before, last.source, last.ops, policy);
      PruneKeepsCredible(TookAll(before, last.source, last.ops, policy));
    }
  }

  lemma PruneKeepsCredible(w: Attributed)
    requires Credible(w)
    ensures var kept := Pruned(w.items);
            Credible(Attributed(kept, map link | link in w.authors && link in kept :: w.authors[link]))
  {
    var kept := Pruned(w.items);
    var t := Attributed(kept, map link | link in w.authors && link in kept :: w.authors[link]);
    forall link | link in t.items ensures CredibleItem(t.items[link], AuthorOf(t, link)) {
      assert CredibleItem(w.items[link], AuthorOf(w, link));
    }
  }

  /** Over any history and in the middle of any batch: a live upsert raises the cross-source
    * conflict only against a body another source put there, or one whose author the hub has
    * lost sight of. Under `Manual` both bodies are then held. */
  lemma ConflictIsWithAnother(history: seq<SourceBatch>, source: SourceId, ops: seq<WriteOp>, placement: Placement,
                              policy: Policy)
    requires placement.linkId.Some? && placement.status != Tombstone
    requires var w := TookAll(Lived(history, policy), source, ops, policy);
             Judge(Folded(Entry(w.items, placement.linkId.value, placement), placement), source, placement) == Diverged
    ensures var w := TookAll(Lived(history, policy), source, ops, policy);
            var link := placement.linkId.value;
            && link in w.items && link in w.authors
            && (w.authors[link].source != source || !w.authors[link].intact)
            && (policy == Manual ==>
                  var after := Upserted(w.items, source, placement, policy)[link];
                  && after.conflicted && after.body == w.items[link].body && after.body.Some?
                  && after.conflictBody == placement.body && placement.body.Some?)
  {
    LivedIsCredible(history, policy);
    TookAllKeepsCredible(Lived(history, policy), source, ops, policy);
    var w := TookAll(Lived(history, policy), source, ops, policy);
    var link := placement.linkId.value;
    hide Lived, TookAll, Took;
    if link in w.items {
      assert CredibleItem(w.items[link], AuthorOf(w, link));
    }
  }

  /** The body a source last agreed on, as the hub remembers it. */
  function Agreed(item: HubItem, source: SourceId): Option<Hash> {
    if source !in item.sources then None
    else if item.sources[source].shared.Some? then item.sources[source].shared
    else item.sources[source].BaseBody()
  }

  /** Whether some live upsert of the source would conflict. */
  ghost predicate MayConflict(item: HubItem, source: SourceId) {
    exists placement: Placement ::
      placement.status != Tombstone && Judge(Folded(item, placement), source, placement) == Diverged
  }

  /** A body unlike two others. */
  function AnotherBody(a: Option<Hash>, b: Option<Hash>): (r: Hash)
    ensures Some(r) != a && Some(r) != b
  {
    var left, right := if a.Some? then a.value.text else [], if b.Some? then b.value.text else [];
    var longer := Hash(left + right + [0]);
    assert |longer.text| > |left| && |longer.text| > |right|;
    longer
  }

  /** A source's upserts may conflict with the shared body if and only if that is not the body it last
    * agreed on: nothing else of its history matters. */
  lemma ConflictsExactly(item: HubItem, source: SourceId)
    ensures MayConflict(item, source) <==> item.body.Some? && item.body != Agreed(item, source)
  {
    if item.body.Some? && item.body != Agreed(item, source) {
      var prev := if source in item.sources then item.sources[source].BaseBody() else None;
      var edited := HeldRow([], AnotherBody(item.body, prev).text);
      assert Judge(Folded(item, edited), source, edited) == Diverged;
    }
  }

  /** Over any history and in the middle of any batch, an author the hub has not lost sight of is one that
    * cannot conflict; the converse fails, a lost one agreeing again with its next upsert. */
  lemma IntactAuthorAgrees(history: seq<SourceBatch>, source: SourceId, ops: seq<WriteOp>, link: LinkId, policy: Policy)
    ensures var w := TookAll(Lived(history, policy), source, ops, policy);
            link in w.items && AuthorOf(w, link).Some? && AuthorOf(w, link).value.intact ==>
              !MayConflict(w.items[link], AuthorOf(w, link).value.source)
  {
    LivedIsCredible(history, policy);
    TookAllKeepsCredible(Lived(history, policy), source, ops, policy);
    var w := TookAll(Lived(history, policy), source, ops, policy);
    hide Lived, TookAll, Took, MayConflict;
    if link in w.items && AuthorOf(w, link).Some? {
      assert CredibleItem(w.items[link], AuthorOf(w, link));
      ConflictsExactly(w.items[link], AuthorOf(w, link).value.source);
    }
  }

  /** A source dropped may conflict with whatever body is left. */
  lemma DroppedMayConflict(item: HubItem, source: SourceId, h: Handle, reason: DropReason)
    requires source in item.sources && item.sources[source].handle == h
    ensures MayConflict(DroppedItem(item, source, h, reason), source) <==> item.body.Some?
  {
    ConflictsExactly(DroppedItem(item, source, h, reason), source);
  }

  /** One whose upsert was just absorbed may not: it agrees on the body the hub is left with. */
  lemma AbsorbedAgrees(item: HubItem, source: SourceId, placement: Placement, policy: Policy)
    requires placement.status != Tombstone
    ensures !MayConflict(UpsertedItem(item, source, placement, policy), source)
  {
    ConflictsExactly(UpsertedItem(item, source, placement, policy), source);
    UpsertKeepsBody(item, source, placement, policy);
    hide UpsertedItem;
  }

  /** The first the hub hears of an item being its delete, its source may conflict with the body the
    * delete came with exactly where that is not its base's. */
  lemma TombstoneFirstMayConflict(source: SourceId, gone: Placement, policy: Policy)
    requires gone.status == Tombstone
    ensures MayConflict(UpsertedItem(NewItem(gone), source, gone, policy), source)
            <==> gone.body.Some? && gone.body != gone.BaseBody()
  {
    var item := UpsertedItem(NewItem(gone), source, gone, policy);
    assert item.sources[source] == BindingOf(gone, None) && item.body == gone.body;
    ConflictsExactly(item, source);
  }

  /** The flag goes up at no other point of an upsert. */
  lemma OnlyDivergenceConflicts(item: HubItem, source: SourceId, placement: Placement, policy: Policy)
    ensures var after := UpsertedItem(item, source, placement, policy);
            after.conflicted && !item.conflicted ==>
              placement.status != Tombstone && policy == Manual
                && Judge(Folded(item, placement), source, placement) == Diverged
  {
    hide Judge;
  }

  /** A body as the two sources of the example hold it, and the history losing track of its author:
    * left's binding dropped while right kept the item. */
  function HeldRow(h: Text, body: Text): Placement {
    Placement(CollectionId([]), Handle(h), Some(LinkId([])), Some(Hash(body)), Full, None, UNSORTED, NO_FLAGS, Clean,
              None, None, Some(Base(NO_FLAGS, None, Some(Hash(body)))), None)
  }

  function Pulled(source: SourceId, h: Text): SourceBatch {
    SourceBatch(source, [UpsertPlacement(HeldRow(h, []))])
  }

  function Superseding(source: SourceId, h: Text): SourceBatch {
    SourceBatch(source, [DropPlacement(CollectionId([]), Handle(h), Superseded)])
  }

  function Bound(h: Text): Binding {
    Binding(Handle(h), Some(Base(NO_FLAGS, None, Some(Hash([])))), false, None, None, Some(Hash([])))
  }

  function SharedBy(sources: map<SourceId, Binding>): Items {
    map[LinkId([]) := HubItem(NO_FLAGS, Some(Hash([])), None, UNSORTED, Full, false, false, None, sources)]
  }

  function Credit(source: SourceId, intact: bool): map<LinkId, Author> {
    map[LinkId([]) := Author(source, intact)]
  }

  lemma LeftPulls(left: SourceId)
    ensures var op := UpsertPlacement(HeldRow([1], []));
            Took(Attributed(map[], map[]), left, op, Manual)
              == Attributed(SharedBy(map[left := Bound([1])]), Credit(left, true))
  {
    var item := Folded(NewItem(HeldRow([1], [])), HeldRow([1], []));
    assert Judge(item, left, HeldRow([1], [])) == Kept;
    hide Judge;
    assert UpsertedItem(NewItem(HeldRow([1], [])), left, HeldRow([1], []), Manual).sources == map[left := Bound([1])];
  }

  lemma RightPulls(left: SourceId, right: SourceId)
    requires left != right
    ensures var op := UpsertPlacement(HeldRow([2], []));
            Took(Attributed(SharedBy(map[left := Bound([1])]), Credit(left, true)), right, op, Manual)
            == Attributed(SharedBy(map[left := Bound([1]), right := Bound([2])]), Credit(left, true))
  {
    var was := SharedBy(map[left := Bound([1])])[LinkId([])];
    assert Judge(Folded(was, HeldRow([2], [])), right, HeldRow([2], [])) == Kept;
    hide Judge;
    assert UpsertedItem(was, right, HeldRow([2], []), Manual).sources == map[left := Bound([1]), right := Bound([2])];
  }

  lemma LeftDrops(left: SourceId, right: SourceId)
    requires left != right
    ensures var op := DropPlacement(CollectionId([]), Handle([1]), Superseded);
            Took(Attributed(SharedBy(map[left := Bound([1]), right := Bound([2])]), Credit(left, true)), left, op,
                 Manual)
            == Attributed(SharedBy(map[right := Bound([2])]), Credit(left, false))
  {
    var was := SharedBy(map[left := Bound([1]), right := Bound([2])])[LinkId([])];
    assert DroppedItem(was, left, Handle([1]), Superseded).sources == map[right := Bound([2])];
  }

  lemma SharedIsKept(sources: map<SourceId, Binding>, author: Author, source: SourceId)
    requires source in sources
    ensures Pruned(SharedBy(sources)) == SharedBy(sources)
    ensures (map link | link in Credit(author.source, author.intact) && link in SharedBy(sources)
               :: Credit(author.source, author.intact)[link]) == Credit(author.source, author.intact)
  {
  }

  /** A source whose binding was dropped is a stranger to its own body: editing it again conflicts. */
  lemma DroppedAuthorMayConflict(left: SourceId, right: SourceId)
    requires left != right
    ensures var w := Lived([Pulled(left, [1]), Pulled(right, [2]), Superseding(left, [1])], Manual);
            && LinkId([]) in w.items && LinkId([]) in w.authors && w.authors[LinkId([])] == Author(left, false)
            && MayConflict(w.items[LinkId([])], left)
  {
    ConflictsExactly(SharedBy(map[right := Bound([2])])[LinkId([])], left);
    var h := [Pulled(left, [1]), Pulled(right, [2]), Superseding(left, [1])];
    assert h[..1] == [] + [h[0]] && h[..2] == h[..1] + [h[1]] && h == h[..2] + [h[2]];
    LivedOnce([], h[0], Manual);
    LivedOnce(h[..1], h[1], Manual);
    LivedOnce(h[..2], h[2], Manual);
    LeftPulls(left);
    RightPulls(left, right);
    LeftDrops(left, right);
    SharedIsKept(map[left := Bound([1])], Author(left, true), left);
    SharedIsKept(map[left := Bound([1]), right := Bound([2])], Author(left, true), left);
    SharedIsKept(map[right := Bound([2])], Author(left, false), right);
    assert Lived([], Manual) == Attributed(map[], map[]);
    hide Lived, Took, Pruned;
    assert Lived(h[..1], Manual) == Attributed(SharedBy(map[left := Bound([1])]), Credit(left, true));
    assert Lived(h[..2], Manual)
           == Attributed(SharedBy(map[left := Bound([1]), right := Bound([2])]), Credit(left, true));
    assert Lived(h, Manual) == Attributed(SharedBy(map[right := Bound([2])]), Credit(left, false));
  }

  lemma LivedOnce(history: seq<SourceBatch>, next: SourceBatch, policy: Policy)
    requires |next.ops| == 1
    ensures var after := Took(Lived(history, policy), next.source, next.ops[0], policy);
            var kept := Pruned(after.items);
            Lived(history + [next], policy)
              == Attributed(kept, map link | link in after.authors && link in kept :: after.authors[link])
  {
    var more := history + [next];
    assert more[..|more| - 1] == history && more[|more| - 1] == next;
    var before := Lived(history, policy);
    var after := Took(before, next.source, next.ops[0], policy);
    assert next.ops[1..] == [];
    assert TookAll(after, next.source, [], policy) == after;
    assert TookAll(before, next.source, next.ops, policy) == after;
  }
}

/** A projection absorbed back, and an absorption projected again. */
module HubRoundTrip {
  import opened Wrappers
  import opened Text
  import opened Placement
  import opened Change
  import opened Hub
  import opened HubAuthors

  /** A binding as an upsert leaves one: no trace of a conflict it is not in. */
  predicate Plain(binding: Binding) {
    !binding.conflicted ==> binding.conflictRevision == None && binding.conflictBody == None
  }

  lemma UpsertBindsPlainly(item: HubItem, source: SourceId, row: Placement, policy: Policy)
    ensures var after := UpsertedItem(item, source, row, policy);
            source in after.sources && Plain(after.sources[source])
  {
    hide Judge;
  }

  ghost predicate AllPlain(items: Items) {
    forall link, source :: link in items && source in items[link].sources ==> Plain(items[link].sources[source])
  }

  lemma {:induction false} AbsorbedStaysPlain(items: Items, source: SourceId, ops: seq<WriteOp>, policy: Policy)
    requires AllPlain(items)
    ensures AllPlain(AbsorbedAll(items, source, ops, policy))
    decreases |ops|
  {
    if ops != [] {
      OpStaysPlain(items, source, ops[0], policy);
      hide AllPlain, AbsorbedOp;
      AbsorbedStaysPlain(AbsorbedOp(items, source, ops[0], policy), source, ops[1..], policy);
    }
  }

  lemma OpStaysPlain(items: Items, source: SourceId, op: WriteOp, policy: Policy)
    requires AllPlain(items)
    ensures AllPlain(AbsorbedOp(items, source, op, policy))
  {
    if op.UpsertPlacement? && op.placement.linkId.Some? {
      var row, link := op.placement, op.placement.linkId.value;
      UpsertBindsPlainly(Entry(items, link, row), source, row, policy);
      forall other | other != source && other in Upserted(items, source, row, policy)[link].sources
        ensures Plain(Upserted(items, source, row, policy)[link].sources[other])
      {
        if link in items { AbsorptionIsLocal(items, source, row, policy, link, other); }
      }
      hide UpsertedItem, Plain;
    }
  }

  /** So no hub that ever came to be holds a binding of any other kind, and what a source of one is given,
    * handed back, moves no content of it. */
  lemma {:induction false} LivedIsPlain(history: seq<SourceBatch>, policy: Policy)
    ensures AllPlain(Lived(history, policy).items)
    decreases |history|
  {
    if history != [] {
      var before, last := Lived(history[..|history| - 1], policy), history[|history| - 1];
      LivedIsPlain(history[..|history| - 1], policy);
      TookIsAbsorbed(before, last.source, last.ops, policy);
      AbsorbedStaysPlain(before.items, last.source, last.ops, policy);
    }
  }

  /** What a source is given of an item it holds, handed straight back, moves nothing: not the content,
    * not its base, not a conflict it is stuck in. It only settles what the source last agreed with, and
    * the level the item may claim. */
  lemma ProjectionAbsorbsToItself(coll: CollectionId, link: LinkId, items: Items, source: SourceId, policy: Policy)
    requires link in items && !items[link].deleted && source in items[link].sources
    requires Plain(items[link].sources[source])
    ensures var item := items[link];
            var row := BoundPlacement(coll, link, item, item.sources[source]);
            var settled := item.sources[source].(shared := item.body);
            Upserted(items, source, row, policy)
            == items[link := item.(level := item.StoredLevel(), sources := item.sources[source := settled])]
  {
    var item := items[link];
    var row := BoundPlacement(coll, link, item, item.sources[source]);
    assert Judge(Folded(item, row), source, row) == Kept;
    hide Judge;
    assert Folded(item, row) == item;
  }

  /** A row absorbed is the row its source is given back: its handle, its base and its conflict as they
    * were, whatever became of the shared content. */
  lemma AbsorptionProjectsBack(coll: CollectionId, link: LinkId, items: Items, source: SourceId, row: Placement,
                               policy: Policy)
    requires row.linkId == Some(link)
    ensures var after := Upserted(items, source, row, policy);
            && link in after
            && (var back := Offered(coll, link, after[link], source);
                && back.Some? && back.value.handle == row.handle && back.value.base == row.base
                && (row.status == Tombstone <==> back.value.status == Tombstone)
                && (row.status == Conflict <==> back.value.status == Conflict)
                && (row.status == Conflict ==>
                      back.value.conflictRevision == row.conflictRevision
                        && back.value.conflictObject == row.conflictObject))
  {
    hide Judge;
  }

  /** Nor does an absorption touch what other sources hold, or other items. */
  lemma AbsorptionIsLocal(items: Items, source: SourceId, row: Placement, policy: Policy, link: LinkId, other: SourceId)
    requires link in items && (row.linkId != Some(link) || other != source)
    ensures var after := Upserted(items, source, row, policy);
            && link in after
            && (row.linkId != Some(link) ==> after[link] == items[link])
            && (other in after[link].sources <==> other in items[link].sources)
            && (other in items[link].sources ==> after[link].sources[other] == items[link].sources[other])
  {
    hide Judge;
  }

  /** A source holding no opinion erases none: an unknown flag set, no summary and no sort key leave
    * the shared ones, and no upsert lowers the level of an item that keeps its body. */
  lemma NoOpinionErasesNothing(item: HubItem, source: SourceId, row: Placement, policy: Policy)
    ensures var after := UpsertedItem(item, source, row, policy);
            && (row.flags.Unknown? ==> after.flags == item.flags)
            && (row.meta.None? ==> after.meta == item.meta)
            && (row.sortKey.IsUnknown() ==> after.sortKey == item.sortKey)
            && (after.body.Some? && after.body == item.body ==> !after.level.Below(item.level))
            && (row.status != Tombstone && after.body.None? ==> after.level != Full)
  {
    hide Judge;
  }
}

/** Raising a row is never read as an edit of it. */
module UpgradeSync {
  import opened Wrappers
  import opened Placement
  import opened Remote
  import opened Join
  import opened MergeRules
  import opened DeltaSync
  import opened Upgrade

  /** A clean row agreeing with its base, a body included where it has one. */
  predicate Agreeing(row: Placement) {
    && row.status == Clean && row.base.Some? && row.conflictRevision.None?
    && row.flags == row.base.value.flags && row.StagedEdit().None?
  }

  /** A fetched body, and one linked from the store, move the base with them: the row still agrees, and
    * the sync against the state it now stands for does nothing. */
  lemma UpgradeIsNoEdit(coll: CollectionId, opts: Options, tier: Tier, row: Placement, item: FetchedItem, link: LinkId,
                        hash: Hash)
    requires Agreeing(row)
    ensures var fetched, linked := FetchedRow(tier, row, item, link), LinkedRow(row, hash);
            && Agreeing(fetched) && Agreeing(linked)
            && MergeOne(coll, opts, Candidate(fetched.handle, Some(fetched), Some(StandIn(fetched)))) == NOTHING
            && MergeOne(coll, opts, Candidate(linked.handle, Some(linked), Some(StandIn(linked)))) == NOTHING
  {
    var fetched, linked := FetchedRow(tier, row, item, link), LinkedRow(row, hash);
    assert Agreeing(fetched) && Agreeing(linked);
    hide FetchedRow, LinkedRow, MergeOne;
    CleanIsIdle(coll, opts, fetched);
    CleanIsIdle(coll, opts, linked);
  }
}

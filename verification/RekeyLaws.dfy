/** What a rebuild leaves: the new spine, the edits with no new home, and the pending creates. */
module RekeyLaws {
  import opened Wrappers
  import opened Text
  import opened Placement
  import opened Change
  import opened Remote
  import opened JoinLaws
  import opened Storage
  import opened Rekey

  ghost predicate DistinctRows(rows: seq<Placement>) {
    forall i, j :: 0 <= i < j < |rows| ==> rows[i].handle != rows[j].handle
  }

  ghost predicate DistinctItems(items: seq<RemoteItem>) {
    forall i, j :: 0 <= i < j < |items| ==> items[i].handle != items[j].handle
  }

  lemma SameHandleSameRow(rows: seq<Placement>, a: Placement, b: Placement)
    requires DistinctRows(rows) && a in rows && b in rows && a.handle == b.handle
    ensures a == b
  {
    var i :| 0 <= i < |rows| && rows[i] == a;
    var j :| 0 <= j < |rows| && rows[j] == b;
  }

  lemma {:induction false} SpineHolds(former: seq<Placement>)
    ensures forall row :: row in Spine(former) <==> row in former && row.status != Created
    ensures DistinctRows(former) ==> DistinctRows(Spine(former))
  {
    if former != [] {
      var init := former[..|former| - 1];
      SpineHolds(init);
      assert former == init + [former[|former| - 1]];
      if DistinctRows(former) {
        forall j | 0 <= j < |Spine(init)| ensures Spine(init)[j].handle != former[|former| - 1].handle {
          assert Spine(init)[j] in init;
        }
      }
    }
  }

  lemma {:induction false} ByLinkHolds(spine: seq<Placement>)
    ensures forall link :: link in ByLink(spine) ==>
              ByLink(spine)[link] in spine && ByLink(spine)[link].linkId == Some(link)
    ensures forall row :: row in spine && row.linkId.Some? ==> row.linkId.value in ByLink(spine)
  {
    if spine != [] {
      ByLinkHolds(spine[..|spine| - 1]);
      assert spine == spine[..|spine| - 1] + [spine[|spine| - 1]];
    }
  }

  /** A row is revived exactly when it survives and nothing carried it. */
  lemma {:induction false} RevivedExactly(spine: seq<Placement>, carried: set<Handle>)
    requires DistinctRows(spine)
    ensures forall op :: op in Resurrections(spine, carried) <==>
              exists row :: row in spine && Resurrects(row, carried) && op == UpsertPlacement(Resurrected(row))
    ensures forall h :: h in Accounted(spine, carried) <==>
              h in carried || exists row :: row in spine && row.handle == h && Resurrects(row, carried)
    decreases |spine|
  {
    if spine != [] {
      var init, last := spine[..|spine| - 1], spine[|spine| - 1];
      assert spine == init + [last];
      RevivedExactly(init, carried);
      var before := Accounted(init, carried);
      assert last.handle in before <==> last.handle in carried;
      hide Survives;
      forall op ensures op in Resurrections(spine, carried) <==>
              exists row :: row in spine && Resurrects(row, carried) && op == UpsertPlacement(Resurrected(row))
      {
        if exists row :: row in spine && Resurrects(row, carried) && op == UpsertPlacement(Resurrected(row)) {
          var row :| row in spine && Resurrects(row, carried) && op == UpsertPlacement(Resurrected(row));
          assert row in init || row == last;
        }
        if op in Resurrections(init, carried) {
          var row :| row in init && Resurrects(row, carried) && op == UpsertPlacement(Resurrected(row));
          assert row in spine;
        }
      }
      forall h ensures h in Accounted(spine, carried) <==>
              h in carried || exists row :: row in spine && row.handle == h && Resurrects(row, carried)
      {
        if h in before && h !in carried {
          var row :| row in init && row.handle == h && Resurrects(row, carried);
          assert row in spine;
        }
      }
    }
  }

  lemma {:induction false} RetiredExactly(coll: CollectionId, spine: seq<Placement>, written: set<Handle>)
    ensures forall op :: op in Retired(coll, spine, written) <==>
              exists row :: row in spine && row.handle !in written && op == DropPlacement(coll, row.handle, Superseded)
    decreases |spine|
  {
    if spine != [] {
      var init, last := spine[..|spine| - 1], spine[|spine| - 1];
      assert spine == init + [last];
      RetiredExactly(coll, init, written);
    }
  }

  /** The new handle space reuses no handle a revived edit keeps. */
  ghost predicate Renumbered(former: seq<Placement>, items: seq<RemoteItem>, links: Links) {
    var spine := Spine(former);
    && DistinctRows(former) && DistinctItems(items)
    && RevivedHandles(spine, Carried(items, links, ByLink(spine))) !! NewHandles(items)
  }

  /** What one op of the batch is. */
  ghost predicate MemberOp(coll: CollectionId, former: seq<Placement>, items: seq<RemoteItem>, links: Links,
                           op: WriteOp)
  {
    exists i :: 0 <= i < |items| && op == UpsertPlacement(MemberRow(coll, items, links, ByLink(Spine(former)), i))
  }

  ghost predicate RevivedOp(former: seq<Placement>, items: seq<RemoteItem>, links: Links, op: WriteOp) {
    var spine := Spine(former);
    exists row ::
      row in spine && Resurrects(row, Carried(items, links, ByLink(spine))) && op == UpsertPlacement(Resurrected(row))
  }

  ghost predicate RetiredOp(coll: CollectionId, former: seq<Placement>, items: seq<RemoteItem>, links: Links,
                            op: WriteOp)
  {
    var spine := Spine(former);
    exists row :: row in spine && op == DropPlacement(coll, row.handle, Superseded)
                  && row.handle !in NewHandles(items) + RevivedHandles(spine, Carried(items, links, ByLink(spine)))
  }

  lemma RebuiltOps(coll: CollectionId, former: seq<Placement>, items: seq<RemoteItem>, links: Links, op: WriteOp)
    requires DistinctRows(former)
    ensures op in Rebuilt(coll, former, items, links) <==>
              MemberOp(coll, former, items, links, op) || RevivedOp(former, items, links, op)
              || RetiredOp(coll, former, items, links, op)
  {
    var spine := Spine(former);
    var byLink := ByLink(spine);
    var carried := Carried(items, links, byLink);
    SpineHolds(former);
    RevivedExactly(spine, carried);
    RetiredExactly(coll, spine, NewHandles(items) + RevivedHandles(spine, carried));
    var members := MemberOps(coll, items, links, byLink);
    assert op in members <==> MemberOp(coll, former, items, links, op) by {
      if op in members { var i :| 0 <= i < |members| && members[i] == op; }
      if MemberOp(coll, former, items, links, op) {
        var i :| 0 <= i < |items| && op == UpsertPlacement(MemberRow(coll, items, links, byLink, i));
        assert members[i] == op;
      }
    }
    hide Resurrections, Retired, MemberOps, Carried, Spine, ByLink;
  }

  lemma RevivedTouches(coll: CollectionId, former: seq<Placement>, items: seq<RemoteItem>, links: Links, h: Handle)
    requires DistinctRows(former)
    ensures var spine := Spine(former);
            h in RevivedHandles(spine, Carried(items, links, ByLink(spine)))
            <==> exists row :: row in spine && row.handle == h && Resurrects(row, Carried(items, links, ByLink(spine)))
  {
    var spine := Spine(former);
    var carried := Carried(items, links, ByLink(spine));
    SpineHolds(former);
    RevivedExactly(spine, carried);
    hide Carried, ByLink, Spine, Resurrections;
    if exists row :: row in spine && row.handle == h && Resurrects(row, carried) {
      var row :| row in spine && row.handle == h && Resurrects(row, carried);
      var op := UpsertPlacement(Resurrected(row));
      assert op in Resurrections(spine, carried);
    }
  }

  /** Each handle is written once: no two ops of the batch touch the same one, so none is both
    * dropped and upserted, and the batch may be applied in any order. */
  lemma RebuildIsASet(coll: CollectionId, former: seq<Placement>, items: seq<RemoteItem>, links: Links)
    requires Renumbered(former, items, links)
    ensures Functional(Rebuilt(coll, former, items, links))
  {
    var ops := Rebuilt(coll, former, items, links);
    forall a, b, h | a in ops && b in ops && Touches(a, h) && Touches(b, h) ensures a == b {
      RebuiltOps(coll, former, items, links, a);
      RebuiltOps(coll, former, items, links, b);
      OpOfHandle(coll, former, items, links, a, h);
      OpOfHandle(coll, former, items, links, b, h);
      hide Rebuilt, MemberOp, RevivedOp, RetiredOp, Renumbered;
    }
  }

  /** And that is exactly when: a new member under the handle a revived edit keeps is written twice,
    * once as a member and once as a create. */
  lemma ReusedHandleIsWrittenTwice(coll: CollectionId, former: seq<Placement>, items: seq<RemoteItem>, links: Links)
    requires DistinctRows(former) && DistinctItems(items)
    ensures Functional(Rebuilt(coll, former, items, links)) <==> Renumbered(former, items, links)
  {
    if Renumbered(former, items, links) {
      RebuildIsASet(coll, former, items, links);
    } else {
      var spine := Spine(former);
      var byLink := ByLink(spine);
      var h :| h in RevivedHandles(spine, Carried(items, links, byLink)) && h in NewHandles(items);
      RevivedTouches(coll, former, items, links, h);
      var row :| row in spine && row.handle == h && Resurrects(row, Carried(items, links, byLink));
      var i := IndexOf(items, h);
      var a, b := UpsertPlacement(MemberRow(coll, items, links, byLink, i)), UpsertPlacement(Resurrected(row));
      MemberKeepsHandle(coll, items, links, byLink, i);
      MemberIsNoCreate(coll, items, links, byLink, i);
      RebuiltOps(coll, former, items, links, a);
      RebuiltOps(coll, former, items, links, b);
      hide Spine, ByLink, Carried, Rebuilt, MemberRow, Survives, Resurrections;
      assert MemberOp(coll, former, items, links, a) && RevivedOp(former, items, links, b);
      assert a != b && Touches(a, h) && Touches(b, h);
    }
  }

  /** An edit whose link id the new space does not resolve, on a handle that space reuses: its handle is
    * written first as the new member, then as the create the edit is revived as. */
  lemma ReusedHandle(coll: CollectionId, row: Placement, item: RemoteItem)
    requires row.status == Dirty && ContentEdit(row) && item.handle == row.handle
    ensures Rebuilt(coll, [row], [item], map[])
            == [UpsertPlacement(Fresh(coll, item, None)), UpsertPlacement(Resurrected(row))]
    ensures !Functional(Rebuilt(coll, [row], [item], map[]))
  {
    assert [row][..0] == [] && Spine([row]) == [] + [row] == [row];
    var byLink := ByLink([row]);
    assert CarriedBy([item], map[], byLink, 0).None?;
    assert Carried([item], map[], byLink) == {};
    assert Accounted([], {}) == {} && Resurrections([row], {}) == [] + [UpsertPlacement(Resurrected(row))];
    assert item in [item] && row.handle in NewHandles([item]);
    assert Retired(coll, [row], NewHandles([item]) + RevivedHandles([row], {})) == [];
    assert MemberOps(coll, [item], map[], byLink) == [UpsertPlacement(Fresh(coll, item, None))];
    var ops := Rebuilt(coll, [row], [item], map[]);
    assert Touches(ops[0], row.handle) && Touches(ops[1], row.handle) && ops[0] in ops && ops[1] in ops;
    assert Fresh(coll, item, None).status != Resurrected(row).status;
  }

  lemma MemberIsNoCreate(coll: CollectionId, items: seq<RemoteItem>, links: Links, byLink: map<LinkId, Placement>,
                         i: nat)
    requires i < |items|
    ensures MemberRow(coll, items, links, byLink, i).status != Created
  {
    hide MergeFlags;
  }

  /** Which of the three an op touching a handle is, and what it leaves there. */
  lemma OpOfHandle(coll: CollectionId, former: seq<Placement>, items: seq<RemoteItem>, links: Links, op: WriteOp,
                   h: Handle)
    requires Renumbered(former, items, links) && Touches(op, h)
    requires MemberOp(coll, former, items, links, op) || RevivedOp(former, items, links, op)
             || RetiredOp(coll, former, items, links, op)
    ensures op == TheOp(coll, former, items, links, h)
  {
    var spine := Spine(former);
    var byLink := ByLink(spine);
    var carried := Carried(items, links, byLink);
    RevivedTouches(coll, former, items, links, h);
    SpineHolds(former);
    hide Spine, ByLink, Carried, Resurrections, Carry, Fresh, CarriedBy, Survives;
    if MemberOp(coll, former, items, links, op) {
      var i :| 0 <= i < |items| && op == UpsertPlacement(MemberRow(coll, items, links, byLink, i));
      MemberKeepsHandle(coll, items, links, byLink, i);
      assert items[i] in items;
      ItemIndex(items, i);
    } else if RevivedOp(former, items, links, op) {
      var row :| row in spine && Resurrects(row, carried) && op == UpsertPlacement(Resurrected(row));
      RowIndex(spine, row);
    }
  }

  lemma MemberKeepsHandle(coll: CollectionId, items: seq<RemoteItem>, links: Links, byLink: map<LinkId, Placement>,
                          i: nat)
    requires i < |items|
    ensures MemberRow(coll, items, links, byLink, i).handle == items[i].handle
  {
  }

  /** The index of a new member, and the old row of a handle. */
  ghost function IndexOf(items: seq<RemoteItem>, h: Handle): (i: nat)
    requires h in NewHandles(items)
    ensures i < |items| && items[i].handle == h
  {
    var item :| item in items && item.handle == h;
    var i :| 0 <= i < |items| && items[i] == item;
    i
  }

  lemma ItemIndex(items: seq<RemoteItem>, i: nat)
    requires DistinctItems(items) && i < |items|
    ensures items[i].handle in NewHandles(items) && IndexOf(items, items[i].handle) == i
  {
    assert items[i] in items;
  }

  lemma {:induction false} RowIndex(rows: seq<Placement>, row: Placement)
    requires DistinctRows(rows) && row in rows
    ensures RowAt(rows, row.handle) == Some(row)
  {
    SameHandleSameRow(rows, row, RowAt(rows, row.handle).value);
  }

  /** The op of the batch under a handle it touches. */
  ghost function TheOp(coll: CollectionId, former: seq<Placement>, items: seq<RemoteItem>, links: Links, h: Handle)
    : WriteOp
  {
    var spine := Spine(former);
    var byLink := ByLink(spine);
    if h in NewHandles(items) then UpsertPlacement(MemberRow(coll, items, links, byLink, IndexOf(items, h)))
    else if h in RevivedHandles(spine, Carried(items, links, byLink)) && RowAt(spine, h).Some?
    then UpsertPlacement(Resurrected(RowAt(spine, h).value))
    else DropPlacement(coll, h, Superseded)
  }

  /** What the batch has an op for: the new handles, and the old spine's. */
  lemma TouchedHandles(coll: CollectionId, former: seq<Placement>, items: seq<RemoteItem>, links: Links, h: Handle)
    requires Renumbered(former, items, links)
    ensures h in NewHandles(items) || RowAt(Spine(former), h).Some? ==>
              var op := TheOp(coll, former, items, links, h);
              op in Rebuilt(coll, former, items, links) && Touches(op, h)
    ensures h !in NewHandles(items) && RowAt(Spine(former), h).None? ==>
              forall op :: op in Rebuilt(coll, former, items, links) ==> !Touches(op, h)
  {
    var spine := Spine(former);
    var byLink := ByLink(spine);
    var carried := Carried(items, links, byLink);
    var op := TheOp(coll, former, items, links, h);
    SpineHolds(former);
    RevivedTouches(coll, former, items, links, h);
    RebuiltOps(coll, former, items, links, op);
    hide Spine, ByLink, Carried, Rebuilt, Carry, Fresh, CarriedBy, Survives, Resurrections;
    if h in NewHandles(items) {
      MemberKeepsHandle(coll, items, links, byLink, IndexOf(items, h));
      assert MemberOp(coll, former, items, links, op);
    } else if RowAt(spine, h).Some? {
      var row := RowAt(spine, h).value;
      if h in RevivedHandles(spine, carried) {
        var revived :| revived in spine && revived.handle == h && Resurrects(revived, carried);
        SameHandleSameRow(spine, revived, row);
        assert RevivedOp(former, items, links, op);
      } else {
        assert RetiredOp(coll, former, items, links, op);
      }
    } else {
      forall op | op in Rebuilt(coll, former, items, links) ensures !Touches(op, h) {
        RebuiltOps(coll, former, items, links, op);
        if Touches(op, h) { NothingTouches(coll, former, items, links, op, h); }
      }
    }
  }

  lemma NothingTouches(coll: CollectionId, former: seq<Placement>, items: seq<RemoteItem>, links: Links, op: WriteOp,
                       h: Handle)
    requires MemberOp(coll, former, items, links, op) || RevivedOp(former, items, links, op)
             || RetiredOp(coll, former, items, links, op)
    requires Touches(op, h)
    ensures h in NewHandles(items) || RowAt(Spine(former), h).Some?
  {
    var spine := Spine(former);
    hide Spine, ByLink, Carried, Carry, Fresh, CarriedBy, Survives, Resurrections;
    if MemberOp(coll, former, items, links, op) {
      var i :| 0 <= i < |items| && op == UpsertPlacement(MemberRow(coll, items, links, ByLink(spine), i));
      MemberKeepsHandle(coll, items, links, ByLink(spine), i);
      assert items[i] in items;
    } else {
      assert exists row :: row in spine && row.handle == h;
    }
  }

  /** The row a handle holds once the space is rebuilt: a new member's, an edit's that found no new
    * home, nothing for the rest of the old spine, and whatever it held outside it. */
  ghost function NewSpace(coll: CollectionId, former: seq<Placement>, store: Rows, items: seq<RemoteItem>, links: Links,
                          h: Handle): Option<Placement>
  {
    var spine := Spine(former);
    var byLink := ByLink(spine);
    var row := RowAt(spine, h);
    if h in NewHandles(items) then Some(MemberRow(coll, items, links, byLink, IndexOf(items, h)))
    else if row.None? then At(store, h)
    else if Resurrects(row.value, Carried(items, links, byLink)) then Some(Resurrected(row.value))
    else None
  }

  /** In whatever order a storage applies the batch. */
  lemma RebuildsTheSpace(coll: CollectionId, former: seq<Placement>, store: Rows, items: seq<RemoteItem>, links: Links,
                         checkpoint: Checkpoint, batch: seq<WriteOp>, h: Handle)
    requires Renumbered(former, items, links)
    requires forall op :: op in batch <==>
               op in Rebuilt(coll, former, items, links) || op == SetCheckpoint(coll, checkpoint)
    ensures Functional(batch)
    ensures At(Apply(store, batch), h) == NewSpace(coll, former, store, items, links, h)
  {
    RebuildIsASet(coll, former, items, links);
    TouchedHandles(coll, former, items, links, h);
    LastTouch(store, batch, h);
    var spine := Spine(former);
    var carried := Carried(items, links, ByLink(spine));
    RevivedTouches(coll, former, items, links, h);
    SpineHolds(former);
    hide Spine, ByLink, Carried, Rebuilt, MemberRow, Survives, Resurrections;
    if h in NewHandles(items) || RowAt(spine, h).Some? {
      TouchedOnce(store, batch, TheOp(coll, former, items, links, h), h);
      if RowAt(spine, h).Some? && h in RevivedHandles(spine, carried) {
        var revived :| revived in spine && revived.handle == h && Resurrects(revived, carried);
        SameHandleSameRow(spine, revived, RowAt(spine, h).value);
      }
    }
  }

  /** A row whose body is staged, on its base or as a create. */
  predicate StillStaged(row: Placement, body: Option<Hash>) {
    && row.body == body && row.StagedEdit() == body
    && (row.status == Dirty || row.status == Conflict || row.status == Created)
  }

  /** Every staged edit of the old space is carried or revived. */
  lemma EditsSurvive(coll: CollectionId, former: seq<Placement>, store: Rows, items: seq<RemoteItem>, links: Links,
                     checkpoint: Checkpoint, batch: seq<WriteOp>, row: Placement)
    requires Renumbered(former, items, links)
    requires forall op :: op in batch <==>
               op in Rebuilt(coll, former, items, links) || op == SetCheckpoint(coll, checkpoint)
    requires row in former && Survives(row)
    ensures exists h :: h in Apply(store, batch) && StillStaged(Apply(store, batch)[h], row.body)
  {
    var spine := Spine(former);
    var byLink := ByLink(spine);
    var carried := Carried(items, links, byLink);
    SpineHolds(former);
    ByLinkHolds(spine);
    if row.handle in carried {
      var i :| 0 <= i < |items| && CarriedBy(items, links, byLink, i).Some?
               && CarriedBy(items, links, byLink, i).value.handle == row.handle;
      SameHandleSameRow(spine, CarriedBy(items, links, byLink, i).value, row);
      CarriedStaysStaged(coll, items, links, byLink, i, row);
      ItemIndex(items, i);
      RebuildsTheSpace(coll, former, store, items, links, checkpoint, batch, items[i].handle);
      hide Spine, ByLink, Carried, Rebuilt, MemberRow, Survives, CarriedBy, StillStaged, Functional, Renumbered;
      assert items[i].handle in Apply(store, batch);
    } else {
      RowIndex(spine, row);
      RebuildsTheSpace(coll, former, store, items, links, checkpoint, batch, row.handle);
      RevivedTouches(coll, former, items, links, row.handle);
      hide Spine, ByLink, Carried, Rebuilt, MemberRow, CarriedBy, Functional;
      assert Resurrects(row, carried) && row.handle in RevivedHandles(spine, carried);
      assert At(Apply(store, batch), row.handle) == Some(Resurrected(row));
      assert row.handle in Apply(store, batch);
    }
  }

  lemma CarriedStaysStaged(coll: CollectionId, items: seq<RemoteItem>, links: Links, byLink: map<LinkId, Placement>,
                           i: nat, row: Placement)
    requires i < |items| && CarriedBy(items, links, byLink, i) == Some(row) && Survives(row)
    ensures StillStaged(MemberRow(coll, items, links, byLink, i), row.body)
  {
    hide MergeFlags;
  }

  /** The rows of a spine with pending state, and those some member carries. */
  function PendingCount(spine: seq<Placement>): nat {
    if spine == [] then 0
    else PendingCount(spine[..|spine| - 1]) + (if spine[|spine| - 1].status != Clean then 1 else 0)
  }

  function PendingCarried(spine: seq<Placement>, carried: set<Handle>): nat {
    if spine == [] then 0
    else
      var last := spine[|spine| - 1];
      PendingCarried(spine[..|spine| - 1], carried) + (if last.status != Clean && last.handle in carried then 1 else 0)
  }

  /** No pending state goes unaccounted: each row of the old spine holding some is carried, revived
    * or counted as dropped. */
  lemma {:induction false} PendingIsAccounted(spine: seq<Placement>, carried: set<Handle>)
    requires DistinctRows(spine)
    ensures PendingCount(spine) == PendingCarried(spine, carried) + |Resurrections(spine, carried)|
                              + Lost(spine, Accounted(spine, carried))
    decreases |spine|
  {
    if spine != [] {
      var init, last := spine[..|spine| - 1], spine[|spine| - 1];
      assert spine == init + [last];
      PendingIsAccounted(init, carried);
      RevivedExactly(init, carried);
      LostLater(init, Accounted(init, carried), last.handle);
    }
  }

  lemma {:induction false} LostLater(spine: seq<Placement>, accounted: set<Handle>, h: Handle)
    requires forall row :: row in spine ==> row.handle != h
    ensures Lost(spine, accounted + {h}) == Lost(spine, accounted)
    decreases |spine|
  {
    if spine != [] {
      assert spine[|spine| - 1] in spine;
      LostLater(spine[..|spine| - 1], accounted, h);
    }
  }

  /** The report's side of it. */
  lemma ReportAccounts(coll: CollectionId, former: seq<Placement>, items: seq<RemoteItem>, links: Links)
    requires DistinctRows(former)
    ensures var spine := Spine(former);
            var carried := Carried(items, links, ByLink(spine));
            var report := RebuiltReport(coll, former, items, links);
            && report.rekeyed + report.pulled == |items| + |Resurrections(spine, carried)|
            && PendingCount(spine) == PendingCarried(spine, carried) + |Resurrections(spine, carried)| + report.dropped
  {
    SpineHolds(former);
    PendingIsAccounted(Spine(former), Carried(items, links, ByLink(Spine(former))));
  }
}

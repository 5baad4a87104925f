/** The two-pointer walk pairing local placements with remote items. */
module Join {
  import opened Wrappers
  import opened Placement
  import opened Remote

  datatype Candidate = Candidate(handle: Handle, local: Option<Placement>, remote: Option<RemoteItem>)

  /** What is left to walk: local placements in key order, remote items in handle order. */
  datatype Join = Join(local: seq<Placement>, remote: seq<RemoteItem>) {
    function Size(): nat { |local| + |remote| }
  }

  /** An ordered map's insertion: replace the row under the key, or place it in order. */
  function Insert(rows: seq<Placement>, row: Placement): seq<Placement> {
    if rows == [] then [row]
    else if rows[0].handle == row.handle then [row] + rows[1..]
    else if Less(row.handle, rows[0].handle) then [row] + rows
    else [rows[0]] + Insert(rows[1..], row)
  }

  /** The ordered map a loaded listing collects into. */
  function Collect(listing: seq<Placement>): seq<Placement> {
    if listing == [] then []
    else Insert(Collect(listing[..|listing| - 1]), listing[|listing| - 1])
  }

  predicate IsSorted(items: seq<RemoteItem>) {
    forall i :: 0 < i < |items| ==> !Less(items[i].handle, items[i - 1].handle)
  }

  function SortIn(item: RemoteItem, items: seq<RemoteItem>): seq<RemoteItem> {
    if items == [] || !Less(items[0].handle, item.handle) then [item] + items
    else [items[0]] + SortIn(item, items[1..])
  }

  /** A stable sort by handle. */
  function Sort(items: seq<RemoteItem>): seq<RemoteItem> {
    if items == [] then [] else SortIn(items[0], Sort(items[1..]))
  }

  /** Drops every item listed right after another of the same handle. */
  function Dedup(items: seq<RemoteItem>): seq<RemoteItem>
    decreases |items|
  {
    if |items| <= 1 then items
    else if items[0].handle == items[1].handle then Dedup([items[0]] + items[2..])
    else [items[0]] + Dedup(items[1..])
  }

  /** The remote side of the walk: sorted only when it is not already, then deduplicated. */
  function Normalise(items: seq<RemoteItem>): seq<RemoteItem> {
    Dedup(if IsSorted(items) then items else Sort(items))
  }

  /** One step of the walk: the next handle of either side, and what is left. */
  function Next(join: Join): (r: (Option<Candidate>, Join))
    ensures r.0.None? <==> join.Size() == 0
    ensures r.0.Some? ==> r.1.Size() < join.Size()
  {
    if join.local == [] && join.remote == [] then (None, join)
    else if join.remote == [] || (join.local != [] && Less(join.local[0].handle, join.remote[0].handle)) then
      var row := join.local[0];
      (Some(Candidate(row.handle, Some(row), None)), join.(local := join.local[1..]))
    else if join.local == [] || join.local[0].handle != join.remote[0].handle then
      var item := join.remote[0];
      (Some(Candidate(item.handle, None, Some(item))), join.(remote := join.remote[1..]))
    else
      var row := join.local[0];
      (Some(Candidate(row.handle, Some(row), Some(join.remote[0]))), Join(join.local[1..], join.remote[1..]))
  }

  function Candidates(join: Join): seq<Candidate>
    decreases join.Size()
  {
    var (next, rest) := Next(join);
    if next.None? then [] else [next.value] + Candidates(rest)
  }
}

/** The walk is the keyed union of its two sides. */
module JoinLaws {
  import opened Wrappers
  import opened Placement
  import opened Remote
  import opened Join

  /** The row a listing holds under a handle: the last one listed wins. */
  function RowAt(rows: seq<Placement>, h: Handle): (r: Option<Placement>)
    ensures r.Some? ==> r.value in rows && r.value.handle == h
    ensures r.None? ==> forall row :: row in rows ==> row.handle != h
  {
    if rows == [] then None
    else if rows[|rows| - 1].handle == h then Some(rows[|rows| - 1])
    else RowAt(rows[..|rows| - 1], h)
  }

  /** The item a snapshot lists for a handle: the first one listed wins. */
  function ItemAt(items: seq<RemoteItem>, h: Handle): (r: Option<RemoteItem>)
    ensures r.Some? ==> r.value in items && r.value.handle == h
    ensures r.None? ==> forall item :: item in items ==> item.handle != h
  {
    if items == [] then None
    else if items[0].handle == h then Some(items[0])
    else ItemAt(items[1..], h)
  }

  function CandidateAt(cs: seq<Candidate>, h: Handle): (r: Option<Candidate>)
    ensures r.Some? ==> r.value in cs && r.value.handle == h
    ensures r.None? ==> forall c :: c in cs ==> c.handle != h
  {
    if cs == [] then None
    else if cs[0].handle == h then Some(cs[0])
    else CandidateAt(cs[1..], h)
  }

  ghost predicate AscendingRows(rows: seq<Placement>) {
    forall i, j :: 0 <= i < j < |rows| ==> Less(rows[i].handle, rows[j].handle)
  }

  ghost predicate AscendingItems(items: seq<RemoteItem>) {
    forall i, j :: 0 <= i < j < |items| ==> Less(items[i].handle, items[j].handle)
  }

  ghost predicate Ascending(cs: seq<Candidate>) {
    forall i, j :: 0 <= i < j < |cs| ==> Less(cs[i].handle, cs[j].handle)
  }

  /** Weakly ascending: equal handles may sit side by side. */
  ghost predicate Ordered(items: seq<RemoteItem>) {
    forall i, j :: 0 <= i < j < |items| ==> !Less(items[j].handle, items[i].handle)
  }

  lemma NotLessTransitive(a: Handle, b: Handle, c: Handle)
    requires !Less(b, a) && !Less(c, b)
    ensures !Less(c, a)
  {
    LessTotal(a, b);
    LessTotal(b, c);
    if Less(c, a) {
      if Less(a, b) { LessTransitive(c, a, b); }
    }
  }

  lemma {:induction false} InsertKeepsOrder(rows: seq<Placement>, row: Placement)
    requires AscendingRows(rows)
    ensures AscendingRows(Insert(rows, row))
    ensures forall r :: r in Insert(rows, row) ==> r == row || r in rows
  {
    if rows == [] {
    } else if rows[0].handle == row.handle {
    } else if Less(row.handle, rows[0].handle) {
      forall j | 0 < j < |rows| ensures Less(row.handle, rows[j].handle) {
        LessTransitive(row.handle, rows[0].handle, rows[j].handle);
      }
    } else {
      LessTotal(row.handle, rows[0].handle);
      InsertKeepsOrder(rows[1..], row);
      var rest := Insert(rows[1..], row);
      forall j | 0 <= j < |rest| ensures Less(rows[0].handle, rest[j].handle) {
        assert rest[j] in rest;
      }
    }
  }

  /** In an ascending listing a handle sits at most once, so any position holding it is the answer. */
  lemma RowFound(rows: seq<Placement>, i: nat)
    requires AscendingRows(rows) && i < |rows|
    ensures RowAt(rows, rows[i].handle) == Some(rows[i])
  {
    var h := rows[i].handle;
    var found := RowAt(rows, h).value;
    var j :| 0 <= j < |rows| && rows[j] == found;
    LessIrreflexive(h);
  }

  lemma ItemFound(items: seq<RemoteItem>, i: nat)
    requires AscendingItems(items) && i < |items|
    ensures ItemAt(items, items[i].handle) == Some(items[i])
  {
    var h := items[i].handle;
    var found := ItemAt(items, h).value;
    var j :| 0 <= j < |items| && items[j] == found;
    LessIrreflexive(h);
  }

  lemma {:induction false} InsertSets(rows: seq<Placement>, row: Placement, h: Handle)
    requires AscendingRows(rows)
    ensures RowAt(Insert(rows, row), h) == if h == row.handle then Some(row) else RowAt(rows, h)
  {
    var after := Insert(rows, row);
    InsertKeepsOrder(rows, row);
    InsertHolds(rows, row);
    if h == row.handle {
      var i :| 0 <= i < |after| && after[i] == row;
      RowFound(after, i);
    } else if RowAt(rows, h).Some? {
      var found := RowAt(rows, h).value;
      var i :| 0 <= i < |after| && after[i] == found;
      RowFound(after, i);
    } else if RowAt(after, h).Some? {
      assert false;
    }
  }

  lemma {:induction false} InsertHolds(rows: seq<Placement>, row: Placement)
    ensures row in Insert(rows, row)
    ensures forall r :: r in rows && r.handle != row.handle ==> r in Insert(rows, row)
  {
    if rows != [] && rows[0].handle != row.handle && !Less(row.handle, rows[0].handle) {
      InsertHolds(rows[1..], row);
      assert rows == [rows[0]] + rows[1..];
    }
  }

  /** Collecting a listing is an ordered map of it: ascending, the last row of each handle kept. */
  lemma {:induction false} CollectIsOrderedMap(listing: seq<Placement>, h: Handle)
    ensures AscendingRows(Collect(listing))
    ensures RowAt(Collect(listing), h) == RowAt(listing, h)
  {
    if listing != [] {
      var init := listing[..|listing| - 1];
      CollectIsOrderedMap(init, h);
      InsertKeepsOrder(Collect(init), listing[|listing| - 1]);
      InsertSets(Collect(init), listing[|listing| - 1], h);
    }
  }

  lemma {:induction false} SortInKeeps(item: RemoteItem, items: seq<RemoteItem>, h: Handle)
    requires Ordered(items)
    ensures Ordered(SortIn(item, items))
    ensures forall x :: x in SortIn(item, items) <==> x == item || x in items
    ensures ItemAt(SortIn(item, items), h) == ItemAt([item] + items, h)
  {
    assert ([item] + items)[1..] == items;
    if items == [] {
    } else if !Less(items[0].handle, item.handle) {
      forall j | 0 < j < |items| ensures !Less(items[j].handle, item.handle) {
        NotLessTransitive(item.handle, items[0].handle, items[j].handle);
      }
    } else {
      SortInKeeps(item, items[1..], h);
      LessIrreflexive(item.handle);
      var rest := SortIn(item, items[1..]);
      assert SortIn(item, items) == [items[0]] + rest && ([items[0]] + rest)[1..] == rest;
      assert ([item] + items[1..])[1..] == items[1..];
      forall j | 0 <= j < |rest| ensures !Less(rest[j].handle, items[0].handle) {
        assert rest[j] in rest;
        if rest[j] == item && Less(item.handle, items[0].handle) {
          LessTransitive(item.handle, items[0].handle, item.handle);
        }
      }
    }
  }

  lemma {:induction false} SortKeeps(items: seq<RemoteItem>, h: Handle)
    ensures Ordered(Sort(items))
    ensures ItemAt(Sort(items), h) == ItemAt(items, h)
  {
    if items != [] {
      SortKeeps(items[1..], h);
      SortInKeeps(items[0], Sort(items[1..]), h);
      assert ([items[0]] + Sort(items[1..]))[1..] == Sort(items[1..]);
    }
  }

  lemma {:induction false} SortedIsOrdered(items: seq<RemoteItem>)
    requires IsSorted(items)
    ensures Ordered(items)
  {
    forall i, j | 0 <= i < j < |items| ensures !Less(items[j].handle, items[i].handle) {
      SortedStep(items, i, j);
    }
  }

  lemma {:induction false} SortedStep(items: seq<RemoteItem>, i: nat, j: nat)
    requires IsSorted(items) && i < j < |items|
    ensures !Less(items[j].handle, items[i].handle)
    decreases j
  {
    if i + 1 < j {
      SortedStep(items, i, j - 1);
      NotLessTransitive(items[i].handle, items[j - 1].handle, items[j].handle);
    }
  }

  lemma {:induction false} DedupKeeps(items: seq<RemoteItem>, h: Handle)
    requires Ordered(items)
    ensures AscendingItems(Dedup(items))
    ensures forall x :: x in Dedup(items) ==> x in items
    ensures ItemAt(Dedup(items), h) == ItemAt(items, h)
    decreases |items|
  {
    if |items| > 1 {
      if items[0].handle == items[1].handle {
        var kept := [items[0]] + items[2..];
        DedupKeeps(kept, h);
        assert kept[1..] == items[2..] && items[1..][1..] == items[2..];
        assert items == [items[0], items[1]] + items[2..];
      } else {
        DedupKeeps(items[1..], h);
        var rest := Dedup(items[1..]);
        assert ([items[0]] + rest)[1..] == rest;
        forall j | 0 <= j < |rest| ensures Less(items[0].handle, rest[j].handle) {
          assert rest[j] in items[1..];
          var k :| 1 <= k < |items| && items[k] == rest[j];
          LessTotal(items[0].handle, items[1].handle);
          LessTotal(items[0].handle, items[k].handle);
          if items[k].handle == items[0].handle {
            assert false;
          }
        }
      }
    }
  }

  /** Whatever order a snapshot arrives in, the walked side is strictly ascending and
    * holds the first item listed for each handle. */
  lemma NormaliseIsOrderedMap(items: seq<RemoteItem>, h: Handle)
    ensures AscendingItems(Normalise(items))
    ensures ItemAt(Normalise(items), h) == ItemAt(items, h)
  {
    if IsSorted(items) {
      SortedIsOrdered(items);
      DedupKeeps(items, h);
    } else {
      SortKeeps(items, h);
      DedupKeeps(Sort(items), h);
    }
  }

  lemma HeadIsAlone(items: seq<RemoteItem>)
    requires AscendingItems(items) && items != []
    ensures ItemAt(items[1..], items[0].handle).None?
  {
    LessIrreflexive(items[0].handle);
  }

  /** A strictly ascending side is determined by what it answers to each handle. */
  lemma {:induction false} AscendingIsDetermined(a: seq<RemoteItem>, b: seq<RemoteItem>)
    requires AscendingItems(a) && AscendingItems(b)
    requires forall h :: ItemAt(a, h) == ItemAt(b, h)
    ensures a == b
  {
    if a == [] {
      if b != [] {
        var unlisted := ItemAt(a, b[0].handle);
        assert false;
      }
    } else if b == [] {
      var unlisted := ItemAt(b, a[0].handle);
      assert false;
    } else {
      var x, y := a[0], b[0];
      assert ItemAt(b, x.handle) == Some(x) && ItemAt(a, y.handle) == Some(y);
      var i :| 0 <= i < |b| && b[i] == x;
      var j :| 0 <= j < |a| && a[j] == y;
      LessIrreflexive(x.handle);
      if i > 0 && j > 0 {
        LessTransitive(x.handle, y.handle, x.handle);
      }
      assert x == y;
      forall h ensures ItemAt(a[1..], h) == ItemAt(b[1..], h) {
        assert ItemAt(a, h) == ItemAt(b, h);
        HeadIsAlone(a);
        HeadIsAlone(b);
      }
      AscendingIsDetermined(a[1..], b[1..]);
    }
  }

  /** The handle both sides of a walk still have to reach, or stay past. */
  ghost predicate Above(h: Handle, join: Join) {
    && (forall row :: row in join.local ==> Less(h, row.handle))
    && (forall item :: item in join.remote ==> Less(h, item.handle))
  }

  ghost predicate Walkable(join: Join) {
    AscendingRows(join.local) && AscendingItems(join.remote)
  }

  /** One step takes the least handle of either side and leaves only greater ones. */
  lemma NextIsLeast(join: Join)
    requires Walkable(join) && join.Size() > 0
    ensures var (next, rest) := Next(join);
            && Walkable(rest)
            && Above(next.value.handle, rest)
            && next.value == Candidate(next.value.handle, RowAt(join.local, next.value.handle),
                                       ItemAt(join.remote, next.value.handle))
  {
    var (next, rest) := Next(join);
    var h := next.value.handle;
    if join.local != [] { RowFound(join.local, 0); }
    if join.remote != [] { ItemFound(join.remote, 0); }
    if join.local != [] && join.remote != [] {
      LessTotal(join.local[0].handle, join.remote[0].handle);
    }
    forall row | row in rest.local ensures Less(h, row.handle) {
      var k :| 0 <= k < |join.local| && join.local[k] == row && (rest.local == join.local || k > 0);
      if k > 0 && h != join.local[0].handle { LessTransitive(h, join.local[0].handle, row.handle); }
    }
    forall item | item in rest.remote ensures Less(h, item.handle) {
      var k :| 0 <= k < |join.remote| && join.remote[k] == item && (rest.remote == join.remote || k > 0);
      if k > 0 && h != join.remote[0].handle { LessTransitive(h, join.remote[0].handle, item.handle); }
    }
    LessIrreflexive(h);
    if next.value.local.None? && RowAt(join.local, h).Some? { assert false; }
    if next.value.remote.None? && ItemAt(join.remote, h).Some? { assert false; }
  }

  /** Every handle of either side comes out exactly once, in ascending order, paired
    * with what each side holds under it. */
  lemma {:induction false} WalkIsKeyedUnion(join: Join, h: Handle)
    requires Walkable(join)
    ensures Ascending(Candidates(join))
    ensures CandidateAt(Candidates(join), h) ==
            if RowAt(join.local, h).None? && ItemAt(join.remote, h).None? then None
            else Some(Candidate(h, RowAt(join.local, h), ItemAt(join.remote, h)))
    ensures forall g :: Above(g, join) ==> forall c :: c in Candidates(join) ==> Less(g, c.handle)
    decreases join.Size()
  {
    if join.Size() > 0 {
      var (next, rest) := Next(join);
      var least := next.value.handle;
      NextIsLeast(join);
      WalkIsKeyedUnion(rest, h);
      assert Candidates(join) == [next.value] + Candidates(rest);
      assert Candidates(join)[1..] == Candidates(rest);
      if h != least { WalkSteps(join, h); }
      hide Candidates, CandidateAt, Next, RowAt, ItemAt;
      forall g | Above(g, join) ensures forall c :: c in Candidates(join) ==> Less(g, c.handle) {
        AboveNext(g, join);
        forall c | c in Candidates(join) ensures Less(g, c.handle) {
          if c != next.value { LessTransitive(g, least, c.handle); }
        }
      }
    }
  }

  lemma AboveNext(g: Handle, join: Join)
    requires Above(g, join) && join.Size() > 0
    ensures Next(join).0.Some? && Less(g, Next(join).0.value.handle)
  {
    if join.local != [] { assert join.local[0] in join.local; }
    if join.remote != [] { assert join.remote[0] in join.remote; }
    hide Less;
  }

  lemma RowsDropHead(rows: seq<Placement>, h: Handle)
    requires rows != [] && h != rows[0].handle
    ensures RowAt(rows[1..], h) == RowAt(rows, h)
  {
    if |rows| > 1 && rows[|rows| - 1].handle != h {
      assert rows[1..][..|rows| - 2] == rows[..|rows| - 1][1..];
      RowsDropHead(rows[..|rows| - 1], h);
    }
  }

  /** A step changes neither side's answer for any handle but the one it takes. */
  lemma WalkSteps(join: Join, h: Handle)
    requires join.Size() > 0 && h != Next(join).0.value.handle
    ensures RowAt(Next(join).1.local, h) == RowAt(join.local, h)
    ensures ItemAt(Next(join).1.remote, h) == ItemAt(join.remote, h)
  {
    if Next(join).1.local != join.local { RowsDropHead(join.local, h); }
  }
}

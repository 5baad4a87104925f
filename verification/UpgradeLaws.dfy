/** Identity under an upgrade: link ids stay unique, and the order a fetch answers in plays no part. */
module UpgradeLaws {
  import opened Wrappers
  import opened Text
  import opened Placement
  import opened Change
  import opened Storage
  import opened Upgrade

  /** What follows the last separator of a text. */
  function AfterLast(s: Text): Text {
    if s == [] || s[|s| - 1] == SHARP then []
    else AfterLast(s[..|s| - 1]) + [s[|s| - 1]]
  }

  lemma {:induction false} AfterLastIs(front: Text, tail: Text)
    requires SHARP !in tail
    ensures AfterLast(front + [SHARP] + tail) == tail
    decreases |tail|
  {
    if tail == [] {
      assert front + [SHARP] + tail == front + [SHARP];
    } else {
      var init := tail[..|tail| - 1];
      assert (front + [SHARP] + tail)[..|front + [SHARP] + tail| - 1] == front + [SHARP] + init;
      AfterLastIs(front, init);
    }
  }

  /** A minted key tells its hint and its handle apart when the handle holds no separator. */
  lemma MintIsInjective(hint: LinkId, h: Handle, other: LinkId, g: Handle)
    requires SHARP !in h.text && SHARP !in g.text && MintLink(hint, h) == MintLink(other, g)
    ensures hint == other && h == g
  {
    hide MintLink, AfterLast;
    MintOpens(hint, h);
    MintOpens(other, g);
  }

  lemma MintOpens(hint: LinkId, h: Handle)
    requires SHARP !in h.text
    ensures var minted := MintLink(hint, h).text;
            && h == Handle(AfterLast(minted)) && |minted| == |DUP| + |hint.text| + 1 + |h.text|
            && hint == LinkId(minted[|DUP|..|minted| - 1 - |h.text|])
  {
    AfterLastIs(DUP + hint.text, h.text);
    assert MintLink(hint, h).text == DUP + (hint.text + ([SHARP] + h.text));
  }

  /** With one in the handle it does not: the same key is minted for another hint and handle. */
  lemma MintCollides(hint: LinkId, x: Text, y: Text)
    ensures MintLink(hint, Handle(x + [SHARP] + y)) == MintLink(LinkId(hint.text + [SHARP] + x), Handle(y))
  {
    assert DUP + hint.text + [SHARP] + (x + [SHARP] + y) == DUP + (hint.text + [SHARP] + x) + [SHARP] + y;
  }

  ghost predicate DistinctFetch(items: seq<FetchedItem>) {
    forall i, j :: 0 <= i < j < |items| ==> items[i].handle != items[j].handle
  }

  ghost predicate AscendingFetch(items: seq<FetchedItem>) {
    forall i, j :: 0 <= i < j < |items| ==> Less(items[i].handle, items[j].handle)
  }

  lemma {:induction false} SortFetchKeeps(item: FetchedItem, items: seq<FetchedItem>)
    requires AscendingFetch(items) && forall x :: x in items ==> x.handle != item.handle
    ensures AscendingFetch(SortFetchIn(item, items))
    ensures multiset(SortFetchIn(item, items)) == multiset(items) + multiset{item}
    ensures forall x :: x in SortFetchIn(item, items) <==> x == item || x in items
  {
    if items == [] {
    } else if !Less(items[0].handle, item.handle) {
      LessTotal(items[0].handle, item.handle);
      forall j | 0 < j < |items| ensures Less(item.handle, items[j].handle) {
        LessTransitive(item.handle, items[0].handle, items[j].handle);
      }
      assert SortFetchIn(item, items) == [item] + items;
    } else {
      var rest := SortFetchIn(item, items[1..]);
      SortFetchKeeps(item, items[1..]);
      forall j | 0 <= j < |rest| ensures Less(items[0].handle, rest[j].handle) {
        assert rest[j] in rest;
      }
      assert items == [items[0]] + items[1..];
    }
  }

  lemma {:induction false} SortedKeeps(items: seq<FetchedItem>)
    requires DistinctFetch(items)
    ensures AscendingFetch(SortedFetch(items)) && multiset(SortedFetch(items)) == multiset(items)
    ensures forall x :: x in SortedFetch(items) <==> x in items
  {
    if items != [] {
      SortedKeeps(items[1..]);
      SortFetchKeeps(items[0], SortedFetch(items[1..]));
      assert items == [items[0]] + items[1..];
    }
  }

  lemma RestOf(items: seq<FetchedItem>)
    requires items != []
    ensures items == [items[0]] + items[1..] && multiset(items[1..]) == multiset(items) - multiset{items[0]}
  {
    assert items == [items[0]] + items[1..];
  }

  lemma {:induction false} AscendingFetchIsDetermined(a: seq<FetchedItem>, b: seq<FetchedItem>)
    requires AscendingFetch(a) && AscendingFetch(b) && multiset(a) == multiset(b)
    ensures a == b
    decreases |a|
  {
    assert |a| == |multiset(a)| == |multiset(b)| == |b|;
    if a != [] {
      SameLeast(a, b);
      hide Less;
      RestOf(a);
      RestOf(b);
      AscendingFetchIsDetermined(a[1..], b[1..]);
    }
  }

  lemma SameLeast(a: seq<FetchedItem>, b: seq<FetchedItem>)
    requires AscendingFetch(a) && AscendingFetch(b) && multiset(a) == multiset(b) && a != [] && b != []
    ensures a[0] == b[0]
  {
    hide Less;
    assert a[0] in multiset(b) && b[0] in multiset(a);
    var i :| 0 <= i < |b| && b[i] == a[0];
    var j :| 0 <= j < |a| && a[j] == b[0];
    if i > 0 && j > 0 {
      LessTransitive(b[0].handle, a[0].handle, b[0].handle);
      LessIrreflexive(b[0].handle);
    }
  }

  /** A fetch answering in another order writes the very same ops. */
  lemma OrderPlaysNoPart(tier: Tier, placements: Placements, items: seq<FetchedItem>, others: seq<FetchedItem>)
    requires DistinctFetch(items) && DistinctFetch(others) && multiset(items) == multiset(others)
    ensures WriteFetchedOps(tier, placements, items) == WriteFetchedOps(tier, placements, others)
  {
    SortedKeeps(items);
    SortedKeeps(others);
    AscendingFetchIsDetermined(SortedFetch(items), SortedFetch(others));
  }

  /** No two rows under one link id. */
  ghost predicate LinksDistinct(rows: Rows) {
    forall g, h :: g in rows && h in rows && g != h && rows[g].linkId.Some? ==> rows[g].linkId != rows[h].linkId
  }

  /** The items whose hint is taken by the time they are reached: those given a minted key. */
  function Minting(tier: Tier, placements: Placements, items: seq<FetchedItem>, claimed: set<LinkId>)
    : seq<FetchedItem>
  {
    if items == [] then []
    else (if Establishes(tier, placements, items[0]) && items[0].link in claimed then [items[0]] else [])
         + Minting(tier, placements, items[1..], Claiming(tier, placements, items[0], claimed))
  }

  lemma {:induction false} MintingWithin(tier: Tier, placements: Placements, items: seq<FetchedItem>,
                                         claimed: set<LinkId>)
    ensures forall a :: a in Minting(tier, placements, items, claimed) ==> a in items
    decreases |items|
  {
    if items != [] {
      MintingWithin(tier, placements, items[1..], Claiming(tier, placements, items[0], claimed));
    }
  }

  /** No key minted is hinted by an item, held by a row, or minted twice. */
  ghost predicate MintsAreNew(rows: Rows, items: seq<FetchedItem>, minting: seq<FetchedItem>) {
    && (forall a, b :: a in minting && b in items ==> MintLink(a.link, a.handle) != b.link)
    && (forall a, h :: a in minting && h in rows ==> rows[h].linkId != Some(MintLink(a.link, a.handle)))
    && (forall a, b :: a in minting && b in minting && a.handle != b.handle ==>
          MintLink(a.link, a.handle) != MintLink(b.link, b.handle))
  }

  /** Keys minted from handles holding no separator never are. */
  lemma SeparatedMintsDiffer(minting: seq<FetchedItem>)
    requires forall a :: a in minting ==> SHARP !in a.handle.text
    ensures forall a, b :: a in minting && b in minting && a.handle != b.handle ==>
              MintLink(a.link, a.handle) != MintLink(b.link, b.handle)
  {
    forall a, b | a in minting && b in minting && a.handle != b.handle
      ensures MintLink(a.link, a.handle) != MintLink(b.link, b.handle)
    {
      if MintLink(a.link, a.handle) == MintLink(b.link, b.handle) {
        MintIsInjective(a.link, a.handle, b.link, b.handle);
      }
    }
  }

  /** Every row holding an identity about to be established is among those checked. */
  ghost predicate HintsClaimed(tier: Tier, rows: Rows, placements: Placements, items: seq<FetchedItem>,
                               claimed: set<LinkId>)
  {
    forall a, h :: a in items && Establishes(tier, placements, a) && h in rows && rows[h].linkId == Some(a.link)
                   ==> a.link in claimed
  }

  ghost predicate SameLink(rows: Rows, placements: Placements, h: Handle)
    requires h in placements
  {
    h in rows && rows[h].linkId == placements[h].linkId
  }

  /** The rows still to apply hold the identities they were loaded with. */
  ghost predicate AsLoaded(rows: Rows, placements: Placements, items: seq<FetchedItem>) {
    KeyedRows(placements) && (forall a :: a in items && a.handle in placements ==> SameLink(rows, placements, a.handle))
  }

  /** What applying fetched items relies on, and keeps. */
  ghost predicate Settling(tier: Tier, rows: Rows, placements: Placements, items: seq<FetchedItem>,
                           claimed: set<LinkId>)
  {
    && LinksDistinct(rows) && MintsAreNew(rows, items, Minting(tier, placements, items, claimed))
    && HintsClaimed(tier, rows, placements, items, claimed)
    && AsLoaded(rows, placements, items) && DistinctFetch(items)
  }

  lemma ItemApplies(tier: Tier, placements: Placements, item: FetchedItem, claimed: set<LinkId>, rows: Rows)
    requires item.handle in placements ==> placements[item.handle].handle == item.handle
    ensures Apply(rows, ItemOps(tier, placements, item, claimed))
            == if Applies(tier, placements, item) then rows[item.handle := ItemRow(tier, placements, item, claimed)]
               else rows
  {
    if Applies(tier, placements, item) {
      var upsert := UpsertPlacement(ItemRow(tier, placements, item, claimed));
      var stores := StoreOps(tier, item);
      ApplyConcat(rows, stores, [upsert]);
      if stores != [] { ApplyOne(rows, stores[0]); }
      ApplyOne(rows, upsert);
    }
  }

  /** Applying one item keeps what the rest relies on, link ids distinct above all. */
  lemma ItemSettles(tier: Tier, placements: Placements, items: seq<FetchedItem>, claimed: set<LinkId>, rows: Rows)
    requires items != [] && Settling(tier, rows, placements, items, claimed)
    ensures Settling(tier, Apply(rows, ItemOps(tier, placements, items[0], claimed)), placements, items[1..],
                     Claiming(tier, placements, items[0], claimed))
  {
    var item, rest := items[0], items[1..];
    assert item in items && forall a :: a in rest ==> a in items;
    forall a | a in rest ensures a.handle != item.handle {
      var i :| 0 <= i < |rest| && rest[i] == a;
      assert items[i + 1] == a;
    }
    ItemApplies(tier, placements, item, claimed, rows);
    assert item.handle in placements ==> SameLink(rows, placements, item.handle);
    hide Settling, ItemOps;
    if Establishes(tier, placements, item) {
      NewLinkSettles(tier, placements, items, claimed, rows, ItemRow(tier, placements, item, claimed));
    } else if Applies(tier, placements, item) {
      OldLinkSettles(tier, placements, items, claimed, rows, ItemRow(tier, placements, item, claimed));
    } else {
      SkippedSettles(tier, placements, items, claimed, rows);
    }
  }

  lemma SkippedSettles(tier: Tier, placements: Placements, items: seq<FetchedItem>, claimed: set<LinkId>, rows: Rows)
    requires items != [] && Settling(tier, rows, placements, items, claimed)
    requires !Establishes(tier, placements, items[0])
    requires forall a :: a in items[1..] ==> a.handle != items[0].handle && a in items
    ensures Settling(tier, rows, placements, items[1..], claimed)
  {
    hide MintLink, Establishes;
  }

  lemma OldLinkSettles(tier: Tier, placements: Placements, items: seq<FetchedItem>, claimed: set<LinkId>, rows: Rows,
                       row: Placement)
    requires items != [] && Settling(tier, rows, placements, items, claimed)
    requires !Establishes(tier, placements, items[0])
    requires items[0].handle in rows && row.linkId == rows[items[0].handle].linkId
    requires forall a :: a in items[1..] ==> a.handle != items[0].handle && a in items
    ensures Settling(tier, rows[items[0].handle := row], placements, items[1..], claimed)
  {
    hide MintLink, Establishes;
  }

  /** The identity one item establishes is held by no row and minted by no later item. */
  lemma NewLinkIsNew(tier: Tier, placements: Placements, items: seq<FetchedItem>, claimed: set<LinkId>, rows: Rows)
    requires items != [] && Settling(tier, rows, placements, items, claimed) && Establishes(tier, placements, items[0])
    requires forall a :: a in items[1..] ==> a.handle != items[0].handle && a in items
    ensures var link := Identity(placements[items[0].handle], items[0], claimed);
            var later := Minting(tier, placements, items[1..], Claiming(tier, placements, items[0], claimed));
            && (forall h :: h in rows ==> rows[h].linkId != Some(link))
            && (forall a :: a in later ==> link != MintLink(a.link, a.handle))
            && (forall a :: a in later ==> a in Minting(tier, placements, items, claimed))
  {
    var item := items[0];
    var link := Identity(placements[item.handle], item, claimed);
    var minting := Minting(tier, placements, items, claimed);
    var later := Minting(tier, placements, items[1..], Claiming(tier, placements, item, claimed));
    assert item in items && forall a :: a in later ==> a in minting;
    assert item.link in claimed ==> item in minting;
    MintingWithin(tier, placements, items[1..], Claiming(tier, placements, item, claimed));
    hide Minting, Establishes, Claiming, LinksDistinct, DistinctFetch, AsLoaded, MintLink;
  }

  lemma NewLinkSettles(tier: Tier, placements: Placements, items: seq<FetchedItem>, claimed: set<LinkId>, rows: Rows,
                       row: Placement)
    requires items != [] && Settling(tier, rows, placements, items, claimed)
    requires Establishes(tier, placements, items[0]) && items[0].handle in rows
    requires row.linkId == Some(Identity(placements[items[0].handle], items[0], claimed))
    requires forall a :: a in items[1..] ==> a.handle != items[0].handle && a in items
    ensures Settling(tier, rows[items[0].handle := row], placements, items[1..],
                     Claiming(tier, placements, items[0], claimed))
  {
    NewLinkIsNew(tier, placements, items, claimed, rows);
    hide Minting, Establishes, MintLink, Identity;
  }

  lemma {:induction false} FetchSettles(tier: Tier, placements: Placements, items: seq<FetchedItem>,
                                        claimed: set<LinkId>, rows: Rows)
    requires Settling(tier, rows, placements, items, claimed)
    ensures LinksDistinct(Apply(rows, FetchedOps(tier, placements, items, claimed)))
    decreases |items|
  {
    if items != [] {
      ItemSettles(tier, placements, items, claimed, rows);
      var own := ItemOps(tier, placements, items[0], claimed);
      var next := Claiming(tier, placements, items[0], claimed);
      hide ItemOps, Claiming, Settling, LinksDistinct;
      FetchSettles(tier, placements, items[1..], next, Apply(rows, own));
      ApplyConcat(rows, own, FetchedOps(tier, placements, items[1..], next));
    }
  }

  lemma WritesFetched(tier: Tier, placements: Placements, items: seq<FetchedItem>)
    ensures WriteFetchedOps(tier, placements, items)
            == FetchedOps(tier, placements, SortedFetch(items), HeldLinks(placements))
  {
  }

  /** Where every holder of an identity to establish was loaded, the sorted batch settles. */
  lemma SortedSettles(tier: Tier, store: Rows, placements: Placements, items: seq<FetchedItem>)
    requires LinksDistinct(store) && DistinctFetch(items)
    requires MintsAreNew(store, items, Minting(tier, placements, SortedFetch(items), HeldLinks(placements)))
    requires KeyedRows(placements) && forall h :: h in placements ==> SameLink(store, placements, h)
    requires forall a, h ::
               (a in items && Establishes(tier, placements, a) && h in store && store[h].linkId == Some(a.link))
               ==> h in placements
    ensures Settling(tier, store, placements, SortedFetch(items), HeldLinks(placements))
  {
    SortedKeeps(items);
    SortedDistinct(items);
    LoadedClaimed(tier, store, placements, items, SortedFetch(items));
    var minting := Minting(tier, placements, SortedFetch(items), HeldLinks(placements));
    MintsStayNew(store, items, SortedFetch(items), minting);
    LoadedAlike(store, placements, SortedFetch(items));
    hide *;
    IsSettling(tier, store, placements, SortedFetch(items), HeldLinks(placements));
  }

  lemma MintsStayNew(rows: Rows, items: seq<FetchedItem>, others: seq<FetchedItem>, minting: seq<FetchedItem>)
    requires MintsAreNew(rows, items, minting) && forall b :: b in others ==> b in items
    ensures MintsAreNew(rows, others, minting)
  {
    hide MintLink;
  }

  lemma LoadedAlike(rows: Rows, placements: Placements, items: seq<FetchedItem>)
    requires KeyedRows(placements) && forall h :: h in placements ==> SameLink(rows, placements, h)
    ensures AsLoaded(rows, placements, items)
  {
  }

  lemma IsSettling(tier: Tier, rows: Rows, placements: Placements, items: seq<FetchedItem>, claimed: set<LinkId>)
    requires LinksDistinct(rows) && MintsAreNew(rows, items, Minting(tier, placements, items, claimed))
    requires HintsClaimed(tier, rows, placements, items, claimed)
    requires AsLoaded(rows, placements, items) && DistinctFetch(items)
    ensures Settling(tier, rows, placements, items, claimed)
  {
    hide LinksDistinct, MintsAreNew, HintsClaimed, AsLoaded, DistinctFetch, Minting;
  }

  lemma SortedDistinct(items: seq<FetchedItem>)
    requires DistinctFetch(items)
    ensures DistinctFetch(SortedFetch(items)) && multiset(SortedFetch(items)) == multiset(items)
  {
    SortedKeeps(items);
    var sorted := SortedFetch(items);
    hide SortedFetch, Less;
    forall i, j | 0 <= i < j < |sorted| ensures sorted[i].handle != sorted[j].handle {
      LessIrreflexive(sorted[i].handle);
    }
  }

  /** A holder that was loaded has its identity claimed. */
  lemma LoadedClaimed(tier: Tier, store: Rows, placements: Placements, items: seq<FetchedItem>,
                      others: seq<FetchedItem>)
    requires forall h :: h in placements ==> SameLink(store, placements, h)
    requires forall a, h ::
               (a in items && Establishes(tier, placements, a) && h in store && store[h].linkId == Some(a.link))
               ==> h in placements
    requires forall a :: a in others ==> a in items
    ensures HintsClaimed(tier, store, placements, others, HeldLinks(placements))
  {
    hide Establishes;
    forall a, h | a in others && Establishes(tier, placements, a) && h in store && store[h].linkId == Some(a.link)
      ensures a.link in HeldLinks(placements)
    {
      assert h in placements && SameLink(store, placements, h);
    }
  }

  /** What the link check answers: linked rows of the store, among them each holder of a link asked about. */
  ghost predicate AnswersLinks(store: Rows, links: seq<LinkId>, holders: seq<Placement>) {
    && (forall row :: row in holders ==> At(store, row.handle) == Some(row) && row.linkId.Some?)
    && (forall h :: h in store && store[h].linkId.Some? && store[h].linkId.value in links ==> store[h] in holders)
  }

  /** Folding the holders in keeps what was loaded and leaves out none of them. */
  lemma {:induction false} FoldedHolds(store: Rows, placements: Placements, holders: seq<Placement>)
    requires KeyedRows(placements) && forall h :: h in placements ==> At(store, h) == Some(placements[h])
    requires forall row :: row in holders ==> At(store, row.handle) == Some(row)
    ensures var folded := Overlaid(placements, holders);
            && KeyedRows(folded) && (forall h :: h in folded ==> At(store, h) == Some(folded[h]))
            && (forall h :: h in folded <==> h in placements || exists row :: row in holders && row.handle == h)
            && (forall h :: h in placements ==> folded[h] == placements[h])
    decreases |holders|
  {
    if holders != [] {
      var init := holders[..|holders| - 1];
      assert holders == init + [holders[|holders| - 1]];
      FoldedHolds(store, placements, init);
    }
  }

  /** Every item that would establish an identity has it asked about. */
  lemma {:induction false} FreshAsked(placements: Placements, items: seq<FetchedItem>, item: FetchedItem)
    requires item in items && item.handle in placements && placements[item.handle].linkId.None?
    ensures item.link in FreshLinks(placements, items)
    decreases |items|
  {
    var init := items[..|items| - 1];
    assert items == init + [items[|items| - 1]];
    if item in init { FreshAsked(placements, init, item); }
  }

  /** Linking a stored body changes no identity. */
  lemma {:induction false} LinkingKeepsLinks(store: Rows, placements: Placements, pending: seq<Handle>,
                                             known: map<LinkId, Hash>)
    requires KeyedRows(placements) && forall h :: h in placements ==> At(store, h) == Some(placements[h])
    ensures var after := Apply(store, LinkedOps(placements, pending, known));
            after.Keys == store.Keys && forall h :: h in store ==> after[h].linkId == store[h].linkId
    decreases |pending|
  {
    if pending != [] {
      var init, last := pending[..|pending| - 1], pending[|pending| - 1];
      LinkingKeepsLinks(store, placements, init, known);
      if last in placements && Hit(placements[last], known).Some? {
        var op := UpsertPlacement(LinkedRow(placements[last], Hit(placements[last], known).value));
        ApplyConcat(store, LinkedOps(placements, init, known), [op]);
        ApplyOne(Apply(store, LinkedOps(placements, init, known)), op);
        assert At(store, last) == Some(placements[last]);
      } else {
        assert LinkedOps(placements, pending, known) == LinkedOps(placements, init, known);
      }
    }
  }

  /** The whole batch an upgrade writes, stored bodies linked and fetched items applied after the
    * link check, leaves link ids distinct where they were and the keys it mints are new. */
  lemma LinksStayDistinct(tier: Tier, store: Rows, placements: Placements, pending: seq<Handle>,
                          known: map<LinkId, Hash>, items: seq<FetchedItem>, holders: seq<Placement>)
    requires LinksDistinct(store) && KeyedRows(store) && DistinctFetch(items)
    requires KeyedRows(placements) && forall h :: h in placements ==> At(store, h) == Some(placements[h])
    requires AnswersLinks(store, FreshLinks(placements, items), holders)
    requires var folded := Overlaid(placements, holders);
             MintsAreNew(store, items, Minting(tier, folded, SortedFetch(items), HeldLinks(folded)))
    ensures LinksDistinct(Apply(store, LinkedOps(placements, pending, known)
                                       + WriteFetchedOps(tier, Overlaid(placements, holders), items)))
  {
    var folded := Overlaid(placements, holders);
    var linked := LinkedOps(placements, pending, known);
    var after := Apply(store, linked);
    LinkingKeepsLinks(store, placements, pending, known);
    FoldedHolds(store, placements, holders);
    ApplyConcat(store, linked, WriteFetchedOps(tier, folded, items));
    hide Overlaid, LinkedOps, Minting, MintLink, WriteFetchedOps, FreshLinks;
    forall a, h | a in items && Establishes(tier, folded, a) && h in after && after[h].linkId == Some(a.link)
      ensures h in folded
    {
      assert a.handle in placements by {
        assert folded[a.handle].linkId.None? && At(store, a.handle) == Some(folded[a.handle]);
      }
      FreshAsked(placements, items, a);
      assert store[h] in holders && store[h].handle == h;
    }
    SortedSettles(tier, after, folded, items);
    hide Settling, LinksDistinct, MintsAreNew, SameLink, HeldLinks, SortedFetch;
    FetchSettles(tier, folded, SortedFetch(items), HeldLinks(folded), after);
    WritesFetched(tier, folded, items);
  }

  /** A body linked from the store leaves no edit behind exactly where there is a base to move. */
  lemma {:induction false} LinkedIsSynced(placements: Placements, pending: seq<Handle>, known: map<LinkId, Hash>,
                                          op: WriteOp)
    requires op in LinkedOps(placements, pending, known)
    ensures exists h :: (
              && h in pending && h in placements && Hit(placements[h], known).Some?
              && op == UpsertPlacement(LinkedRow(placements[h], Hit(placements[h], known).value))
              && (op.placement.StagedEdit().None? <==> placements[h].base.Some?))
    decreases |pending|
  {
    var init, last := pending[..|pending| - 1], pending[|pending| - 1];
    assert pending == init + [last];
    if op in LinkedOps(placements, init, known) {
      LinkedIsSynced(placements, init, known, op);
      var h :| h in init && h in placements && Hit(placements[h], known).Some?
               && op == UpsertPlacement(LinkedRow(placements[h], Hit(placements[h], known).value))
               && (op.placement.StagedEdit().None? <==> placements[h].base.Some?);
      assert h in pending;
    } else {
      assert last in pending && last in placements;
    }
  }

  /** A row probed before it was ever based, linked to a stored body: the body is left standing as an
    * edit nobody made. */
  lemma BaselessLinkIsStaged(row: Placement, link: LinkId, hash: Hash)
    requires row.linkId == Some(link) && Linkable(row) && row.base.None?
    ensures LinkedOps(map[row.handle := row], [row.handle], map[link := hash])
            == [UpsertPlacement(LinkedRow(row, hash))]
    ensures LinkedRow(row, hash).StagedEdit() == Some(hash)
  {
    var placements, known := map[row.handle := row], map[link := hash];
    assert LinkedOps(placements, [], known) == [];
    assert [row.handle][..0] == [] && Hit(row, known) == Some(hash);
  }

  lemma {:induction false} PendingPend(tier: Tier, placements: Placements, handles: seq<Handle>)
    ensures forall h :: h in PendingHandles(tier, placements, handles) ==> h in placements && Pends(tier, placements[h])
  {
    if handles != [] {
      PendingPend(tier, placements, handles[..|handles| - 1]);
    }
  }

  /** A write of a row, if any, keeping its body. */
  ghost predicate KeepsBody(ops: seq<WriteOp>, h: Handle, body: Option<Hash>) {
    forall op :: op in ops && Touches(op, h) ==> op.UpsertPlacement? && op.placement.body == body
  }

  lemma BodyKept(rows: Rows, ops: seq<WriteOp>, h: Handle, row: Placement)
    requires At(rows, h) == Some(row) && KeepsBody(ops, h, row.body)
    ensures At(Apply(rows, ops), h).Some? && At(Apply(rows, ops), h).value.body == row.body
  {
    LastTouch(rows, ops, h);
  }

  lemma {:induction false} FetchKeepsBody(tier: Tier, placements: Placements, items: seq<FetchedItem>,
                                          claimed: set<LinkId>, h: Handle, row: Placement)
    requires KeyedRows(placements)
    requires h in placements && placements[h] == row
    requires tier == MetaTier || IsConflicted(row) || forall a :: a in items ==> a.handle != h
    ensures KeepsBody(FetchedOps(tier, placements, items, claimed), h, row.body)
    decreases |items|
  {
    if items != [] {
      var item := items[0];
      assert item in items && forall a :: a in items[1..] ==> a in items;
      assert KeepsBody(ItemOps(tier, placements, item, claimed), h, row.body);
      hide ItemOps;
      FetchKeepsBody(tier, placements, items[1..], Claiming(tier, placements, item, claimed), h, row);
    }
  }

  lemma {:induction false} LinkKeepsBody(placements: Placements, pending: seq<Handle>, known: map<LinkId, Hash>,
                                         h: Handle, row: Placement)
    requires forall g :: g in pending && g in placements ==> placements[g].handle == g
    requires h in pending ==> h in placements && !Linkable(placements[h])
    ensures KeepsBody(LinkedOps(placements, pending, known), h, row.body)
    decreases |pending|
  {
    if pending != [] {
      var init, last := pending[..|pending| - 1], pending[|pending| - 1];
      assert pending == init + [last];
      LinkKeepsBody(placements, init, known, h, row);
    }
  }

  /** Everything one upgrade writes: the bodies linked from the store at the full tier, then what
    * the fetch answered, against the holders its link check folded in. */
  function UpgradeOps(tier: Tier, placements: Placements, handles: seq<Handle>, known: map<LinkId, Hash>,
                      items: seq<FetchedItem>, holders: seq<Placement>): seq<WriteOp>
  {
    (if tier == FullTier then LinkedOps(placements, PendingHandles(tier, placements, handles), known) else [])
    + WriteFetchedOps(tier, Overlaid(placements, holders), items)
  }

  ghost predicate KeyedRows(placements: Placements) {
    forall h :: h in placements ==> placements[h].handle == h
  }

  lemma KeyedUpdate(placements: Placements, row: Placement)
    requires KeyedRows(placements)
    ensures KeyedRows(placements[row.handle := row])
  {
  }

  lemma {:induction false} FoldedKeeps(placements: Placements, rows: seq<Placement>)
    requires KeyedRows(placements)
    ensures forall h :: h in placements ==>
              h in Overlaid(placements, rows) && Overlaid(placements, rows)[h] == placements[h]
    ensures KeyedRows(Overlaid(placements, rows))
    decreases |rows|
  {
    if rows != [] {
      FoldedKeeps(placements, rows[..|rows| - 1]);
      KeyedUpdate(Overlaid(placements, rows[..|rows| - 1]), rows[|rows| - 1]);
    }
  }

  lemma {:induction false} SortedHolds(items: seq<FetchedItem>)
    ensures forall x :: x in SortedFetch(items) ==> x in items
  {
    if items != [] {
      SortedHolds(items[1..]);
      SortInHolds(items[0], SortedFetch(items[1..]));
    }
  }

  lemma {:induction false} SortInHolds(item: FetchedItem, items: seq<FetchedItem>)
    ensures forall x :: x in SortFetchIn(item, items) ==> x == item || x in items
  {
    if items != [] && Less(items[0].handle, item.handle) {
      SortInHolds(item, items[1..]);
    }
  }

  /** An upgrade whose fetch answers only what it was asked never replaces the body of a row that
    * was `Full` and held one. */
  lemma FullBodyStays(tier: Tier, store: Rows, placements: Placements, handles: seq<Handle>, known: map<LinkId, Hash>,
                      items: seq<FetchedItem>, holders: seq<Placement>, h: Handle)
    requires KeyedRows(placements)
    requires forall a :: a in items ==> a.handle in PendingHandles(tier, placements, handles)
    requires h in placements && At(store, h) == Some(placements[h])
    requires placements[h].level == Full && placements[h].body.Some?
    ensures var after := At(Apply(store, UpgradeOps(tier, placements, handles, known, items, holders)), h);
            after.Some? && after.value.body == placements[h].body
  {
    var row := placements[h];
    var pending := PendingHandles(tier, placements, handles);
    var after := Overlaid(placements, holders);
    PendingPend(tier, placements, handles);
    FoldedKeeps(placements, holders);
    SortedHolds(items);
    if tier == FullTier { LinkKeepsBody(placements, pending, known, h, row); }
    FetchKeepsBody(tier, after, SortedFetch(items), HeldLinks(after), h, row);
    hide LinkedOps, FetchedOps, PendingHandles, Overlaid, SortedFetch, HeldLinks;
    BodyKept(store, UpgradeOps(tier, placements, handles, known, items, holders), h, row);
  }
}

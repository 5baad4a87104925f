/** Rebuilding a collection onto a new handle space, local state carried over by link id. */
module Rekey {
  import opened Wrappers
  import opened Text
  import opened Placement
  import opened Change
  import opened Remote

  datatype RekeyReport = RekeyReport(rekeyed: nat, pulled: nat, dropped: nat)

  /** What the meta tier resolved for a new handle. */
  datatype Resolved = Resolved(link: LinkId, meta: Meta, sortKey: SortKey)

  type Links = map<Handle, Resolved>

  function ResolvedAt(links: Links, h: Handle): Option<Resolved> {
    if h in links then Some(links[h]) else None
  }

  /** The spine: pending creates are local staging. */
  function Spine(former: seq<Placement>): seq<Placement> {
    if former == [] then []
    else
      var last := former[|former| - 1];
      Spine(former[..|former| - 1]) + (if last.status != Created then [last] else [])
  }

  /** The spine by link id: of two rows under one link the later stands. */
  function ByLink(spine: seq<Placement>): map<LinkId, Placement> {
    if spine == [] then map[]
    else
      var last := spine[|spine| - 1];
      var before := ByLink(spine[..|spine| - 1]);
      if last.linkId.Some? then before[last.linkId.value := last] else before
  }

  /** The old row whose item a new member is, unless an earlier member took it. */
  function CarriedBy(items: seq<RemoteItem>, links: Links, byLink: map<LinkId, Placement>, i: nat): Option<Placement>
    requires i < |items|
  {
    var resolved := ResolvedAt(links, items[i].handle);
    if resolved.Some? && resolved.value.link in byLink && Unclaimed(items, links, i, resolved.value.link)
    then Some(byLink[resolved.value.link]) else None
  }

  function LinkOf(links: Links, h: Handle): Option<LinkId> {
    if h in links then Some(links[h].link) else None
  }

  predicate ContentEdit(row: Placement) {
    row.body.Some? && (row.base.None? || row.base.value.body != row.body)
  }

  /** An old placement on the new handle: the flag delta re-derived, what was pending pending still. */
  function Carry(coll: CollectionId, former: Placement, item: RemoteItem, resolved: Option<Resolved>): Placement {
    var flags := MergeFlags(former.BaseFlags(), former.flags, item.flags);
    var status :=
      if former.status == Tombstone then Tombstone
      else if former.status == Conflict then Conflict
      else if former.status == Dirty && ContentEdit(former) then Dirty
      else if flags != item.flags then Dirty
      else Clean;
    var conflictRevision := if status == Conflict then item.revision else None;
    Placement(coll, item.handle, former.linkId, former.body, former.level,
              if resolved.Some? then Some(resolved.value.meta) else former.meta,
              if resolved.Some? then resolved.value.sortKey else former.sortKey,
              flags, status, conflictRevision,
              if conflictRevision == former.conflictRevision then former.conflictObject else None,
              Some(Base(item.flags, item.revision, former.BaseBody())), former.origin)
  }

  /** A new member with no old counterpart. */
  function Fresh(coll: CollectionId, item: RemoteItem, resolved: Option<Resolved>): Placement {
    Placement(coll, item.handle,
              if resolved.Some? then Some(resolved.value.link) else None, None,
              if resolved.Some? then MetaLevel else Probed,
              if resolved.Some? then Some(resolved.value.meta) else None,
              if resolved.Some? then resolved.value.sortKey else UNSORTED,
              item.flags, Clean, None, None, Some(Base(item.flags, item.revision, None)), None)
  }

  function MemberRow(coll: CollectionId, items: seq<RemoteItem>, links: Links, byLink: map<LinkId, Placement>, i: nat)
    : Placement
    requires i < |items|
  {
    var carried := CarriedBy(items, links, byLink, i);
    var resolved := ResolvedAt(links, items[i].handle);
    if carried.Some? then Carry(coll, carried.value, items[i], resolved) else Fresh(coll, items[i], resolved)
  }

  /** One row per new member. */
  function MemberOps(coll: CollectionId, items: seq<RemoteItem>, links: Links, byLink: map<LinkId, Placement>)
    : seq<WriteOp>
  {
    seq(|items|, i requires 0 <= i < |items| => UpsertPlacement(MemberRow(coll, items, links, byLink, i)))
  }

  /** The old rows some new member carries. */
  ghost function Carried(items: seq<RemoteItem>, links: Links, byLink: map<LinkId, Placement>): set<Handle> {
    CarriedUpTo(items, links, byLink, |items|)
  }

  /** Whether a row is an edit that survives its item's absence. */
  predicate Survives(row: Placement) {
    (row.status == Dirty || row.status == Conflict) && ContentEdit(row)
  }

  function Resurrected(row: Placement): Placement {
    row.(status := Created, conflictRevision := None, conflictObject := None, base := None, origin := None)
  }

  /** Whether the next row of a pass is one to resurrect. */
  predicate Resurrects(row: Placement, carried: set<Handle>) {
    row.handle !in carried && Survives(row)
  }

  /** The handles accounted for once a pass over the spine is done. */
  function Accounted(spine: seq<Placement>, carried: set<Handle>): set<Handle> {
    if spine == [] then carried
    else
      var before := Accounted(spine[..|spine| - 1], carried);
      var last := spine[|spine| - 1];
      if Resurrects(last, before) then before + {last.handle} else before
  }

  /** The edits the pass resurrects. */
  function Resurrections(spine: seq<Placement>, carried: set<Handle>): seq<WriteOp> {
    if spine == [] then []
    else
      var last := spine[|spine| - 1];
      Resurrections(spine[..|spine| - 1], carried) +
      (if Resurrects(last, Accounted(spine[..|spine| - 1], carried)) then [UpsertPlacement(Resurrected(last))] else [])
  }

  /** How many rows held pending state nothing accounts for. */
  function Lost(spine: seq<Placement>, accounted: set<Handle>): nat {
    if spine == [] then 0
    else
      var last := spine[|spine| - 1];
      Lost(spine[..|spine| - 1], accounted) + (if last.status != Clean && last.handle !in accounted then 1 else 0)
  }

  /** The old rows the batch writes nothing over. */
  function Retired(coll: CollectionId, spine: seq<Placement>, written: set<Handle>): seq<WriteOp> {
    if spine == [] then []
    else
      var last := spine[|spine| - 1];
      Retired(coll, spine[..|spine| - 1], written) +
      (if last.handle !in written then [DropPlacement(coll, last.handle, Superseded)] else [])
  }

  ghost function NewHandles(items: seq<RemoteItem>): set<Handle> {
    set item | item in items :: item.handle
  }

  ghost function RevivedHandles(spine: seq<Placement>, carried: set<Handle>): set<Handle> {
    set op | op in Resurrections(spine, carried) && op.UpsertPlacement? :: op.placement.handle
  }

  /** The rebuilding batch, its checkpoint aside. */
  ghost function Rebuilt(coll: CollectionId, former: seq<Placement>, items: seq<RemoteItem>, links: Links)
    : seq<WriteOp>
  {
    var spine := Spine(former);
    var byLink := ByLink(spine);
    var carried := Carried(items, links, byLink);
    MemberOps(coll, items, links, byLink) + Resurrections(spine, carried)
    + Retired(coll, spine, NewHandles(items) + RevivedHandles(spine, carried))
  }

  ghost function RebuiltReport(coll: CollectionId, former: seq<Placement>, items: seq<RemoteItem>, links: Links)
    : RekeyReport
  {
    var spine := Spine(former);
    var byLink := ByLink(spine);
    var carried := Carried(items, links, byLink);
    var taken := CarriedCount(items, links, byLink, |items|);
    RekeyReport(taken + |Resurrections(spine, carried)|, |items| - taken, Lost(spine, Accounted(spine, carried)))
  }

  function CarriedCount(items: seq<RemoteItem>, links: Links, byLink: map<LinkId, Placement>, n: nat): (r: nat)
    requires n <= |items|
    ensures r <= n
  {
    if n == 0 then 0
    else CarriedCount(items, links, byLink, n - 1) + (if CarriedBy(items, links, byLink, n - 1).Some? then 1 else 0)
  }

  datatype RekeyPhase = Start | PendingLoad | PendingEnumerate | PendingFetch | PendingWrite | Done

  datatype RekeyYield = LoadAll | EnumerateAll | FetchMeta(handles: seq<Handle>) | WriteBatch(ops: seq<WriteOp>)

  datatype FetchedMeta = FetchedMeta(handle: Handle, resolved: Resolved)

  datatype RekeyArg =
    | Loaded(rows: seq<Placement>)
    | Enumerated(snapshot: Snapshot)
    | Fetched(fetched: seq<FetchedMeta>)
    | Wrote

  datatype RekeyStep = Yielded(request: RekeyYield) | Complete(report: RekeyReport) | Failed

  function HandlesOf(items: seq<RemoteItem>): (r: seq<Handle>)
    ensures |r| == |items| && forall i :: 0 <= i < |r| ==> r[i] == items[i].handle
  {
    seq(|items|, i requires 0 <= i < |items| => items[i].handle)
  }

  /** The link ids a fetch resolved: of two answers for one handle the later stands. */
  function Collected(fetched: seq<FetchedMeta>): Links {
    if fetched == [] then map[]
    else
      var last := fetched[|fetched| - 1];
      Collected(fetched[..|fetched| - 1])[last.handle := last.resolved]
  }

  /** No earlier member resolved to the link. */
  predicate Unclaimed(items: seq<RemoteItem>, links: Links, n: nat, link: LinkId)
    requires n <= |items|
  {
    forall j :: 0 <= j < n ==> LinkOf(links, items[j].handle) != Some(link)
  }

  predicate AnyLinked(rows: seq<Placement>) {
    exists row :: row in rows && row.linkId.Some?
  }

  class ReplicaRekey {
    const collection: CollectionId
    var former: seq<Placement>
    var items: seq<RemoteItem>
    var checkpoint: Option<Checkpoint>
    var report: RekeyReport
    var phase: RekeyPhase

    /** The checkpoint a rebuild records is there whenever one can happen, and nothing is counted before. */
    ghost predicate Valid()
      reads this
    {
      && (phase == PendingFetch ==> checkpoint.Some?)
      && (phase != PendingWrite && phase != Done ==> report == RekeyReport(0, 0, 0))
    }

    constructor (collection: CollectionId)
      ensures Valid() && phase == Start && this.collection == collection
    {
      this.collection := collection;
      former, items, checkpoint := [], [], None;
      report := RekeyReport(0, 0, 0);
      phase := Start;
    }

    /** Builds the write batch: one row per new member, the edits that found no new home, a drop of
      * every old row neither wrote over, and the checkpoint. */
    method Rebuild(links: Links) returns (writes: seq<WriteOp>)
      requires checkpoint.Some? && report == RekeyReport(0, 0, 0)
      modifies this
      ensures writes == Rebuilt(collection, old(former), old(items), links)
                        + [SetCheckpoint(collection, old(checkpoint).value)]
      ensures report == RebuiltReport(collection, old(former), old(items), links)
      ensures phase == old(phase) && former == [] && items == [] && checkpoint == None
    {
      var spine := Spine(former);
      var byLink := ByLink(spine);
      ghost var members := items;
      var carriedOver, written;
      writes, carriedOver, written := CarryMembers(links, byLink);
      ghost var carried := carriedOver;
      var edits, accounted, revived := Resurrect(spine, carriedOver);
      writes := writes + edits;
      written := written + revived;
      report := report.(rekeyed := report.rekeyed + |edits|, dropped := report.dropped + Lost(spine, accounted));
      var drops := Retire(spine, written);
      writes := writes + drops;
      writes := writes + [SetCheckpoint(collection, checkpoint.value)];
      former, items, checkpoint := [], [], None;
    }

    /** One row per new member, carried from the old row of the same item or fresh. */
    method CarryMembers(links: Links, byLink: map<LinkId, Placement>)
      returns (writes: seq<WriteOp>, carriedOver: set<Handle>, written: set<Handle>)
      requires report == RekeyReport(0, 0, 0)
      modifies this`report
      ensures writes == MemberOps(collection, items, links, byLink)
      ensures carriedOver == Carried(items, links, byLink) && written == NewHandles(items)
      ensures var taken := CarriedCount(items, links, byLink, |items|);
              report == RekeyReport(taken, |items| - taken, 0)
    {
      var oldByLink := byLink;
      writes, carriedOver, written := [], {}, {};
      var i := 0;
      while i < |items|
        invariant 0 <= i <= |items|
        invariant writes == MemberOps(collection, items, links, byLink)[..i]
        invariant written == NewHandles(items[..i])
        invariant carriedOver == CarriedUpTo(items, links, byLink, i)
        invariant oldByLink == Remaining(items, links, byLink, i)
        invariant var taken := CarriedCount(items, links, byLink, i); report == RekeyReport(taken, i - taken, 0)
        modifies this`report
      {
        var item := items[i];
        var resolved := ResolvedAt(links, item.handle);
        StepsMember(items, links, byLink, i);
        MemberOpsGrow(collection, items, links, byLink, i);
        hide MemberOps;
        written := written + {item.handle};
        if resolved.Some? && resolved.value.link in oldByLink {
          var carried := oldByLink[resolved.value.link];
          oldByLink := oldByLink - {resolved.value.link};
          carriedOver := carriedOver + {carried.handle};
          writes := writes + [UpsertPlacement(Carry(collection, carried, item, resolved))];
          report := report.(rekeyed := report.rekeyed + 1);
        } else {
          writes := writes + [UpsertPlacement(Fresh(collection, item, resolved))];
          report := report.(pulled := report.pulled + 1);
        }
        i := i + 1;
      }
      assert items[..|items|] == items;
    }

    /** The staged edits nothing carried, as pending creates. */
    method Resurrect(spine: seq<Placement>, carried: set<Handle>)
      returns (writes: seq<WriteOp>, accounted: set<Handle>, revived: set<Handle>)
      ensures writes == Resurrections(spine, carried) && accounted == Accounted(spine, carried)
      ensures revived == RevivedHandles(spine, carried)
    {
      writes, accounted, revived := [], carried, {};
      var i := 0;
      while i < |spine|
        invariant 0 <= i <= |spine|
        invariant writes == Resurrections(spine[..i], carried) && accounted == Accounted(spine[..i], carried)
        invariant revived == (set op | op in writes && op.UpsertPlacement? :: op.placement.handle)
      {
        var row := spine[i];
        assert spine[..i + 1][..i] == spine[..i];
        if row.handle !in accounted && Survives(row) {
          writes := writes + [UpsertPlacement(Resurrected(row))];
          accounted := accounted + {row.handle};
          revived := revived + {row.handle};
        }
        i := i + 1;
      }
      assert spine[..|spine|] == spine;
    }

    /** A superseding drop of every old row the batch does not write. */
    method Retire(spine: seq<Placement>, written: set<Handle>) returns (drops: seq<WriteOp>)
      ensures drops == Retired(collection, spine, written)
    {
      drops := [];
      var i := 0;
      while i < |spine|
        invariant 0 <= i <= |spine|
        invariant drops == Retired(collection, spine[..i], written)
      {
        assert spine[..i + 1][..i] == spine[..i];
        if spine[i].handle !in written {
          drops := drops + [DropPlacement(collection, spine[i].handle, Superseded)];
        }
        i := i + 1;
      }
      assert spine[..|spine|] == spine;
    }

    /** One resumption: load, enumerate in full, resolve at the meta tier when some old row has a
      * link to match, write once. An argument nothing asked for fails and changes nothing. */
    method Resume(arg: Option<RekeyArg>) returns (step: RekeyStep)
      requires Valid()
      modifies this
      ensures Valid()
      ensures old(phase) == Start && arg == None ==> step == Yielded(LoadAll) && phase == PendingLoad
      ensures old(phase) == PendingLoad && arg.Some? && arg.value.Loaded? ==>
                step == Yielded(EnumerateAll) && phase == PendingEnumerate && former == arg.value.rows
      ensures old(phase) == PendingEnumerate && arg.Some? && arg.value.Enumerated? ==>
                var snapshot := arg.value.snapshot;
                if AnyLinked(old(former)) then
                  && step == Yielded(FetchMeta(HandlesOf(snapshot.items)))
                  && phase == PendingFetch && former == old(former) && items == snapshot.items
                  && checkpoint == Some(snapshot.checkpoint)
                else
                  && step == Yielded(WriteBatch(Rebuilt(collection, old(former), snapshot.items, map[])
                                                + [SetCheckpoint(collection, snapshot.checkpoint)]))
                  && phase == PendingWrite && report == RebuiltReport(collection, old(former), snapshot.items, map[])
      ensures old(phase) == PendingFetch && arg.Some? && arg.value.Fetched? ==>
                var links := Collected(arg.value.fetched);
                && step == Yielded(WriteBatch(Rebuilt(collection, old(former), old(items), links)
                                              + [SetCheckpoint(collection, old(checkpoint).value)]))
                && phase == PendingWrite && report == RebuiltReport(collection, old(former), old(items), links)
      ensures old(phase) == PendingWrite && arg == Some(Wrote) ==> step == Complete(old(report)) && phase == Done
      ensures !Expects(old(phase), arg) ==> step == Failed && unchanged(this)
    {
      if !Expects(phase, arg) { return Failed; }
      match phase {
        case Start =>
          phase := PendingLoad;
          step := Yielded(LoadAll);
        case PendingLoad =>
          former := arg.value.rows;
          phase := PendingEnumerate;
          step := Yielded(EnumerateAll);
        case PendingEnumerate =>
          items := arg.value.snapshot.items;
          checkpoint := Some(arg.value.snapshot.checkpoint);
          if AnyLinked(former) {
            phase := PendingFetch;
            step := Yielded(FetchMeta(HandlesOf(items)));
          } else {
            phase := PendingWrite;
            var writes := Rebuild(map[]);
            step := Yielded(WriteBatch(writes));
          }
        case PendingFetch =>
          phase := PendingWrite;
          var writes := Rebuild(Collected(arg.value.fetched));
          step := Yielded(WriteBatch(writes));
        case PendingWrite =>
          phase := Done;
          step := Complete(report);
      }
    }
  }

  /** Whether the argument answers what the phase asked for. */
  predicate Expects(phase: RekeyPhase, arg: Option<RekeyArg>) {
    match phase
    case Start => arg.None?
    case PendingLoad => arg.Some? && arg.value.Loaded?
    case PendingEnumerate => arg.Some? && arg.value.Enumerated?
    case PendingFetch => arg.Some? && arg.value.Fetched?
    case PendingWrite => arg == Some(Wrote)
    case Done => false
  }

  /** The old rows the first members carry, and those left to claim. */
  ghost function CarriedUpTo(items: seq<RemoteItem>, links: Links, byLink: map<LinkId, Placement>, n: nat): set<Handle>
    requires n <= |items|
  {
    set i | 0 <= i < n && CarriedBy(items, links, byLink, i).Some? :: CarriedBy(items, links, byLink, i).value.handle
  }

  ghost function Remaining(items: seq<RemoteItem>, links: Links, byLink: map<LinkId, Placement>, n: nat)
    : map<LinkId, Placement>
    requires n <= |items|
  {
    map link | link in byLink && Unclaimed(items, links, n, link) :: byLink[link]
  }

  lemma MemberOpsGrow(coll: CollectionId, items: seq<RemoteItem>, links: Links, byLink: map<LinkId, Placement>, i: nat)
    requires i < |items|
    ensures var ops := MemberOps(coll, items, links, byLink);
            i < |ops| && ops[..i + 1] == ops[..i] + [UpsertPlacement(MemberRow(coll, items, links, byLink, i))]
  {
    var ops := MemberOps(coll, items, links, byLink);
    assert ops[..i + 1] == ops[..i] + [ops[i]];
  }

  lemma StepsMember(items: seq<RemoteItem>, links: Links, byLink: map<LinkId, Placement>, i: nat)
    requires i < |items|
    ensures NewHandles(items[..i + 1]) == NewHandles(items[..i]) + {items[i].handle}
    ensures var carried := CarriedBy(items, links, byLink, i);
            var link := LinkOf(links, items[i].handle);
            var left := Remaining(items, links, byLink, i);
            && CarriedUpTo(items, links, byLink, i + 1)
               == CarriedUpTo(items, links, byLink, i) + (if carried.Some? then {carried.value.handle} else {})
            && (carried.Some? <==> link.Some? && link.value in left)
            && (carried.Some? ==> carried.value == left[link.value])
            && Remaining(items, links, byLink, i + 1) == (if link.Some? then left - {link.value} else left)
  {
    assert items[..i + 1] == items[..i] + [items[i]];
    var link := LinkOf(links, items[i].handle);
    forall l ensures Unclaimed(items, links, i + 1, l) <==> Unclaimed(items, links, i, l) && link != Some(l) {
    }
  }
}

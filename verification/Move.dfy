/** A move delivers exactly once, under every schedule of its two collections' syncs. */
module Move {
  import opened Wrappers
  import opened Text
  import opened Placement
  import opened Change
  import opened Remote
  import opened Join
  import opened MergeRules
  import opened SyncMachine
  import opened Storage
  import opened Rounds
  import opened Mutate
  import opened MemRemote

  /** The two collections of a move, their remote, and the local row each half is staged as. */
  datatype World = World(
    source: CollectionId,
    target: CollectionId,
    remote: RemoteState,
    tombstone: Option<Placement>,
    create: Option<Placement>
  )

  function ListedIn(r: RemoteState, coll: CollectionId, h: Handle): Option<RemoteItem> {
    if h in r.MembersOf(coll) then Some(Row(r, h, r.MembersOf(coll)[h])) else None
  }

  /** What a sync leaves of a staged row: its merge's writes, then the recording of its result. */
  function Settled(coll: CollectionId, opts: Options, row: Placement, listed: Option<RemoteItem>, r: PushResult)
    : Option<Placement>
  {
    var e := RoundEffect(coll, opts, row, listed);
    var ops := if e.push.Some? then RecordOne(coll, NO_PENDINGS.Add(row.handle, e.push.value.pending), r).writes
               else [];
    At(Apply(map[row.handle := row], e.writes + ops), row.handle)
  }

  /** One collection's sync, as far as a staged row goes: merged against what the remote lists, its
    * change serviced, its outcome recorded. */
  function SyncedRow(coll: CollectionId, opts: Options, r: RemoteState, row: Placement)
    : (RemoteState, Option<Placement>)
  {
    var listed := ListedIn(r, coll, row.handle);
    var e := RoundEffect(coll, opts, row, listed);
    if e.push.None? then (r, Settled(coll, opts, row, listed, RejectedOf(row.handle)))
    else
      var (next, result) := ServeKind(r, coll, e.push.value.kind);
      (next, Settled(coll, opts, row, listed, result))
  }

  datatype Side = Source | Target

  function Synced(opts: Options, w: World, side: Side): World {
    match side
    case Source =>
      if w.tombstone.None? then w
      else
        var (next, row) := SyncedRow(w.source, opts, w.remote, w.tombstone.value);
        w.(remote := next, tombstone := row)
    case Target =>
      if w.create.None? then w
      else
        var (next, row) := SyncedRow(w.target, opts, w.remote, w.create.value);
        w.(remote := next, create := row)
  }

  function SyncedAll(opts: Options, w: World, schedule: seq<Side>): World
    decreases |schedule|
  {
    if schedule == [] then w else SyncedAll(opts, Synced(opts, w, schedule[0]), schedule[1..])
  }

  /** The world once a move of a based row is staged. */
  function StagedMove(w: World, row: Placement, placeholder: Handle): World {
    w.(tombstone := Some(MovedRow(row, w.target)),
       create := if row.linkId.Some? then Some(StagedCopy(row, w.target, placeholder)) else None)
  }

  /** What a move starts from: a row based on a member as the remote now holds it, with no staged edit;
    * a target holding neither its identity nor the handles a delivery takes, and refusing it nothing. */
  predicate Movable(w: World, row: Placement, placeholder: Handle) {
    var from, into := w.remote.MembersOf(w.source), w.remote.MembersOf(w.target);
    && w.source != w.target && row.collection == w.source
    && row.base.Some? && row.StagedEdit().None?
    && row.handle in from && (row.linkId.Some? ==> row.linkId == Some(from[row.handle].link))
    && row.BaseRevision() == w.remote.RevisionOf(from[row.handle].rev)
    && from[row.handle].link !in w.remote.refused
    && (forall g :: g in into ==> into[g].link != from[row.handle].link)
    && MovedHandle(row.handle) !in into && CopiedHandle(row.handle) !in into
    && placeholder !in into && placeholder != MovedHandle(row.handle) && placeholder != CopiedHandle(row.handle)
  }

  predicate Allowed(opts: Options) {
    opts.MayRemove() && opts.MayAdd()
  }

  /** Which half delivered the item, and whether the source side is done. */
  datatype Delivery = Neither | ByRemove | ByCopy(sourced: bool)

  function Advance(d: Delivery, side: Side, linked: bool): Delivery {
    match side
    case Source => if d.ByCopy? then ByCopy(true) else ByRemove
    case Target => if d.Neither? && linked then ByCopy(false) else d
  }

  function AdvanceAll(d: Delivery, schedule: seq<Side>, linked: bool): Delivery
    decreases |schedule|
  {
    if schedule == [] then d else AdvanceAll(Advance(d, schedule[0], linked), schedule[1..], linked)
  }

  /** The remote at each point of a delivery. */
  function RemoteAt(start: World, h: Handle, d: Delivery): RemoteState
    requires h in start.remote.MembersOf(start.source)
  {
    var b := start.remote.Bumped();
    var item := start.remote.MembersOf(start.source)[h].(changed := b.counter);
    var copied := b.Put(start.target, CopiedHandle(h), item);
    match d
    case Neither => start.remote
    case ByRemove => b.Taken(start.source, h, b.counter).Put(start.target, MovedHandle(h), item)
    case ByCopy(sourced) => if sourced then copied.Bumped().Taken(start.source, h, b.counter + 1) else copied
  }

  function WorldAt(start: World, row: Placement, placeholder: Handle, d: Delivery): World
    requires row.handle in start.remote.MembersOf(start.source)
  {
    var staged := StagedMove(start, row, placeholder).(remote := RemoteAt(start, row.handle, d));
    match d
    case Neither => staged
    case ByRemove => staged.(tombstone := None)
    case ByCopy(sourced) => staged.(tombstone := if sourced then None else staged.tombstone, create := None)
  }

  /** The remove a moved row's sync derives, and the row's end once it is accepted. */
  lemma TombstoneMoves(coll: CollectionId, opts: Options, row: Placement, target: CollectionId, listed: RemoteItem)
    requires Allowed(opts) && row.base.Some? && row.StagedEdit().None?
    requires listed.revision == row.BaseRevision()
    ensures var moved := MovedRow(row, target);
            var e := RoundEffect(coll, opts, moved, Some(listed));
            && e.push.Some? && e.push.value.kind == Remove(row.handle, Some(target), row.linkId, row.BaseRevision())
            && Settled(coll, opts, moved, Some(listed), AcceptedAs(row.handle, None, None)) == None
  {
    var moved := MovedRow(row, target);
    hide MergeBoth, MergeRemoteDelete, PullAdd, RefuseDelete, PushUpdate;
    var e := RoundEffect(coll, opts, moved, Some(listed));
    assert e.writes == [] && e.push.Some? && e.push.value.pending == DropPush;
    hide RoundEffect;
    var p := NO_PENDINGS.Add(row.handle, DropPush);
    var drop := DropPlacement(coll, row.handle, Deleted);
    assert RecordOne(coll, p, AcceptedAs(row.handle, None, None)).writes == [drop];
    hide RecordOne;
    ApplyOne(map[row.handle := moved], drop);
    assert e.writes + [drop] == [drop];
  }

  /** The add a staged create derives, and its row's end once it is accepted or refused. */
  lemma CreateCopies(coll: CollectionId, opts: Options, row: Placement, target: CollectionId, placeholder: Handle,
                     copied: Handle, revision: Option<Revision>)
    requires Allowed(opts) && copied != placeholder
    ensures var create := StagedCopy(row, target, placeholder);
            var e := RoundEffect(coll, opts, create, None);
            && e.push.Some?
            && e.push.value.kind
               == Add(placeholder, row.linkId, row.flags, Some(Origin(row.collection, row.handle)), row.body)
            && Settled(coll, opts, create, None, AcceptedAs(placeholder, Some(copied), revision)) == None
            && Settled(coll, opts, create, None, RejectedOf(placeholder)) == Some(create)
  {
    var create := StagedCopy(row, target, placeholder);
    var e := RoundEffect(coll, opts, create, None);
    assert e == PushAdd(create);
    hide RoundEffect;
    var p := NO_PENDINGS.Add(placeholder, CreatePush(create));
    var drop := DropPlacement(coll, placeholder, Superseded);
    var placed := UpsertPlacement(PlacedRow(create, copied, revision));
    assert RecordOne(coll, p, AcceptedAs(placeholder, Some(copied), revision)).writes == [drop, placed];
    assert RecordOne(coll, p, RejectedOf(placeholder)).writes == [];
    hide RecordOne;
    ApplyTwo(map[placeholder := create], drop, placed);
    assert e.writes + [drop, placed] == [drop, placed] && e.writes + [] == [];
  }

  /** What the remote holds at each point of a delivery. */
  lemma RemoteHolds(start: World, row: Placement, placeholder: Handle, d: Delivery)
    requires Movable(start, row, placeholder)
    ensures var r := RemoteAt(start, row.handle, d);
            var from, into := start.remote.MembersOf(start.source), start.remote.MembersOf(start.target);
            var item := from[row.handle].(changed := start.remote.counter + 1);
            && r.MembersOf(start.source) == (if d.Neither? || d == ByCopy(false) then from else from - {row.handle})
            && r.MembersOf(start.target) == (match d
                                             case Neither => into
                                             case ByRemove => into[MovedHandle(row.handle) := item]
                                             case ByCopy(_) => into[CopiedHandle(row.handle) := item])
            && r.mutable == start.remote.mutable && r.refused == start.remote.refused
            && r.counter
               == start.remote.counter
                  + (match d case Neither => 0 case ByRemove => 1 case ByCopy(s) => if s then 2 else 1)
  {
  }

  lemma SourceAdvances(opts: Options, start: World, row: Placement, placeholder: Handle, d: Delivery)
    requires Allowed(opts) && Movable(start, row, placeholder) && (d.ByCopy? ==> row.linkId.Some?)
    ensures Synced(opts, WorldAt(start, row, placeholder, d), Source)
            == WorldAt(start, row, placeholder, Advance(d, Source, row.linkId.Some?))
  {
    var w := WorldAt(start, row, placeholder, d);
    if w.tombstone.Some? {
      var h := row.handle;
      RemoteHolds(start, row, placeholder, d);
      var listed := ListedIn(w.remote, w.source, h).value;
      TombstoneMoves(start.source, opts, row, start.target, listed);
      assert !w.remote.Stale(w.source, h, row.BaseRevision());
      if d.ByCopy? {
        assert CopiedHandle(h) in w.remote.MembersOf(w.target) && CopiedHandle(h) != h by { Longer(h, COPIED); }
      }
      hide RoundEffect, Settled;
      ServesMove(start, row, placeholder, d);
    }
  }

  lemma Longer(h: Handle, tail: Text)
    requires tail != []
    ensures Handle(h.text + tail) != h
  {
    assert |h.text + tail| > |h.text|;
  }

  lemma ServesMove(start: World, row: Placement, placeholder: Handle, d: Delivery)
    requires Movable(start, row, placeholder) && (d == Neither || (d == ByCopy(false) && row.linkId.Some?))
    ensures ServeRemove(RemoteAt(start, row.handle, d), start.source, row.handle, Some(start.target), row.linkId,
                        row.BaseRevision())
            == (RemoteAt(start, row.handle, Advance(d, Source, row.linkId.Some?)), AcceptedAs(row.handle, None, None))
  {
    var h := row.handle;
    var r := RemoteAt(start, h, d);
    RemoteHolds(start, row, placeholder, d);
    Longer(h, COPIED);
    assert !r.Stale(start.source, h, row.BaseRevision());
    if d == Neither {
      assert !r.HoldsLink(start.target, row.linkId, h);
    } else {
      assert CopiedHandle(h) in r.MembersOf(start.target);
      assert r.HoldsLink(start.target, row.linkId, h);
    }
  }

  lemma TargetAdvances(opts: Options, start: World, row: Placement, placeholder: Handle, d: Delivery)
    requires Allowed(opts) && Movable(start, row, placeholder) && (d.ByCopy? ==> row.linkId.Some?)
    ensures Synced(opts, WorldAt(start, row, placeholder, d), Target)
            == WorldAt(start, row, placeholder, Advance(d, Target, row.linkId.Some?))
  {
    var w := WorldAt(start, row, placeholder, d);
    if w.create.Some? {
      RemoteHolds(start, row, placeholder, d);
      assert ListedIn(w.remote, w.target, placeholder) == None;
      var rev := w.remote.RevisionOf(start.remote.MembersOf(start.source)[row.handle].rev);
      CreateCopies(start.target, opts, row, start.target, placeholder, CopiedHandle(row.handle), rev);
      hide RoundEffect, Settled;
    }
  }

  lemma {:induction false} ScheduleAdvances(opts: Options, start: World, row: Placement, placeholder: Handle,
                                            d: Delivery, schedule: seq<Side>)
    requires Allowed(opts) && Movable(start, row, placeholder) && (d.ByCopy? ==> row.linkId.Some?)
    ensures SyncedAll(opts, WorldAt(start, row, placeholder, d), schedule)
            == WorldAt(start, row, placeholder, AdvanceAll(d, schedule, row.linkId.Some?))
    decreases |schedule|
  {
    if schedule != [] {
      SourceAdvances(opts, start, row, placeholder, d);
      TargetAdvances(opts, start, row, placeholder, d);
      hide Synced, WorldAt;
      ScheduleAdvances(opts, start, row, placeholder, Advance(d, schedule[0], row.linkId.Some?), schedule[1..]);
    }
  }

  /** Whichever side syncs first delivers; the other then only tidies up. */
  lemma {:induction false} FirstDelivers(d: Delivery, schedule: seq<Side>, linked: bool)
    requires d.ByCopy? ==> linked
    ensures var after := AdvanceAll(d, schedule, linked);
            && (after.ByCopy? ==> linked)
            && (d.Neither? ==>
                  (after.Neither? <==> Source !in schedule && (linked ==> Target !in schedule))
                  && (after.ByRemove? ==> Source in schedule)
                  && (after.ByCopy? ==> (after.sourced <==> Source in schedule)))
            && (d.ByCopy? ==> after == ByCopy(d.sourced || Source in schedule))
            && (d.ByRemove? ==> after == ByRemove)
    decreases |schedule|
  {
    if schedule != [] {
      assert schedule == [schedule[0]] + schedule[1..];
      FirstDelivers(Advance(d, schedule[0], linked), schedule[1..], linked);
    }
  }

  /** The members of a collection holding an identity. */
  ghost function Holders(members: Members, link: LinkId): set<Handle> {
    set h | h in members && members[h].link == link
  }

  /** Over any interleaving of the two collections' syncs, the target never holds the item twice and
    * the two sides together always hold it. Once either side able to deliver it has synced, the target
    * holds exactly one; once the source has, the source no longer does. No other member of either
    * collection is touched. */
  lemma MoveDeliversOnce(opts: Options, start: World, row: Placement, placeholder: Handle, schedule: seq<Side>)
    requires Allowed(opts) && Movable(start, row, placeholder)
    ensures var h, moved, copied := row.handle, MovedHandle(row.handle), CopiedHandle(row.handle);
            var from, into := start.remote.MembersOf(start.source), start.remote.MembersOf(start.target);
            var w := SyncedAll(opts, StagedMove(start, row, placeholder), schedule);
            var left, reached := w.remote.MembersOf(start.source), w.remote.MembersOf(start.target);
            var held := Holders(reached, from[h].link);
            && (held == {} || held == {moved} || held == {copied})
            && (held == {} ==> h in left && left[h] == from[h])
            && (h in left <==> Source !in schedule)
            && (Source in schedule ==> held != {} && w.tombstone == None)
            && (Target in schedule && row.linkId.Some? ==> held != {})
            && left - {h} == from - {h} && reached - {moved, copied} == into
            && (forall g :: g in held ==> reached[g] == from[h].(changed := start.remote.counter + 1))
  {
    ScheduleAdvances(opts, start, row, placeholder, Neither, schedule);
    FirstDelivers(Neither, schedule, row.linkId.Some?);
    var d := AdvanceAll(Neither, schedule, row.linkId.Some?);
    assert WorldAt(start, row, placeholder, Neither) == StagedMove(start, row, placeholder);
    hide SyncedAll, AdvanceAll;
    DeliveredOnce(start, row, placeholder, d);
  }

  lemma DeliveredOnce(start: World, row: Placement, placeholder: Handle, d: Delivery)
    requires Movable(start, row, placeholder)
    ensures var h, moved, copied := row.handle, MovedHandle(row.handle), CopiedHandle(row.handle);
            var from, into := start.remote.MembersOf(start.source), start.remote.MembersOf(start.target);
            var r := RemoteAt(start, h, d);
            && Holders(r.MembersOf(start.target), from[h].link) == (match d
                                                                    case Neither => {}
                                                                    case ByRemove => {moved}
                                                                    case ByCopy(_) => {copied})
            && r.MembersOf(start.source) - {h} == from - {h}
            && r.MembersOf(start.target) - {moved, copied} == into
            && (h in r.MembersOf(start.source) <==> d == Neither || d == ByCopy(false))
            && (h in r.MembersOf(start.source) ==> r.MembersOf(start.source)[h] == from[h])
            && (forall g :: g in Holders(r.MembersOf(start.target), from[h].link) ==>
                  r.MembersOf(start.target)[g] == from[h].(changed := start.remote.counter + 1))
  {
    RemoteHolds(start, row, placeholder, d);
    hide RemoteAt;
    var into := start.remote.MembersOf(start.target);
    assert forall g :: g in into ==> into[g].link != start.remote.MembersOf(start.source)[row.handle].link;
  }
}

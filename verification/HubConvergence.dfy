/** Every source holding a shared item reaches its content: the body in one sync, the flags the
  * merge withheld beside it in the next, and then nothing.
  */
module HubConvergence {
  import opened Wrappers
  import opened Text
  import opened Placement
  import opened Change
  import opened Remote
  import opened Join
  import opened MergeRules
  import opened SyncMachine
  import opened Storage
  import opened Acceptance
  import opened Rounds
  import opened OneHandle
  import opened Hub
  import opened HubTurns
  import FlagLaws

  function ListedAs(h: Handle, m: Member): RemoteItem {
    RemoteItem(h, m.flags, m.revision)
  }

  /** The remote sits at the base recorded with it. */
  predicate AtBase(binding: Binding, m: Member) {
    && binding.base.Some?
    && m.flags == binding.base.value.flags && m.body == binding.base.value.body
    && (m.revision.None? || m.revision == binding.base.value.revision)
  }

  /** A shared item there is something to converge to. */
  predicate Shareable(item: HubItem) {
    !item.deleted && item.body.Some? && item.flags.Known?
  }

  /** How many syncs a binding is behind the shared content. */
  function Lag(item: HubItem, binding: Binding): nat
    requires binding.base.Some?
  {
    (if binding.base.value.body != item.body then 1 else 0) + (if binding.base.value.flags != item.flags then 1 else 0)
  }

  /** The base a sync leaves: the body first, the flags once it is there. */
  function NextBase(item: HubItem, base: Base, stamp: Option<Revision>): Base {
    if base.body != item.body then Base(base.flags, stamp, item.body)
    else base.(flags := item.flags)
  }

  lemma BoundFlags(opts: Options, row: Placement, m: Member, allow: PushFlags)
    requires row.base.Some? && row.flags.Known? && m.flags == row.base.value.flags && row.status != Conflict
    requires row.body.Some? && opts.MayFlags()
    requires allow == Withhold <==> row.body != row.base.value.body
    requires row.status == Dirty ==> row.body != row.base.value.body || row.flags != row.base.value.flags
    ensures var e := ReconcileFlags(opts, row, ListedAs(row.handle, m), allow);
            if allow == Withhold || row.flags == m.flags then e == NOTHING
            else e == Pushing(SetFlags(row.handle, row.flags), FlagPush(row))
  {
    FlagLaws.UnchangedSideYields(m.flags, row.flags);
    hide MergeFlags;
    var e := Pushing(SetFlags(row.handle, row.flags), FlagPush(row));
    assert NOTHING.Then(e) == e by {
      assert NOTHING.writes + e.writes == e.writes && NOTHING.events + e.events == e.events;
    }
    assert row.(flags := row.flags) == row;
  }

  lemma BoundContent(coll: CollectionId, opts: Options, row: Placement, m: Member)
    requires row.base.Some? && row.body.Some? && opts.MayContent()
    requires m.revision.None? || m.revision == row.base.value.revision
    requires row.status
             == (if row.body != row.base.value.body || row.flags != row.base.value.flags then Dirty else Clean)
    ensures ReconcileContent(coll, opts, row, ListedAs(row.handle, m))
            == if row.body != row.base.value.body then (PushUpdate(row, row.base.value.revision), ContentOutcome.Pushed)
               else (NOTHING, Untouched)
  {
  }

  /** The change a bound source's sync derives: its body if it is behind, else its flags. */
  function BoundEffect(row: Placement, m: Member): Effect
    requires row.base.Some? && row.body.Some?
  {
    if row.body != row.base.value.body then PushUpdate(row, row.base.value.revision)
    else if row.flags != m.flags then Pushing(SetFlags(row.handle, row.flags), FlagPush(row))
    else NOTHING
  }

  lemma BoundMerge(coll: CollectionId, opts: Options, link: LinkId, item: HubItem, binding: Binding, m: Member)
    requires Shareable(item) && AtBase(binding, m) && !binding.conflicted && opts.MayContent() && opts.MayFlags()
    ensures var row := BoundPlacement(coll, link, item, binding);
            RoundEffect(coll, opts, row, Some(ListedAs(binding.handle, m))) == BoundEffect(row, m)
  {
    var row := BoundPlacement(coll, link, item, binding);
    BoundBoth(coll, opts, row, m);
    hide MergeBoth, BoundEffect, MergeTombstone, PullAdd, MergeRemoteDelete, MergeLocalCreate;
  }

  lemma BoundBoth(coll: CollectionId, opts: Options, row: Placement, m: Member)
    requires row.base.Some? && row.body.Some? && row.flags.Known? && opts.MayContent() && opts.MayFlags()
    requires m.flags == row.base.value.flags && (m.revision.None? || m.revision == row.base.value.revision)
    requires row.status
             == (if row.body != row.base.value.body || row.flags != row.base.value.flags then Dirty else Clean)
    ensures MergeBoth(coll, opts, row, ListedAs(row.handle, m)) == BoundEffect(row, m)
  {
    var edited := row.body != row.base.value.body;
    BoundContent(coll, opts, row, m);
    BoundFlags(opts, row, m, if edited then Withhold else Derive);
    var content, flags := (if edited then PushUpdate(row, row.base.value.revision) else NOTHING),
                          ReconcileFlags(opts, row, ListedAs(row.handle, m), if edited then Withhold else Derive);
    assert MergeBoth(coll, opts, row, ListedAs(row.handle, m)) == content.Then(flags);
    hide MergeBoth, ReconcileContent, ReconcileFlags, PushUpdate, Pushing;
    NothingFirst(content);
    NothingFirst(flags);
  }

  /** One accepted sync of a bound source: the one write it asks for, and what its remote then holds. */
  lemma BoundRound(coll: CollectionId, opts: Options, link: LinkId, item: HubItem, binding: Binding, m: Member,
                   stamp: Option<Revision>)
    requires Shareable(item) && AtBase(binding, m) && !binding.conflicted && opts.MayContent() && opts.MayFlags()
    ensures var row := BoundPlacement(coll, link, item, binding);
            var listed := Some(ListedAs(binding.handle, m));
            var ops := RoundOps(coll, opts, row, listed, stamp);
            var after := ServedMember(Some(m), RoundEffect(coll, opts, row, listed).push, stamp);
            var base := NextBase(item, binding.base.value, stamp);
            if Lag(item, binding) == 0 then ops == [] && after == Some(m)
            else
              && |ops| == 1 && ops[0].UpsertPlacement?
              && ops[0].placement == row.(status := ops[0].placement.status, base := Some(base))
              && (ops[0].placement.status == Clean || ops[0].placement.status == Dirty)
              && after.Some? && AtBase(binding.(base := Some(base)), after.value)
  {
    var row := BoundPlacement(coll, link, item, binding);
    BoundMerge(coll, opts, link, item, binding, m);
    hide RoundEffect;
    var e := BoundEffect(row, m);
    var r := PushResult(row.handle, Accepted, None, stamp);
    if row.body != row.base.value.body {
      var p := NO_PENDINGS.Add(row.handle, ContentPush(row));
      assert RecordOne(coll, p, r).writes == [UpsertPlacement(ContentRebasedRow(row, stamp))];
    } else if row.flags != m.flags {
      var p := NO_PENDINGS.Add(row.handle, FlagPush(row));
      assert RecordOne(coll, p, r).writes == [UpsertPlacement(RebasedRow(row, row.flags))];
    }
    hide RecordOne;
  }

  /** A binding after one sync of its source. */
  function NextBinding(item: HubItem, binding: Binding, stamp: Option<Revision>): Binding
    requires binding.base.Some?
  {
    if Lag(item, binding) == 0 then binding
    else Binding(binding.handle, Some(NextBase(item, binding.base.value, stamp)), false, None, None, item.body)
  }

  /** Absorbing a row that carries the shared content moves its source's binding alone. */
  lemma CarriedUpsert(item: HubItem, source: SourceId, row: Placement, policy: Policy)
    requires Shareable(item) && row.status != Tombstone && row.status != Conflict
    requires row.body == item.body && row.flags == item.flags && row.meta == item.meta && row.sortKey == item.sortKey
    requires row.level == item.level
    ensures UpsertedItem(item, source, row, policy)
            == item.(sources := item.sources[source := Binding(row.handle, row.base, false, None, None, item.body)])
  {
    assert Folded(item, row) == item;
    assert Judge(item, source, row) == Kept;
    hide Judge, Folded;
  }

  predicate Carries(item: HubItem, link: LinkId, row: Placement) {
    && row.linkId == Some(link) && row.status != Tombstone && row.status != Conflict
    && row.body == item.body && row.flags == item.flags && row.meta == item.meta
    && row.sortKey == item.sortKey && row.level == item.level
  }

  /** The row a sync writes carries the shared content; what it moves is the binding. */
  lemma RoundCarries(coll: CollectionId, opts: Options, link: LinkId, item: HubItem, binding: Binding, m: Member,
                     stamp: Option<Revision>)
    requires Shareable(item) && AtBase(binding, m) && !binding.conflicted && opts.MayContent() && opts.MayFlags()
    ensures var row := BoundPlacement(coll, link, item, binding);
            var ops := RoundOps(coll, opts, row, Some(ListedAs(binding.handle, m)), stamp);
            if ops == [] then NextBinding(item, binding, stamp) == binding
            else
              && ops[0].UpsertPlacement? && ops == [UpsertPlacement(ops[0].placement)]
              && Carries(item, link, ops[0].placement) && ops[0].placement.handle == binding.handle
              && NextBinding(item, binding, stamp)
                 == Binding(binding.handle, ops[0].placement.base, false, None, None, item.body)
  {
    BoundRound(coll, opts, link, item, binding, m, stamp);
    hide RoundOps, RoundEffect, ServedMember;
  }

  /** A bound source's sync derives no add. */
  lemma RoundAddsNothing(coll: CollectionId, opts: Options, link: LinkId, item: HubItem, binding: Binding, m: Member)
    requires Shareable(item) && AtBase(binding, m) && !binding.conflicted && opts.MayContent() && opts.MayFlags()
    ensures var push := RoundEffect(coll, opts, BoundPlacement(coll, link, item, binding),
                                    Some(ListedAs(binding.handle, m))).push;
            push.Some? ==> !push.value.kind.Add?
  {
    BoundMerge(coll, opts, link, item, binding, m);
    hide RoundEffect;
  }

  lemma RoundReaches(coll: CollectionId, opts: Options, link: LinkId, item: HubItem, binding: Binding, m: Member,
                     stamp: Option<Revision>)
    requires Shareable(item) && AtBase(binding, m) && !binding.conflicted && opts.MayContent() && opts.MayFlags()
    ensures var next := NextBinding(item, binding, stamp);
            var push := RoundEffect(coll, opts, BoundPlacement(coll, link, item, binding),
                                    Some(ListedAs(binding.handle, m))).push;
            var served := ServedMember(Some(m), push, stamp);
            && next.base.Some? && !next.conflicted && next.handle == binding.handle
            && served.Some? && AtBase(next, served.value)
            && Lag(item, next) == (if Lag(item, binding) == 0 then 0 else Lag(item, binding) - 1)
            && (Lag(item, binding) == 0 ==> served == Some(m))
  {
    BoundRound(coll, opts, link, item, binding, m, stamp);
    hide RoundOps, RoundEffect, ServedMember, BoundPlacement, Shareable;
  }

  lemma BoundOffer(coll: CollectionId, link: LinkId, item: HubItem, source: SourceId)
    requires Shareable(item) && source in item.sources
    ensures Offered(coll, link, item, source) == Some(BoundPlacement(coll, link, item, item.sources[source]))
  {
    hide BoundPlacement;
  }

  /** Absorbing the ops of one round, seen from the item. */
  lemma RoundAbsorbs(item: HubItem, link: LinkId, source: SourceId, ops: seq<WriteOp>, policy: Policy, next: Binding)
    requires Shareable(item) && source in item.sources
    requires if ops == [] then next == item.sources[source]
             else && ops[0].UpsertPlacement? && ops == [UpsertPlacement(ops[0].placement)]
                  && Carries(item, link, ops[0].placement) && ops[0].placement.handle == next.handle
                  && next == Binding(next.handle, ops[0].placement.base, false, None, None, item.body)
    ensures PrunedItem(OnItemAll(Some(item), link, source, Touching(ops, next.handle), policy))
            == Some(item.(sources := item.sources[source := next]))
  {
    if ops == [] {
      assert item.sources[source := next] == item.sources && item.(sources := item.sources) == item;
    } else {
      var row := ops[0].placement;
      assert ops[1..] == [] && Touching(ops, next.handle) == ops;
      CarriedUpsert(item, source, row, policy);
      hide UpsertedItem;
    }
  }

  /** A turn that may push an item's body and flags, and forks nothing onto it. */
  predicate Sharing(turn: Turn, link: LinkId) {
    turn.opts.MayContent() && turn.opts.MayFlags() && Unforked(turn, link)
  }

  /** A source holding a shared item whose server is where its binding left it. */
  ghost predicate Reaches(w: HubWorld, link: LinkId, source: SourceId)
    requires link in w.items
  {
    && source in w.items[link].sources
    && (var binding := w.items[link].sources[source];
        && !binding.conflicted && binding.handle in w.ServerAt(source)
        && AtBase(binding, w.ServerAt(source)[binding.handle]))
  }

  lemma ReachesGives(w: HubWorld, link: LinkId, source: SourceId)
    requires link in w.items && Reaches(w, link, source)
    ensures source in w.items[link].sources
    ensures var binding := w.items[link].sources[source];
            && !binding.conflicted && binding.handle in w.ServerAt(source)
            && AtBase(binding, w.ServerAt(source)[binding.handle]) && binding.base.Some?
            && Listing(binding.handle, MemberAt(w.ServerAt(source), binding.handle))
               == Some(ListedAs(binding.handle, w.ServerAt(source)[binding.handle]))
  {
  }

  /** What a turn does to a shared item its source holds is one round of the row the hub offers. */
  lemma SharedRound(coll: CollectionId, policy: Policy, w: HubWorld, turn: Turn, link: LinkId)
    requires OrderlyWorld(w) && Fair(coll, w, turn) && Sharing(turn, link)
    requires link in w.items && Shareable(w.items[link]) && Reaches(w, link, turn.source)
    ensures turn.source in w.items[link].sources
    ensures var binding := w.items[link].sources[turn.source];
            var h := binding.handle;
            h in w.ServerAt(turn.source) &&
            var m := w.ServerAt(turn.source)[h];
            var row := BoundPlacement(coll, link, w.items[link], binding);
            var listed := Some(ListedAs(h, m));
            var t := Taken(coll, policy, w, turn);
            && ItemOf(t.items, link)
               == PrunedItem(OnItemAll(Some(w.items[link]), link, turn.source,
                                       Touching(RoundOps(coll, turn.opts, row, listed, turn.mint.stamp(h)), h), policy))
            && MemberAt(t.ServerAt(turn.source), h)
               == ServedMember(Some(m), RoundEffect(coll, turn.opts, row, listed).push, turn.mint.stamp(h))
  {
    assert turn.opts.MayContent() && turn.opts.MayFlags() && Unforked(turn, link);
    hide *;
    ReachesGives(w, link, turn.source);
    SharedAddsNothing(coll, turn.opts, w, link, turn.source);
    BoundOffer(coll, link, w.items[link], turn.source);
    HeldTurn(coll, policy, w, turn, link);
    MemberThere(w.ServerAt(turn.source), w.items[link].sources[turn.source].handle);
  }

  lemma MemberThere(server: Server, h: Handle)
    requires h in server
    ensures MemberAt(server, h) == Some(server[h])
  {
  }

  lemma ReachesNow(t: HubWorld, link: LinkId, source: SourceId, next: Binding, m: Option<Member>)
    requires link in t.items && source in t.items[link].sources && t.items[link].sources[source] == next
    requires !next.conflicted && MemberAt(t.ServerAt(source), next.handle) == m && m.Some? && AtBase(next, m.value)
    ensures Reaches(t, link, source)
  {
  }

  lemma ItemIs(items: Items, link: LinkId, item: HubItem)
    requires ItemOf(items, link) == Some(item)
    ensures link in items && items[link] == item
  {
  }

  /** A source's whole sync moves its own binding one step nearer the shared content, and its server with
    * it; nothing else of the item moves. */
  lemma SharedTurn(coll: CollectionId, policy: Policy, w: HubWorld, turn: Turn, link: LinkId)
    requires OrderlyWorld(w) && Fair(coll, w, turn) && Sharing(turn, link)
    requires link in w.items && Shareable(w.items[link]) && Reaches(w, link, turn.source)
    ensures var item := w.items[link];
            turn.source in item.sources &&
            var binding := item.sources[turn.source];
            binding.base.Some? &&
            var next := NextBinding(item, binding, turn.mint.stamp(binding.handle));
            var t := Taken(coll, policy, w, turn);
            && ItemOf(t.items, link) == Some(item.(sources := item.sources[turn.source := next]))
            && link in t.items && Reaches(t, link, turn.source)
            && next.base.Some? && next.handle == binding.handle
            && Lag(item, next) == (if Lag(item, binding) == 0 then 0 else Lag(item, binding) - 1)
            && (Lag(item, binding) == 0 ==>
                  next == binding
                  && MemberAt(t.ServerAt(turn.source), binding.handle)
                     == MemberAt(w.ServerAt(turn.source), binding.handle))
  {
    assert turn.opts.MayContent() && turn.opts.MayFlags() && Unforked(turn, link);
    hide *;
    var item, source := w.items[link], turn.source;
    ReachesGives(w, link, source);
    var binding := item.sources[source];
    var h := binding.handle;
    var m := w.ServerAt(source)[h];
    var stamp := turn.mint.stamp(h);
    var t := Taken(coll, policy, w, turn);
    SharedRound(coll, policy, w, turn, link);
    RoundCarries(coll, turn.opts, link, item, binding, m, stamp);
    RoundReaches(coll, turn.opts, link, item, binding, m, stamp);
    var next := NextBinding(item, binding, stamp);
    var row := BoundPlacement(coll, link, item, binding);
    RoundAbsorbs(item, link, source, RoundOps(coll, turn.opts, row, Some(ListedAs(h, m)), stamp), policy, next);
    MemberThere(w.ServerAt(source), h);
    ItemIs(t.items, link, item.(sources := item.sources[source := next]));
    ReachesNow(t, link, source, next, MemberAt(t.ServerAt(source), h));
    if Lag(item, binding) == 0 { ArrivedStays(item, binding, stamp); }
  }

  lemma ArrivedStays(item: HubItem, binding: Binding, stamp: Option<Revision>)
    requires binding.base.Some? && Lag(item, binding) == 0
    ensures NextBinding(item, binding, stamp) == binding
  {
  }

  lemma SharedAddsNothing(coll: CollectionId, opts: Options, w: HubWorld, link: LinkId, source: SourceId)
    requires OrderlyWorld(w) && opts.MayContent() && opts.MayFlags()
    requires link in w.items && Shareable(w.items[link]) && Reaches(w, link, source)
    ensures !AddsAt(coll, opts, Shelf(coll, w.items, source), w.ServerAt(source), w.items[link].sources[source].handle)
  {
    var item := w.items[link];
    var binding := item.sources[source];
    var h := binding.handle;
    var store, server := Shelf(coll, w.items, source), w.ServerAt(source);
    BoundOffer(coll, link, item, source);
    ShelfHolds(coll, w.items, source, link);
    RoundAddsNothing(coll, opts, link, item, binding, server[h]);
    assert store[h] == BoundPlacement(coll, link, item, binding) && store[h].handle == h;
    EffectIsRound(coll, opts, store, server, h);
    hide Shelf, EffectOf, RoundEffect, BoundPlacement;
  }

  /** A shared item, and sources of it that may take turns: the others need not be anywhere near. */
  ghost predicate InReach(w: HubWorld, link: LinkId, sources: set<SourceId>) {
    && OrderlyWorld(w) && link in w.items && Shareable(w.items[link])
    && (forall s :: s in sources ==> Reaches(w, link, s))
  }

  /** How far behind the shared content a source is left by `n` syncs. */
  function Behind(lag: nat, n: nat): nat {
    if n < lag then lag - n else 0
  }

  ghost function TurnsOf(turns: seq<Turn>, source: SourceId): nat {
    if turns == [] then 0 else (if turns[0].source == source then 1 else 0) + TurnsOf(turns[1..], source)
  }

  /** A source brought `n` steps nearer the shared content, and nothing shared moved. */
  ghost predicate Nearer(a: HubWorld, b: HubWorld, link: LinkId, source: SourceId, n: nat) {
    && link in a.items && link in b.items
    && b.items[link] == a.items[link].(sources := b.items[link].sources)
    && source in a.items[link].sources && source in b.items[link].sources
    && (var was, now := a.items[link].sources[source], b.items[link].sources[source];
        && was.base.Some? && now.base.Some? && now.handle == was.handle
        && Lag(b.items[link], now) == Behind(Lag(a.items[link], was), n)
        && (n == 0 || Lag(a.items[link], was) == 0 ==>
              now == was && MemberAt(b.ServerAt(source), was.handle) == MemberAt(a.ServerAt(source), was.handle)))
  }

  lemma NearerStill(a: HubWorld, b: HubWorld, c: HubWorld, link: LinkId, source: SourceId, m: nat, n: nat)
    requires Nearer(a, b, link, source, m) && Nearer(b, c, link, source, n)
    ensures Nearer(a, c, link, source, m + n)
  {
  }

  lemma StaysPut(w: HubWorld, link: LinkId, source: SourceId)
    requires link in w.items && Reaches(w, link, source)
    ensures Nearer(w, w, link, source, 0)
  {
    assert w.items[link].(sources := w.items[link].sources) == w.items[link];
  }

  lemma TurnBringsNearer(coll: CollectionId, policy: Policy, w: HubWorld, link: LinkId, turn: Turn,
                         sources: set<SourceId>, source: SourceId)
    requires InReach(w, link, sources) && Fair(coll, w, turn)
    requires Sharing(turn, link)
    requires turn.source in sources && source in sources
    ensures var t := Taken(coll, policy, w, turn);
            InReach(t, link, sources) && Nearer(w, t, link, source, if turn.source == source then 1 else 0)
  {
    var t := Taken(coll, policy, w, turn);
    var item := w.items[link];
    var binding := item.sources[turn.source];
    var next := NextBinding(item, binding, turn.mint.stamp(binding.handle));
    assert forall s :: s in sources ==> Reaches(w, link, s);
    hide Taken, Fair, OrderlyWorld, NextBinding, Reaches, Shareable, Nearer;
    SharedTurn(coll, policy, w, turn, link);
    TurnKeepsOrder(coll, policy, w, turn);
    OwnNearer(w, t, link, turn.source, next);
    forall s | s in sources ensures Reaches(t, link, s) && (s != turn.source ==> Nearer(w, t, link, s, 0)) {
      if s != turn.source {
        OthersServers(coll, policy, w, turn, s);
        OthersStay(w, t, link, turn.source, next, s);
      }
    }
    SharedStays(item, turn.source, next);
  }

  lemma SharedStays(item: HubItem, source: SourceId, next: Binding)
    requires Shareable(item)
    ensures Shareable(item.(sources := item.sources[source := next]))
  {
  }

  lemma OwnNearer(w: HubWorld, t: HubWorld, link: LinkId, source: SourceId, next: Binding)
    requires link in w.items && Reaches(w, link, source) && link in t.items && Reaches(t, link, source)
    requires t.items[link] == w.items[link].(sources := w.items[link].sources[source := next])
    requires var item := w.items[link];
             var binding := item.sources[source];
             && next.base.Some? && next.handle == binding.handle
             && Lag(item, next) == (if Lag(item, binding) == 0 then 0 else Lag(item, binding) - 1)
             && (Lag(item, binding) == 0 ==>
                   && next == binding
                   && MemberAt(t.ServerAt(source), binding.handle) == MemberAt(w.ServerAt(source), binding.handle))
    ensures Nearer(w, t, link, source, 1)
  {
  }

  lemma OthersStay(w: HubWorld, t: HubWorld, link: LinkId, source: SourceId, next: Binding, s: SourceId)
    requires link in w.items && Reaches(w, link, s) && s != source && t.ServerAt(s) == w.ServerAt(s)
    requires link in t.items && t.items[link] == w.items[link].(sources := w.items[link].sources[source := next])
    ensures Reaches(t, link, s) && Nearer(w, t, link, s, 0)
  {
  }

  lemma {:induction false} TurnsBringNearer(coll: CollectionId, policy: Policy, w: HubWorld,
                                            link: LinkId, turns: seq<Turn>, sources: set<SourceId>, source: SourceId)
    requires InReach(w, link, sources) && FairAll(coll, policy, w, turns)
    requires forall turn :: turn in turns ==> Sharing(turn, link)
    requires source in sources && forall turn :: turn in turns ==> turn.source in sources
    ensures var t := TakenAll(coll, policy, w, turns);
            InReach(t, link, sources) && Nearer(w, t, link, source, TurnsOf(turns, source))
    decreases |turns|
  {
    hide *;
    ReachHas(w, link, sources, source);
    if |turns| == 0 {
      NoTurns(coll, policy, w, turns);
      NoneOf(turns, source);
      StaysPut(w, link, source);
    } else {
      var first := if turns[0].source == source then 1 else 0;
      FirstOf(turns, sources, source);
      var next := Taken(coll, policy, w, turns[0]);
      TurnsUnfold(coll, policy, w, turns);
      TurnBringsNearer(coll, policy, w, link, turns[0], sources, source);
      TurnsBringNearer(coll, policy, next, link, turns[1..], sources, source);
      NearerStill(w, next, TakenAll(coll, policy, next, turns[1..]), link, source, first,
                  TurnsOf(turns[1..], source));
    }
  }

  lemma ReachHas(w: HubWorld, link: LinkId, sources: set<SourceId>, source: SourceId)
    requires InReach(w, link, sources) && source in sources
    ensures link in w.items && Reaches(w, link, source)
  {
  }

  lemma NoneOf(turns: seq<Turn>, source: SourceId)
    requires |turns| == 0
    ensures TurnsOf(turns, source) == 0
  {
  }

  lemma FirstOf(turns: seq<Turn>, sources: set<SourceId>, source: SourceId)
    requires |turns| > 0 && forall turn :: turn in turns ==> turn.source in sources
    ensures turns[0].source in sources && forall turn :: turn in turns[1..] ==> turn.source in sources
    ensures TurnsOf(turns, source) == (if turns[0].source == source then 1 else 0) + TurnsOf(turns[1..], source)
  {
    assert turns[0] in turns && forall turn :: turn in turns[1..] ==> turn in turns;
  }

  /** Over any interleaving of its holders' whole syncs, each of everything its hub offers it, the shared
    * content of an item never moves; each source is brought one step nearer it by its own turns and by no
    * other's, so two turns bring it and its server to the shared body and flags. */
  lemma HoldersArrive(coll: CollectionId, policy: Policy, w: HubWorld, link: LinkId, turns: seq<Turn>,
                      sources: set<SourceId>, source: SourceId)
    requires InReach(w, link, sources) && FairAll(coll, policy, w, turns)
    requires forall turn :: turn in turns ==> Sharing(turn, link)
    requires source in sources && forall turn :: turn in turns ==> turn.source in sources
    ensures var t := TakenAll(coll, policy, w, turns);
            && InReach(t, link, sources) && Nearer(w, t, link, source, TurnsOf(turns, source))
            && (TurnsOf(turns, source) >= 2 ==>
                  && Lag(t.items[link], t.items[link].sources[source]) == 0
                  && (var m := t.ServerAt(source)[t.items[link].sources[source].handle];
                      m.body == w.items[link].body && m.flags == w.items[link].flags))
  {
    TurnsBringNearer(coll, policy, w, link, turns, sources, source);
    var t := TakenAll(coll, policy, w, turns);
    assert Reaches(t, link, source);
    hide TakenAll, FairAll, OrderlyWorld, TurnsOf;
  }

  /** A source already at the shared content syncs it to no effect: on the hub, on its server, and in what
    * its own row's round writes. */
  lemma ArrivedIsIdle(coll: CollectionId, policy: Policy, w: HubWorld, turn: Turn, link: LinkId)
    requires InReach(w, link, {turn.source}) && Fair(coll, w, turn)
    requires Sharing(turn, link)
    requires turn.source in w.items[link].sources && w.items[link].sources[turn.source].base.Some?
    requires Lag(w.items[link], w.items[link].sources[turn.source]) == 0
    ensures var t := Taken(coll, policy, w, turn);
            var h := w.items[link].sources[turn.source].handle;
            && ItemOf(t.items, link) == Some(w.items[link])
            && MemberAt(t.ServerAt(turn.source), h) == MemberAt(w.ServerAt(turn.source), h)
            && RoundOps(coll, turn.opts, BoundPlacement(coll, link, w.items[link], w.items[link].sources[turn.source]),
                        Listing(h, MemberAt(w.ServerAt(turn.source), h)), turn.mint.stamp(h)) == []
  {
    ReachIsShared(w, link, {turn.source});
    ReachHas(w, link, {turn.source}, turn.source);
    assert turn.opts.MayContent() && turn.opts.MayFlags();
    hide *;
    ArrivedRound(coll, turn.opts, w, link, turn.source, turn.mint.stamp(w.items[link].sources[turn.source].handle));
    ArrivedTurn(coll, policy, w, turn, link);
  }

  lemma ArrivedRound(coll: CollectionId, opts: Options, w: HubWorld, link: LinkId, source: SourceId,
                     stamp: Option<Revision>)
    requires link in w.items && Shareable(w.items[link]) && Reaches(w, link, source)
    requires opts.MayContent() && opts.MayFlags()
    requires source in w.items[link].sources && w.items[link].sources[source].base.Some?
    requires Lag(w.items[link], w.items[link].sources[source]) == 0
    ensures var binding := w.items[link].sources[source];
            RoundOps(coll, opts, BoundPlacement(coll, link, w.items[link], binding),
                     Listing(binding.handle, MemberAt(w.ServerAt(source), binding.handle)), stamp) == []
  {
    ReachesGives(w, link, source);
    var binding := w.items[link].sources[source];
    var m := w.ServerAt(source)[binding.handle];
    assert Listing(binding.handle, MemberAt(w.ServerAt(source), binding.handle)) == Some(ListedAs(binding.handle, m));
    hide RoundOps, BoundPlacement, ServedMember, Lag, Reaches, AtBase;
    BoundRound(coll, opts, link, w.items[link], binding, m, stamp);
  }

  lemma ArrivedTurn(coll: CollectionId, policy: Policy, w: HubWorld, turn: Turn, link: LinkId)
    requires OrderlyWorld(w) && Fair(coll, w, turn) && Sharing(turn, link)
    requires link in w.items && Shareable(w.items[link]) && Reaches(w, link, turn.source)
    requires turn.source in w.items[link].sources && w.items[link].sources[turn.source].base.Some?
    requires Lag(w.items[link], w.items[link].sources[turn.source]) == 0
    ensures var t := Taken(coll, policy, w, turn);
            var h := w.items[link].sources[turn.source].handle;
            && ItemOf(t.items, link) == Some(w.items[link])
            && MemberAt(t.ServerAt(turn.source), h) == MemberAt(w.ServerAt(turn.source), h)
  {
    hide *;
    var item := w.items[link];
    var binding := item.sources[turn.source];
    SharedTurn(coll, policy, w, turn, link);
    ArrivedStays(item, binding, turn.mint.stamp(binding.handle));
    assert item.sources[turn.source := binding] == item.sources && item.(sources := item.sources) == item;
  }

  lemma ReachIsShared(w: HubWorld, link: LinkId, sources: set<SourceId>)
    requires InReach(w, link, sources)
    ensures OrderlyWorld(w) && link in w.items && Shareable(w.items[link])
  {
  }
}

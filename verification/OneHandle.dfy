/** What an accepted run does about one handle is that handle's own round, op by op: no batch, no
  * chunk and no other row plays a part in it.
  */
module OneHandle {
  import opened Wrappers
  import opened Placement
  import opened Change
  import opened Remote
  import opened Join
  import opened JoinLaws
  import opened MergeRules
  import opened SyncMachine
  import opened SyncInvariants
  import opened SyncRuns
  import opened DeltaSync
  import opened Storage
  import opened NoLoss
  import opened Acceptance
  import opened Rounds

  /** Candidates still to take; a handle is alone if none but its own writes it. */
  ghost predicate Untaken(s: SyncState, cs: seq<Candidate>, h: Handle, alone: bool) {
    && Ascending(cs)
    && Distinct(Handles(s.pushes))
    && (forall c :: c in cs ==> Paired(c) && c.handle !in s.pendings.Domain() && PushAt(s.pushes, c.handle) == None)
    && (alone ==> forall c :: c in cs && c.handle != h ==> Touching(MergeOne(s.collection, s.opts, c).writes, h) == [])
  }

  /** What a merge owes for one handle, and writes if it is alone, is what one effect does. */
  ghost predicate LeavesAt(s: SyncState, t: SyncState, e: Effect, h: Handle, alone: bool) {
    && (alone ==> Touching(t.writes, h) == Touching(s.writes, h) + Touching(e.writes, h))
    && OwedAt(t.pendings, h) == OwedAt(if e.push.Some? then s.pendings.Add(h, e.push.value.pending) else s.pendings, h)
    && PushAt(t.pushes, h) == (if e.push.Some? then Some(e.push.value.kind) else PushAt(s.pushes, h))
  }

  lemma {:induction false} PushAtAppend(ks: seq<ChangeKind>, k: ChangeKind, h: Handle)
    ensures PushAt(ks + [k], h)
            == if PushAt(ks, h).Some? then PushAt(ks, h) else if k.handle == h then Some(k) else None
  {
    if ks == [] {
      assert ks + [k] == [k];
    } else {
      assert (ks + [k])[1..] == ks[1..] + [k];
      PushAtAppend(ks[1..], k, h);
    }
  }

  lemma AddOwes(p: Pendings, g: Handle, pending: Pending, h: Handle)
    ensures p.Add(g, pending).Domain() == p.Domain() + {g}
    ensures g != h ==> OwedAt(p.Add(g, pending), h) == OwedAt(p, h)
  {
    AddElsewhere(p, g, pending, h, Hash([]));
  }

  lemma TakesOne(s: SyncState, cs: seq<Candidate>, h: Handle, alone: bool)
    requires Untaken(s, cs, h, alone) && cs != []
    ensures var e := MergeOne(s.collection, s.opts, cs[0]);
            && Untaken(Absorb(s, e), cs[1..], h, alone)
            && LeavesAt(s, Absorb(s, e), if cs[0].handle == h then e else NOTHING, h, alone)
  {
    var c := cs[0];
    assert c in cs;
    var e := MergeOne(s.collection, s.opts, c);
    EffectShape(s.collection, s.opts, c);
    LeavesOthers(s, cs, e);
    LeavesOne(s, c, e, h, alone);
    hide MergeOne, Matched, LeavesAt, Absorb;
    AbsorbKeepsOptions(s, e);
  }

  lemma AbsorbKeepsOptions(s: SyncState, e: Effect)
    ensures Absorb(s, e).collection == s.collection && Absorb(s, e).opts == s.opts
  {
  }

  /** The effect of one candidate is all its handle sees of it, and all another does not. */
  lemma LeavesOne(s: SyncState, c: Candidate, e: Effect, h: Handle, alone: bool)
    requires PushAt(s.pushes, c.handle) == None
    requires e.push.Some? ==> e.push.value.kind.handle == c.handle
    requires alone && c.handle != h ==> Touching(e.writes, h) == []
    ensures LeavesAt(s, Absorb(s, e), if c.handle == h then e else NOTHING, h, alone)
  {
    TouchingConcat(s.writes, e.writes, h);
    if e.push.Some? {
      PushAtAppend(s.pushes, e.push.value.kind, h);
      AddOwes(s.pendings, c.handle, e.push.value.pending, h);
    }
  }

  /** The candidates after it are as untaken as they were. */
  lemma LeavesOthers(s: SyncState, cs: seq<Candidate>, e: Effect)
    requires cs != [] && Ascending(cs) && Distinct(Handles(s.pushes))
    requires forall c :: c in cs ==> c.handle !in s.pendings.Domain() && PushAt(s.pushes, c.handle) == None
    requires e.push.Some? ==> e.push.value.kind.handle == cs[0].handle
    ensures var t := Absorb(s, e);
            && Ascending(cs[1..]) && Distinct(Handles(t.pushes))
            && (forall c :: c in cs[1..] ==>
                  c in cs && c.handle !in t.pendings.Domain() && PushAt(t.pushes, c.handle) == None)
  {
    var t := Absorb(s, e);
    assert cs[0] in cs;
    if e.push.Some? {
      var k := e.push.value.kind;
      assert Handles(s.pushes + [k]) == Handles(s.pushes) + [k.handle];
    }
    forall d | d in cs[1..]
      ensures d in cs && d.handle !in t.pendings.Domain() && PushAt(t.pushes, d.handle) == None
    {
      LessIrreflexive(cs[0].handle);
      if e.push.Some? {
        PushAtAppend(s.pushes, e.push.value.kind, d.handle);
        AddOwes(s.pendings, cs[0].handle, e.push.value.pending, d.handle);
      }
    }
  }

  lemma {:induction false} MergeLeavesAt(s: SyncState, cs: seq<Candidate>, h: Handle, alone: bool)
    requires Untaken(s, cs, h, alone)
    ensures LeavesAt(s, AbsorbAll(s, cs), EffectAt(s.collection, s.opts, cs, h), h, alone)
    ensures Distinct(Handles(AbsorbAll(s, cs).pushes))
    decreases |cs|
  {
    if cs != [] {
      var e := MergeOne(s.collection, s.opts, cs[0]);
      var t := Absorb(s, e);
      assert t.collection == s.collection && t.opts == s.opts;
      TakesOne(s, cs, h, alone);
      HeadLeavesRest(cs, h);
      hide Untaken, MergeOne;
      MergeLeavesAt(t, cs[1..], h, alone);
      assert AbsorbAll(s, cs) == AbsorbAll(t, cs[1..]);
      hide LeavesAt, AbsorbAll;
      if cs[0].handle == h {
        LeavesThenIdles(s, t, AbsorbAll(s, cs), e, h, alone);
      } else {
        IdlesThenLeaves(s, t, AbsorbAll(s, cs), EffectAt(s.collection, s.opts, cs, h), h, alone);
      }
    }
  }

  lemma LeavesThenIdles(s: SyncState, t: SyncState, u: SyncState, e: Effect, h: Handle, alone: bool)
    requires LeavesAt(s, t, e, h, alone) && LeavesAt(t, u, NOTHING, h, alone)
    ensures LeavesAt(s, u, e, h, alone)
  {
  }

  lemma IdlesThenLeaves(s: SyncState, t: SyncState, u: SyncState, e: Effect, h: Handle, alone: bool)
    requires LeavesAt(s, t, NOTHING, h, alone) && LeavesAt(t, u, e, h, alone)
    ensures LeavesAt(s, u, e, h, alone)
  {
    OwesAfterAdd(t.pendings, s.pendings, e, h);
  }

  lemma OwesAfterAdd(p: Pendings, q: Pendings, e: Effect, h: Handle)
    requires OwedAt(p, h) == OwedAt(q, h)
    ensures e.push.Some? ==> OwedAt(p.Add(h, e.push.value.pending), h) == OwedAt(q.Add(h, e.push.value.pending), h)
  {
    if e.push.Some? {
      match e.push.value.pending {
        case FlagPush(_) =>
        case ContentPush(_) =>
        case DropPush =>
        case CreatePush(_) =>
      }
    }
  }

  /** What a run on a complete snapshot does about one handle. */
  function EffectOf(coll: CollectionId, opts: Options, store: Rows, server: Server, h: Handle): Effect {
    MergeOne(coll, opts, Candidate(h, At(store, h), Listing(h, MemberAt(server, h))))
  }

  /** No other handle's merge writes this one's row. */
  ghost predicate Alone(coll: CollectionId, opts: Options, store: Rows, server: Server, h: Handle) {
    forall g :: g != h ==> Touching(EffectOf(coll, opts, store, server, g).writes, h) == []
  }

  /** Only a fork could: so none does where no other row's body forks to the handle. */
  lemma UnforkedIsAlone(coll: CollectionId, opts: Options, store: Rows, server: Server, h: Handle)
    requires forall g :: g in store ==> store[g].handle == g
    requires opts.conflict == KeepBoth ==>
               forall g :: g in store && g in server && g != h && store[g].body.Some? ==>
                 DupHandle(g, store[g].body.value) != h
    ensures Alone(coll, opts, store, server, h)
  {
    forall g | g != h ensures Touching(EffectOf(coll, opts, store, server, g).writes, h) == [] {
      var c := Candidate(g, At(store, g), Listing(g, MemberAt(server, g)));
      MergeOneWithin(coll, opts, c);
      UnlistedWithin(coll, opts, c);
      hide MergeOne;
      TouchingNone(MergeOne(coll, opts, c).writes, if g in server then OwnKeys(opts, c) else {g}, h);
    }
  }

  lemma UnlistedWithin(coll: CollectionId, opts: Options, c: Candidate)
    requires Paired(c)
    ensures c.remote.None? ==> Within(MergeOne(coll, opts, c).writes, {c.handle})
  {
    hide MergeBoth, MergeTombstone;
  }

  ghost predicate AddsAt(coll: CollectionId, opts: Options, store: Rows, server: Server, h: Handle) {
    var e := EffectOf(coll, opts, store, server, h);
    e.push.Some? && e.push.value.kind.Add?
  }

  /** No create is assigned a handle. */
  ghost predicate Unminted(coll: CollectionId, opts: Options, store: Rows, server: Server, mint: Mint, h: Handle) {
    forall g :: AddsAt(coll, opts, store, server, g) ==> !mint.Names(g, h)
  }

  lemma FullCandidate(coll: CollectionId, opts: Options, listing: seq<Placement>, store: Rows,
                      cursor: Option<Checkpoint>, snapshot: Snapshot, server: Server, h: Handle)
    requires Lists(listing, store) && Shows(snapshot, server)
    ensures var cs := Todo(Opened(coll, opts, listing, cursor, snapshot).merging.value);
            && Ascending(cs)
            && CandidateAt(cs, h)
               == (if h in store || h in server
                   then Some(Candidate(h, At(store, h), Listing(h, MemberAt(server, h)))) else None)
            && (h in store ==> store[h].handle == h)
  {
    var merge := Opened(coll, opts, listing, cursor, snapshot).merging.value;
    assert merge.join == Join(Collect(listing), Normalise(snapshot.items)) && merge.complete;
    CollectIsOrderedMap(listing, h);
    NormaliseIsOrderedMap(snapshot.items, h);
    hide Opened, Collect, Normalise, Todo;
    TodoIsPaired(merge, h);
    assert RowAt(listing, h) == At(store, h);
    assert ItemAt(snapshot.items, h) == Listing(h, MemberAt(server, h));
  }

  lemma FullEffect(coll: CollectionId, opts: Options, listing: seq<Placement>, store: Rows, cursor: Option<Checkpoint>,
                   snapshot: Snapshot, server: Server, h: Handle)
    requires Lists(listing, store) && Shows(snapshot, server)
    ensures var cs := Todo(Opened(coll, opts, listing, cursor, snapshot).merging.value);
            EffectAt(coll, opts, cs, h) == EffectOf(coll, opts, store, server, h)
  {
    FullCandidate(coll, opts, listing, store, cursor, snapshot, server, h);
    hide Todo, Opened, MergeTombstone, MergeBoth, MergeRemoteDelete, MergeLocalCreate, PullAdd;
  }

  /** A candidate is merged as its handle is. */
  lemma CandidateIsFull(coll: CollectionId, opts: Options, listing: seq<Placement>, store: Rows,
                        cursor: Option<Checkpoint>, snapshot: Snapshot, server: Server, c: Candidate)
    requires Lists(listing, store) && Shows(snapshot, server)
    requires c in Todo(Opened(coll, opts, listing, cursor, snapshot).merging.value)
    ensures Paired(c) && MergeOne(coll, opts, c) == EffectOf(coll, opts, store, server, c.handle)
  {
    FullCandidate(coll, opts, listing, store, cursor, snapshot, server, c.handle);
    hide Todo, Opened, Shows, Lists, MergeOne;
    InAscending(Todo(Opened(coll, opts, listing, cursor, snapshot).merging.value), c);
  }

  lemma OpenedIsUntaken(coll: CollectionId, opts: Options, listing: seq<Placement>, store: Rows,
                        cursor: Option<Checkpoint>, snapshot: Snapshot, server: Server, h: Handle, alone: bool)
    requires Lists(listing, store) && Shows(snapshot, server) && (alone ==> Alone(coll, opts, store, server, h))
    ensures var s := Opened(coll, opts, listing, cursor, snapshot); Untaken(s, Todo(s.merging.value), h, alone)
  {
    var s := Opened(coll, opts, listing, cursor, snapshot);
    var cs := Todo(s.merging.value);
    FullCandidate(coll, opts, listing, store, cursor, snapshot, server, Handle([]));
    assert s.collection == coll && s.opts == opts && s.pushes == [] && s.pendings == NO_PENDINGS;
    hide MergeOne, Todo, Opened, Shows, Lists, EffectOf, Touching;
    forall c | c in cs
      ensures Paired(c) && (alone && c.handle != h ==> Touching(MergeOne(coll, opts, c).writes, h) == [])
    {
      CandidateIsFull(coll, opts, listing, store, cursor, snapshot, server, c);
    }
  }

  /** What the merge of a full run owes for each handle, and writes of one that is alone. */
  lemma MergedLeavesIf(coll: CollectionId, opts: Options, listing: seq<Placement>, store: Rows,
                       cursor: Option<Checkpoint>, snapshot: Snapshot, server: Server, h: Handle, alone: bool)
    requires Lists(listing, store) && Shows(snapshot, server) && (alone ==> Alone(coll, opts, store, server, h))
    ensures var t := Merged(coll, opts, listing, cursor, snapshot);
            var e := EffectOf(coll, opts, store, server, h);
            && Distinct(Handles(t.pushes))
            && (alone ==> Touching(t.writes, h) == Touching(e.writes, h))
            && PushAt(t.pushes, h) == (if e.push.Some? then Some(e.push.value.kind) else None)
            && OwedAt(t.pendings, h)
               == OwedAt(if e.push.Some? then NO_PENDINGS.Add(h, e.push.value.pending) else NO_PENDINGS, h)
  {
    var s := Opened(coll, opts, listing, cursor, snapshot);
    OpenedIsUntaken(coll, opts, listing, store, cursor, snapshot, server, h, alone);
    FullEffect(coll, opts, listing, store, cursor, snapshot, server, h);
    assert s.writes == [] && s.pushes == [] && s.pendings == NO_PENDINGS && s.opts == opts && s.collection == coll;
    hide Opened, Todo, Untaken, AbsorbAll, EffectOf, EffectAt;
    MergeLeavesAt(s, Todo(s.merging.value), h, alone);
  }

  lemma MergedLeaves(coll: CollectionId, opts: Options, listing: seq<Placement>, store: Rows,
                     cursor: Option<Checkpoint>, snapshot: Snapshot, server: Server, h: Handle)
    requires Lists(listing, store) && Shows(snapshot, server) && Alone(coll, opts, store, server, h)
    ensures var t := Merged(coll, opts, listing, cursor, snapshot);
            var e := EffectOf(coll, opts, store, server, h);
            && Distinct(Handles(t.pushes))
            && Touching(t.writes, h) == Touching(e.writes, h)
            && PushAt(t.pushes, h) == (if e.push.Some? then Some(e.push.value.kind) else None)
            && OwedAt(t.pendings, h)
               == OwedAt(if e.push.Some? then NO_PENDINGS.Add(h, e.push.value.pending) else NO_PENDINGS, h)
  {
    hide *;
    MergedLeavesIf(coll, opts, listing, store, cursor, snapshot, server, h, true);
  }

  /** Whoever else writes a handle, the change pushed of it is its own merge's. */
  lemma MergedOwes(coll: CollectionId, opts: Options, listing: seq<Placement>, store: Rows,
                   cursor: Option<Checkpoint>, snapshot: Snapshot, server: Server, h: Handle)
    requires Lists(listing, store) && Shows(snapshot, server)
    ensures var t := Merged(coll, opts, listing, cursor, snapshot);
            var e := EffectOf(coll, opts, store, server, h);
            && Distinct(Handles(t.pushes))
            && PushAt(t.pushes, h) == (if e.push.Some? then Some(e.push.value.kind) else None)
            && OwedAt(t.pendings, h)
               == OwedAt(if e.push.Some? then NO_PENDINGS.Add(h, e.push.value.pending) else NO_PENDINGS, h)
  {
    hide *;
    MergedLeavesIf(coll, opts, listing, store, cursor, snapshot, server, h, false);
  }

  lemma MergedIsKeyed(coll: CollectionId, opts: Options, listing: seq<Placement>, store: Rows,
                      cursor: Option<Checkpoint>, snapshot: Snapshot, server: Server)
    requires Lists(listing, store) && Shows(snapshot, server)
    ensures var t := Merged(coll, opts, listing, cursor, snapshot); Keyed(t.pendings) && Separate(t.pendings)
  {
    var s := Opened(coll, opts, listing, cursor, snapshot);
    var cs := Todo(s.merging.value);
    assert s.pendings == NO_PENDINGS;
    FullCandidate(coll, opts, listing, store, cursor, snapshot, server, Handle([]));
    forall c | c in cs ensures Paired(c) {
      CandidateIsFull(coll, opts, listing, store, cursor, snapshot, server, c);
    }
    hide Opened, Todo, AbsorbAll, MergeOne, Paired;
    MergeKeepsKeyed(s, cs);
    MergeStaysSeparate(s, cs);
  }

  /** Each change of a full run is the one its handle's merge derives. */
  lemma PushIsOwn(coll: CollectionId, opts: Options, listing: seq<Placement>, store: Rows, cursor: Option<Checkpoint>,
                  snapshot: Snapshot, server: Server, k: ChangeKind)
    requires Lists(listing, store) && Shows(snapshot, server)
    requires k in Merged(coll, opts, listing, cursor, snapshot).pushes
    ensures var e := EffectOf(coll, opts, store, server, k.handle); e.push.Some? && e.push.value.kind == k
  {
    var s := Opened(coll, opts, listing, cursor, snapshot);
    var cs := Todo(s.merging.value);
    assert s.pushes == [] && s.opts == opts && s.collection == coll;
    FullCandidate(coll, opts, listing, store, cursor, snapshot, server, Handle([]));
    hide Opened, Todo, AbsorbAll, MergeOne;
    var c := DerivedBy(s, cs, k);
    FullCandidate(coll, opts, listing, store, cursor, snapshot, server, c.handle);
    InAscending(cs, c);
    EffectShape(coll, opts, c);
  }

  lemma {:induction false} DerivedBy(s: SyncState, cs: seq<Candidate>, k: ChangeKind) returns (c: Candidate)
    requires k in AbsorbAll(s, cs).pushes && k !in s.pushes
    ensures c in cs
    ensures var e := MergeOne(s.collection, s.opts, c); e.push.Some? && e.push.value.kind == k
    decreases |cs|
  {
    hide MergeOne;
    var e := MergeOne(s.collection, s.opts, cs[0]);
    var t := Absorb(s, e);
    assert t.collection == s.collection && t.opts == s.opts;
    c := cs[0];
    if !(e.push.Some? && e.push.value.kind == k) { c := DerivedBy(t, cs[1..], k); }
  }

  /** What an accepted change leaves of its member. */
  function ServedMember(m: Option<Member>, push: Option<Derived>, stamp: Option<Revision>): Option<Member> {
    if m.None? || push.None? then m
    else match push.value.kind
      case SetFlags(_, flags) => Some(m.value.(flags := flags))
      case Update(_, hash, _) => Some(Member(m.value.flags, stamp, Some(hash)))
      case Remove(_, _, _, _) => None
      case Add(_, _, _, _, _) => m
  }

  /** The change of a handle touches it alone, unless a create is assigned it. */
  lemma PushesReach(coll: CollectionId, opts: Options, listing: seq<Placement>, store: Rows, cursor: Option<Checkpoint>,
                    snapshot: Snapshot, server: Server, mint: Mint, h: Handle)
    requires Lists(listing, store) && Shows(snapshot, server) && Alone(coll, opts, store, server, h)
    requires Unminted(coll, opts, store, server, mint, h)
    ensures var ks := Merged(coll, opts, listing, cursor, snapshot).pushes; ReachedBy(ks, mint, h, PushAt(ks, h))
  {
    var ks := Merged(coll, opts, listing, cursor, snapshot).pushes;
    MergedLeaves(coll, opts, listing, store, cursor, snapshot, server, h);
    hide Merged, EffectOf;
    forall k | k in ks && PushAt(ks, h) != Some(k) ensures h !in Reach(k, mint) {
      PushIsOwn(coll, opts, listing, store, cursor, snapshot, server, k);
      assert k.Add? ==> AddsAt(coll, opts, store, server, k.handle);
      if k.handle == h { PushFound(ks, k); }
    }
  }

  /** The recording of a handle's own change touches it by what a round of it records. */
  lemma OwnRecordTouches(coll: CollectionId, p: Pendings, h: Handle, e: Effect, mint: Mint)
    requires e.push.Some? && e.push.value.kind.handle == h && Matched(e.push.value)
    requires OwedAt(p, h) == OwedAt(NO_PENDINGS.Add(h, e.push.value.pending), h)
    requires e.push.value.kind.Add? ==> !mint.Names(h, h)
    ensures Touching(e.writes, h) + Touching(RecordOne(coll, p, ResultOf(e.push.value.kind, mint)).writes, h)
            == Touching(EffectOps(coll, h, e, mint.stamp(h)), h)
  {
    var q := NO_PENDINGS.Add(h, e.push.value.pending);
    var r, plain := ResultOf(e.push.value.kind, mint), PushResult(h, Accepted, None, mint.stamp(h));
    RecordReadsOwed(coll, p, q, r);
    TouchingConcat(e.writes, RecordOne(coll, q, plain).writes, h);
    if e.push.value.kind.Add? {
      hide RecordOne, Touching;
      NameIsElsewhere(coll, e.push.value.pending.row, h, r, plain);
    } else {
      hide Touching;
      assert r == plain;
    }
  }

  lemma NameIsElsewhere(coll: CollectionId, row: Placement, h: Handle, r: PushResult, plain: PushResult)
    requires row.handle == h && r.handle == h && plain == r.(assignedHandle := None) && r.outcome == Accepted
    requires r.assignedHandle.Some? ==> r.assignedHandle.value != h
    ensures var q := NO_PENDINGS.Add(h, CreatePush(row));
            Touching(RecordOne(coll, q, r).writes, h) == Touching(RecordOne(coll, q, plain).writes, h)
  {
    var q := NO_PENDINGS.Add(h, CreatePush(row));
    var drop := DropPlacement(coll, h, Superseded);
    assert RecordOne(coll, q, plain).writes == [drop];
    if r.assignedHandle.Some? {
      var placed := UpsertPlacement(PlacedRow(row, r.assignedHandle.value, r.revision));
      assert RecordOne(coll, q, r).writes == [drop] + [placed];
      hide RecordOne, PlacedRow;
      TouchingConcat([drop], [placed], h);
      TouchesNothing(placed, h);
    }
  }

  lemma TouchesNothing(op: WriteOp, h: Handle)
    requires !Touches(op, h)
    ensures Touching([op], h) == []
  {
    assert [op][1..] == [];
  }

  /** An accepted run touches a handle by its merge, then by its recording. */
  lemma RunSplits(coll: CollectionId, opts: Options, listing: seq<Placement>, cursor: Option<Checkpoint>,
                  snapshot: Snapshot, mint: Mint, answers: seq<seq<PushResult>>, h: Handle)
    requires answers == Accepting(RunOf(coll, opts, listing, cursor, snapshot, answers).asked, mint)
    ensures var run := RunOf(coll, opts, listing, cursor, snapshot, answers);
            var t := Merged(coll, opts, listing, cursor, snapshot);
            && Sent(run.asked) == t.pushes
            && Touching(Ops(run.asked), h)
               == Touching(t.writes, h) + Touching(RecordAll(coll, t.pendings, Results(t.pushes, mint)).writes, h)
  {
    hide *;
    AcceptedRun(coll, opts, listing, cursor, snapshot, answers, mint);
    var t := Merged(coll, opts, listing, cursor, snapshot);
    var recorded := RecordAll(coll, t.pendings, Results(t.pushes, mint)).writes;
    TouchingConcat(t.writes + recorded, [SetCheckpoint(coll, snapshot.checkpoint)], h);
    TouchingConcat(t.writes, recorded, h);
    MarkTouchesNothing(coll, snapshot.checkpoint, h);
  }

  /** Over an accepted run on everything a server lists, the ops touching a handle are those of its own
    * round, in order, and the server is left there with its own change: whatever the other rows,
    * whatever the options, wherever batches and chunks end. */
  lemma RunTouches(coll: CollectionId, opts: Options, listing: seq<Placement>, store: Rows, cursor: Option<Checkpoint>,
                   snapshot: Snapshot, server: Server, mint: Mint, answers: seq<seq<PushResult>>, h: Handle)
    requires Lists(listing, store) && Shows(snapshot, server) && Alone(coll, opts, store, server, h)
    requires Unminted(coll, opts, store, server, mint, h)
    requires answers == Accepting(RunOf(coll, opts, listing, cursor, snapshot, answers).asked, mint)
    ensures var run := RunOf(coll, opts, listing, cursor, snapshot, answers);
            var e := EffectOf(coll, opts, store, server, h);
            && Touching(Ops(run.asked), h) == Touching(EffectOps(coll, h, e, mint.stamp(h)), h)
            && MemberAt(Serve(server, Sent(run.asked), mint), h)
               == ServedMember(MemberAt(server, h), e.push, mint.stamp(h))
  {
    var e := EffectOf(coll, opts, store, server, h);
    AddsNotOwn(coll, opts, store, server, mint, h);
    OwnIsMatched(coll, opts, listing, store, cursor, snapshot, server, h);
    hide *;
    RunSplits(coll, opts, listing, cursor, snapshot, mint, answers, h);
    MergedIsKeyed(coll, opts, listing, store, cursor, snapshot, server);
    MergedLeaves(coll, opts, listing, store, cursor, snapshot, server, h);
    PushesReach(coll, opts, listing, store, cursor, snapshot, server, mint, h);
    var t := Merged(coll, opts, listing, cursor, snapshot);
    RecordsTouch(coll, t.pendings, t.pushes, mint, h, PushAt(t.pushes, h));
    ServeAt(server, t.pushes, mint, h, PushAt(t.pushes, h));
    EffectEnds(coll, h, e, t.pendings, server, mint);
  }

  lemma AddsNotOwn(coll: CollectionId, opts: Options, store: Rows, server: Server, mint: Mint, h: Handle)
    requires Unminted(coll, opts, store, server, mint, h)
    ensures var e := EffectOf(coll, opts, store, server, h);
            e.push.Some? && e.push.value.kind.Add? ==> !mint.Names(h, h)
  {
    hide EffectOf;
    assert AddsAt(coll, opts, store, server, h) ==> !mint.Names(h, h);
  }

  lemma OwnIsMatched(coll: CollectionId, opts: Options, listing: seq<Placement>, store: Rows,
                     cursor: Option<Checkpoint>, snapshot: Snapshot, server: Server, h: Handle)
    requires Lists(listing, store) && Shows(snapshot, server)
    ensures var e := EffectOf(coll, opts, store, server, h);
            e.push.Some? ==> e.push.value.kind.handle == h && Matched(e.push.value)
  {
    FullCandidate(coll, opts, listing, store, cursor, snapshot, server, h);
    hide Todo, Opened, MergeOne, Matched;
    EffectShape(coll, opts, Candidate(h, At(store, h), Listing(h, MemberAt(server, h))));
  }

  lemma MarkTouchesNothing(coll: CollectionId, checkpoint: Checkpoint, h: Handle)
    ensures Touching([SetCheckpoint(coll, checkpoint)], h) == []
  {
    TouchesNothing(SetCheckpoint(coll, checkpoint), h);
  }

  lemma EffectEnds(coll: CollectionId, h: Handle, e: Effect, p: Pendings, server: Server, mint: Mint)
    requires e.push.Some? ==> e.push.value.kind.handle == h && Matched(e.push.value)
    requires e.push.Some? && e.push.value.kind.Add? ==> !mint.Names(h, h)
    requires OwedAt(p, h) == OwedAt(if e.push.Some? then NO_PENDINGS.Add(h, e.push.value.pending) else NO_PENDINGS, h)
    ensures Touching(EffectOps(coll, h, e, mint.stamp(h)), h)
            == Touching(e.writes, h)
               + (if e.push.Some? then Touching(RecordOne(coll, p, ResultOf(e.push.value.kind, mint)).writes, h)
                  else [])
    ensures ServedMember(MemberAt(server, h), e.push, mint.stamp(h))
            == if e.push.Some? then MemberAt(ServeOne(server, e.push.value.kind, mint), h) else MemberAt(server, h)
  {
    hide RecordOne, Matched;
    if e.push.Some? {
      OwnRecordTouches(coll, p, h, e, mint);
      hide EffectOps;
    } else {
      assert e.writes + [] == e.writes;
    }
  }

  /** So it leaves each row on the last op of its round. */
  lemma RunLeaves(coll: CollectionId, opts: Options, listing: seq<Placement>, store: Rows, cursor: Option<Checkpoint>,
                  snapshot: Snapshot, server: Server, mint: Mint, answers: seq<seq<PushResult>>, h: Handle)
    requires Lists(listing, store) && Shows(snapshot, server) && Alone(coll, opts, store, server, h)
    requires Unminted(coll, opts, store, server, mint, h)
    requires answers == Accepting(RunOf(coll, opts, listing, cursor, snapshot, answers).asked, mint)
    ensures var run := RunOf(coll, opts, listing, cursor, snapshot, answers);
            var e := EffectOf(coll, opts, store, server, h);
            At(Apply(store, Ops(run.asked)), h)
            == Ending(At(store, h), Touching(EffectOps(coll, h, e, mint.stamp(h)), h))
  {
    hide *;
    RunTouches(coll, opts, listing, store, cursor, snapshot, server, mint, answers, h);
    ApplyEnds(store, Ops(RunOf(coll, opts, listing, cursor, snapshot, answers).asked), h);
  }

  lemma {:induction false} MergeStaysDistinct(s: SyncState, cs: seq<Candidate>)
    requires Ascending(cs) && Distinct(Handles(s.pushes))
    requires forall c :: c in cs ==> Paired(c) && c.handle !in s.pendings.Domain() && PushAt(s.pushes, c.handle) == None
    ensures Distinct(Handles(AbsorbAll(s, cs).pushes))
    decreases |cs|
  {
    if cs != [] {
      var e := MergeOne(s.collection, s.opts, cs[0]);
      assert cs[0] in cs;
      EffectShape(s.collection, s.opts, cs[0]);
      LeavesOthers(s, cs, e);
      hide MergeOne, Absorb, Matched, Distinct;
      MergeStaysDistinct(Absorb(s, e), cs[1..]);
    }
  }

  lemma PushesDistinct(coll: CollectionId, opts: Options, listing: seq<Placement>, store: Rows,
                       cursor: Option<Checkpoint>, snapshot: Snapshot, server: Server)
    requires Lists(listing, store) && Shows(snapshot, server)
    ensures Distinct(Handles(Merged(coll, opts, listing, cursor, snapshot).pushes))
  {
    var s := Opened(coll, opts, listing, cursor, snapshot);
    var cs := Todo(s.merging.value);
    assert s.pendings == NO_PENDINGS && s.pushes == [];
    FullCandidate(coll, opts, listing, store, cursor, snapshot, server, Handle([]));
    forall c | c in cs ensures Paired(c) {
      CandidateIsFull(coll, opts, listing, store, cursor, snapshot, server, c);
    }
    hide Opened, Todo, AbsorbAll, Paired;
    MergeStaysDistinct(s, cs);
  }

  /** The server assigns new handles, and none twice. */
  ghost predicate FreshNames(coll: CollectionId, opts: Options, store: Rows, server: Server, mint: Mint) {
    && (forall g :: AddsAt(coll, opts, store, server, g) && mint.name(g).Some? ==>
          mint.name(g).value !in store && mint.name(g).value !in server)
    && (forall g, h :: AddsAt(coll, opts, store, server, g) && AddsAt(coll, opts, store, server, h) && g != h ==>
          mint.name(g).Some? ==> !mint.Names(h, mint.name(g).value))
  }

  /** A change is of a handle one side holds. */
  lemma PushIsHeld(coll: CollectionId, opts: Options, store: Rows, server: Server, h: Handle)
    requires EffectOf(coll, opts, store, server, h).push.Some?
    ensures h in store || h in server
  {
    hide MergeTombstone, MergeBoth, MergeRemoteDelete, MergeLocalCreate, PullAdd;
  }

  /** No change but its create touches a handle newly assigned. */
  lemma NameReached(coll: CollectionId, opts: Options, listing: seq<Placement>, store: Rows, cursor: Option<Checkpoint>,
                    snapshot: Snapshot, server: Server, mint: Mint, k: ChangeKind, a: Handle)
    requires Lists(listing, store) && Shows(snapshot, server) && FreshNames(coll, opts, store, server, mint)
    requires k in Merged(coll, opts, listing, cursor, snapshot).pushes && k.Add? && mint.Names(k.handle, a)
    ensures ReachedBy(Merged(coll, opts, listing, cursor, snapshot).pushes, mint, a, Some(k))
    ensures a !in store && a !in server
  {
    var ks := Merged(coll, opts, listing, cursor, snapshot).pushes;
    PushesDistinct(coll, opts, listing, store, cursor, snapshot, server);
    hide Merged, EffectOf, Lists, Shows;
    PushIsOwn(coll, opts, listing, store, cursor, snapshot, server, k);
    assert AddsAt(coll, opts, store, server, k.handle);
    forall j | j in ks && j != k ensures a !in Reach(j, mint) {
      PushIsOwn(coll, opts, listing, store, cursor, snapshot, server, j);
      PushIsHeld(coll, opts, store, server, j.handle);
      PushFound(ks, k);
      PushFound(ks, j);
      assert j.Add? ==> AddsAt(coll, opts, store, server, j.handle);
    }
  }

  /** What a create is assigned holds its row, based on what was pushed, and nothing else is done there. */
  lemma CreateTouches(coll: CollectionId, opts: Options, listing: seq<Placement>, store: Rows,
                      cursor: Option<Checkpoint>, snapshot: Snapshot, server: Server, mint: Mint,
                      answers: seq<seq<PushResult>>, g: Handle, a: Handle)
    requires Lists(listing, store) && Shows(snapshot, server) && FreshNames(coll, opts, store, server, mint)
    requires AddsAt(coll, opts, store, server, g) && mint.Names(g, a)
    requires Alone(coll, opts, store, server, a)
    requires answers == Accepting(RunOf(coll, opts, listing, cursor, snapshot, answers).asked, mint)
    ensures var run := RunOf(coll, opts, listing, cursor, snapshot, answers);
            var created := EffectOf(coll, opts, store, server, g).push.value;
            && created.pending.CreatePush?
            && Touching(Ops(run.asked), a) == [UpsertPlacement(PlacedRow(created.pending.row, a, mint.stamp(g)))]
            && MemberAt(Serve(server, Sent(run.asked), mint), a)
               == Some(Member(created.kind.flags, mint.stamp(g), created.kind.body))
  {
    var created := EffectOf(coll, opts, store, server, g).push.value;
    OwnIsMatched(coll, opts, listing, store, cursor, snapshot, server, g);
    assert created.kind.Add? && created.pending.CreatePush? && created.pending.row.handle == g
           && created.kind.handle == g;
    hide *;
    var t := Merged(coll, opts, listing, cursor, snapshot);
    var k := created.kind;
    MergedOwes(coll, opts, listing, store, cursor, snapshot, server, g);
    FoundIsIn(t.pushes, g, k);
    NameReached(coll, opts, listing, store, cursor, snapshot, server, mint, k, a);
    RunSplits(coll, opts, listing, cursor, snapshot, mint, answers, a);
    MergeMissesName(coll, opts, listing, store, cursor, snapshot, server, a);
    MergedIsKeyed(coll, opts, listing, store, cursor, snapshot, server);
    RecordsTouch(coll, t.pendings, t.pushes, mint, a, Some(k));
    ServeAt(server, t.pushes, mint, a, Some(k));
    CreatePlaces(coll, t.pendings, k, created.pending.row, mint, a);
    ServesCreate(server, k, mint, a);
  }

  lemma MergeMissesName(coll: CollectionId, opts: Options, listing: seq<Placement>, store: Rows,
                        cursor: Option<Checkpoint>, snapshot: Snapshot, server: Server, a: Handle)
    requires Lists(listing, store) && Shows(snapshot, server) && Alone(coll, opts, store, server, a)
    requires a !in store && a !in server
    ensures Touching(Merged(coll, opts, listing, cursor, snapshot).writes, a) == []
  {
    MergedLeaves(coll, opts, listing, store, cursor, snapshot, server, a);
    hide Merged;
    assert EffectOf(coll, opts, store, server, a) == NOTHING;
  }

  lemma FoundIsIn(ks: seq<ChangeKind>, g: Handle, k: ChangeKind)
    requires PushAt(ks, g) == Some(k)
    ensures k in ks && k.handle == g
  {
  }

  lemma ServesCreate(server: Server, k: ChangeKind, mint: Mint, a: Handle)
    requires k.Add? && mint.Names(k.handle, a)
    ensures MemberAt(ServeOne(server, k, mint), a) == Some(Member(k.flags, mint.stamp(k.handle), k.body))
  {
  }

  lemma CreatePlaces(coll: CollectionId, p: Pendings, k: ChangeKind, row: Placement, mint: Mint, a: Handle)
    requires k.Add? && row.handle == k.handle && a != k.handle && mint.Names(k.handle, a)
    requires OwedAt(p, k.handle) == OwedAt(NO_PENDINGS.Add(k.handle, CreatePush(row)), k.handle)
    ensures Touching(RecordOne(coll, p, ResultOf(k, mint)).writes, a)
            == [UpsertPlacement(PlacedRow(row, a, mint.stamp(k.handle)))]
  {
    var drop := DropPlacement(coll, k.handle, Superseded);
    var placed := UpsertPlacement(PlacedRow(row, a, mint.stamp(k.handle)));
    OwedCreate(p, k.handle, row);
    assert RecordOne(coll, p, ResultOf(k, mint)).writes == [drop] + [placed];
    assert Touches(placed, a);
    hide RecordOne, PlacedRow;
    TouchingConcat([drop], [placed], a);
    TouchesNothing(drop, a);
    assert [placed][1..] == [];
  }

  lemma OwedCreate(p: Pendings, h: Handle, row: Placement)
    requires OwedAt(p, h) == OwedAt(NO_PENDINGS.Add(h, CreatePush(row)), h)
    ensures h in p.creates && p.creates[h] == row && h !in p.flags && h !in p.content && h !in p.drops
  {
    var q := NO_PENDINGS.Add(h, CreatePush(row));
    assert At(q.creates, h) == Some(row) && At(q.flags, h) == None && At(q.content, h) == None && h !in q.drops;
  }
}

/** What every reachable state of the sync machine keeps, whatever it is fed. */
module SyncInvariants {
  import opened Wrappers
  import opened Placement
  import opened Change
  import opened Remote
  import opened Join
  import opened JoinLaws
  import opened MergeRules
  import opened SyncMachine

  /** A candidate pairs what the two sides hold under one handle. */
  ghost predicate Paired(c: Candidate) {
    && (c.local.Some? ==> c.local.value.handle == c.handle)
    && (c.remote.Some? ==> c.remote.value.handle == c.handle)
  }

  /** The pending entry an acceptance settles is the one its change was derived with. */
  ghost predicate Matched(d: Derived) {
    match d.kind
    case SetFlags(h, flags) => d.pending.FlagPush? && d.pending.row.handle == h && d.pending.row.flags == flags
    case Update(h, hash, _) => d.pending.ContentPush? && d.pending.row.handle == h && d.pending.row.body == Some(hash)
    case Remove(_, _, _, _) => d.pending.DropPush?
    case Add(h, link, flags, origin, body) =>
      && d.pending.CreatePush?
      && d.pending.row.handle == h && d.pending.row.linkId == link && d.pending.row.flags == flags
      && d.pending.row.origin == origin && d.pending.row.body == body
  }

  /** An effect of one handle: at most `n` writes, one change of that handle, every event counted. */
  ghost predicate Shaped(e: Effect, h: Handle, n: nat) {
    && |e.writes| <= n
    && |e.events| == e.pulled + e.conflicts + e.refreshed
    && (e.push.Some? ==> e.push.value.kind.handle == h && Matched(e.push.value))
  }

  lemma ContentShape(coll: CollectionId, opts: Options, local: Placement, item: RemoteItem)
    ensures var (e, outcome) := ReconcileContent(coll, opts, local, item);
            && Shaped(e, local.handle, 2)
            && (e.push.Some? <==> outcome.Pushed?)
            && (outcome.Rewritten? ==> outcome.row.handle == local.handle)
  {
  }

  lemma FlagsShape(opts: Options, local: Placement, item: RemoteItem, allow: PushFlags)
    ensures var e := ReconcileFlags(opts, local, item, allow);
            Shaped(e, local.handle, 1) && (allow == Withhold ==> e.push.None?)
  {
  }

  /** One candidate derives at most one change, of its own handle, at most three writes,
    * and counts every event it emits. */
  lemma EffectShape(coll: CollectionId, opts: Options, c: Candidate)
    requires Paired(c)
    ensures Shaped(MergeOne(coll, opts, c), c.handle, 3)
  {
    if c.local.Some? && c.remote.Some? && c.local.value.status != Tombstone {
      var local, item := c.local.value, c.remote.value;
      ContentShape(coll, opts, local, item);
      var (content, outcome) := ReconcileContent(coll, opts, local, item);
      var row := if outcome.Rewritten? then outcome.row else local;
      FlagsShape(opts, row, item, if outcome.Pushed? then Withhold else Derive);
    }
  }

  ghost predicate Distinct(hs: seq<Handle>) {
    forall i, j :: 0 <= i < j < |hs| ==> hs[i] != hs[j]
  }

  ghost predicate Separate(p: Pendings) {
    && p.flags.Keys !! p.content.Keys && p.flags.Keys !! p.drops && p.flags.Keys !! p.creates.Keys
    && p.content.Keys !! p.drops && p.content.Keys !! p.creates.Keys && p.drops !! p.creates.Keys
  }

  /** The handles whose change is derived and whose outcome is still out. */
  function Outstanding(s: SyncState): seq<Handle> {
    s.inFlight + Handles(s.pushes)
  }

  ghost predicate Counted(r: Report) {
    |r.events| == r.pulled + r.pushed + r.conflicts + r.refreshed
  }

  /** Each handle owns at most one outstanding change, each pending entry has one, no handle
    * is pending twice, and every event is counted once. */
  ghost predicate Bookkept(s: SyncState) {
    && AscendingRows(s.local)
    && (s.merging.Some? ==>
          && s.inFlight == []
          && Walkable(s.merging.value.join)
          && forall k :: k in s.pushes ==> Above(k.handle, s.merging.value.join))
    && Distinct(Outstanding(s))
    && Separate(s.pendings)
    && (forall h :: h in s.pendings.Domain() ==> h in Outstanding(s))
    && Counted(s.report)
  }

  /** What each phase holds between two resumptions. */
  ghost predicate Phased(s: SyncState) {
    && (s.merging.Some? <==> s.phase == Merging)
    && match s.phase
       case Start | PendingLoad | PendingEnumerate =>
         s.writes == [] && s.pushes == [] && s.inFlight == [] && s.nextCheckpoint == None && s.report == EMPTY_REPORT
       case Merging => s.writes == [] && s.nextCheckpoint == None
       case PendingPush => s.inFlight != [] && |s.inFlight| <= PUSH_CHUNK && s.nextCheckpoint.Some?
       case PendingWrite => s.writes == [] && s.inFlight == [] && (s.nextCheckpoint.Some? <==> s.pushes != [])
       case Done => s.writes == [] && s.inFlight == [] && s.pushes == [] && s.nextCheckpoint == None
  }

  ghost predicate Valid(s: SyncState) {
    Bookkept(s) && Phased(s)
  }

  lemma NewIsValid(coll: CollectionId, opts: Options)
    ensures Valid(NewSync(coll, opts))
  {
  }

  /** What the walk takes pairs up, and leaves only greater handles. */
  lemma {:induction false} NextCandidateIsPaired(merge: Merge)
    requires Walkable(merge.join)
    ensures var (next, rest) := NextCandidate(merge);
            && Walkable(rest.join)
            && (next.Some? ==> Paired(next.value) && Above(next.value.handle, rest.join))
            && (forall h :: Above(h, merge.join) ==> Above(h, rest.join))
            && (next.Some? ==> forall h :: Above(h, merge.join) ==> Less(h, next.value.handle))
    decreases merge.join.Size()
  {
    if merge.join.Size() > 0 {
      NextIsLeast(merge.join);
      NextKeepsAbove(merge.join);
      NextCandidateIsPaired(merge.(join := Next(merge.join).1));
    }
  }

  lemma NextKeepsAbove(join: Join)
    requires join.Size() > 0
    ensures forall h :: Above(h, join) ==> Above(h, Next(join).1) && Less(h, Next(join).0.value.handle)
  {
    var (next, rest) := Next(join);
    forall h | Above(h, join) ensures Above(h, rest) && Less(h, next.value.handle) {
      if next.value.local.Some? { assert join.local[0] in join.local; } else { assert join.remote[0] in join.remote; }
    }
  }

  lemma AddKeeps(p: Pendings, h: Handle, pending: Pending)
    requires Separate(p) && h !in p.Domain()
    ensures Separate(p.Add(h, pending))
    ensures p.Add(h, pending).Domain() == p.Domain() + {h}
  {
    match pending {
      case FlagPush(_) =>
      case ContentPush(_) =>
      case DropPush =>
      case CreatePush(_) =>
    }
  }

  lemma AbsorbKeeps(s: SyncState, c: Candidate)
    requires Bookkept(s) && s.merging.Some? && Paired(c)
    requires Above(c.handle, s.merging.value.join)
    requires forall k :: k in s.pushes ==> k.handle != c.handle
    ensures Bookkept(Absorb(s, MergeOne(s.collection, s.opts, c)))
  {
    var e := MergeOne(s.collection, s.opts, c);
    EffectShape(s.collection, s.opts, c);
    var t := Absorb(s, e);
    if e.push.Some? {
      assert Outstanding(t) == Outstanding(s) + [c.handle];
      assert c.handle !in Outstanding(s);
      AddKeeps(s.pendings, c.handle, e.push.value.pending);
    } else {
      assert Outstanding(t) == Outstanding(s);
    }
  }

  lemma StepOnKeeps(s: SyncState)
    requires Bookkept(s) && s.merging.None? && s.inFlight == [] && s.nextCheckpoint.Some?
    ensures Valid(StepOn(s).0)
  {
    var t := StepOn(s).0;
    assert Outstanding(t) == Outstanding(s) by {
      if s.pushes != [] {
        var n := ChunkSize(s);
        assert Handles(s.pushes) == Handles(s.pushes[..n]) + Handles(s.pushes[n..]);
      }
    }
  }

  lemma {:induction false} MergeOnKeeps(s: SyncState)
    requires Bookkept(s) && s.merging.Some? && s.nextCheckpoint == None
    ensures Valid(MergeOn(s).0)
    decreases if s.merging.Some? then s.merging.value.join.Size() else 0
  {
    var (next, moved) := NextCandidate(s.merging.value);
    NextCandidateIsPaired(s.merging.value);
    if next.None? {
      StepOnKeeps(s.(merging := None, nextCheckpoint := Some(s.merging.value.checkpoint)));
    } else {
      var c := next.value;
      forall k | k in s.pushes ensures k.handle != c.handle {
        LessIrreflexive(c.handle);
      }
      var u := s.(merging := Some(moved));
      assert Outstanding(u) == Outstanding(s);
      AbsorbKeeps(u, c);
      var t := Absorb(u, MergeOne(s.collection, s.opts, c));
      if |t.writes| >= WRITE_CHUNK {
        assert Outstanding(MergeOn(s).0) == Outstanding(t);
      } else {
        MergeOnKeeps(t);
      }
    }
  }

  /** Recording one result, then the rest. */
  lemma RecordAllUnfolds(coll: CollectionId, p: Pendings, results: seq<PushResult>)
    requires results != []
    ensures var one := RecordOne(coll, p, results[0]);
            var rest := RecordAll(coll, one.pendings, results[1..]);
            RecordAll(coll, p, results)
            == Recorded(rest.pendings, one.writes + rest.writes, one.events + rest.events,
                        one.pushed + rest.pushed, one.rejected + rest.rejected)
  {
    hide RecordOne;
  }

  lemma RecordOneCounts(coll: CollectionId, p: Pendings, r: PushResult)
    requires Separate(p)
    ensures var first := RecordOne(coll, p, r);
            && Separate(first.pendings)
            && |first.events| == first.pushed
            && first.pushed + first.rejected <= 1
            && first.pendings.Domain() == (if first.pushed == 1 then p.Domain() - {r.handle} else p.Domain())
            && (first.pushed == 1 ==> r.handle in p.Domain())
  {
    if r.outcome == Accepted {
      assert p.Forget({r.handle}).Domain() == p.Domain() - {r.handle};
    }
  }

  /** Recording settles each handle once: an event for every push counted, whatever is reported. */
  lemma {:induction false} RecordAllCounts(coll: CollectionId, p: Pendings, results: seq<PushResult>)
    requires Separate(p)
    ensures var r := RecordAll(coll, p, results);
            && Separate(r.pendings)
            && r.pendings.Domain() <= p.Domain()
            && |r.events| == r.pushed
            && r.pushed + |r.pendings.Domain()| == |p.Domain()|
            && r.pushed + r.rejected <= |results|
    decreases |results|
  {
    if results != [] {
      var first := RecordOne(coll, p, results[0]);
      RecordOneCounts(coll, p, results[0]);
      RecordAllUnfolds(coll, p, results);
      hide RecordOne, RecordAll, Separate;
      RecordAllCounts(coll, first.pendings, results[1..]);
    }
  }

  lemma ForgetKeeps(p: Pendings, hs: set<Handle>)
    requires Separate(p)
    ensures Separate(p.Forget(hs))
    ensures p.Forget(hs).Domain() == p.Domain() - hs
  {
  }

  /** A chunk recorded leaves pending only what was, none of it in flight. */
  lemma RecordChunkForgets(s: SyncState, results: seq<PushResult>)
    requires Separate(s.pendings) && Counted(s.report)
    ensures var t := RecordChunk(s, results);
            && Separate(t.pendings) && Counted(t.report)
            && (forall h :: h in t.pendings.Domain() ==> h in s.pendings.Domain() && h !in s.inFlight)
  {
    RecordAllCounts(s.collection, s.pendings, results);
    var recorded := RecordAll(s.collection, s.pendings, results);
    hide RecordAll;
    var flown := (set h | h in s.inFlight);
    ForgetKeeps(recorded.pendings, flown);
    assert RecordChunk(s, results).pendings == recorded.pendings.Forget(flown);
    hide Separate;
  }

  lemma OutstandingLater(s: SyncState, t: SyncState)
    requires Distinct(Outstanding(s)) && t.inFlight == [] && t.pushes == s.pushes
    ensures Distinct(Outstanding(t))
    ensures forall h :: h in Outstanding(s) && h !in s.inFlight ==> h in Outstanding(t)
  {
    assert Outstanding(t) == Handles(s.pushes);
    assert Outstanding(t) == Outstanding(s)[|s.inFlight|..];
    DistinctSuffix(Outstanding(s), |s.inFlight|);
  }

  lemma RecordChunkKeeps(s: SyncState, results: seq<PushResult>)
    requires Bookkept(s) && s.merging.None?
    ensures var t := RecordChunk(s, results);
            Bookkept(t) && t.inFlight == [] && t.merging.None? && t.pushes == s.pushes
            && t.nextCheckpoint == s.nextCheckpoint
  {
    RecordChunkForgets(s, results);
    OutstandingLater(s, RecordChunk(s, results));
    hide RecordAll, Separate, Counted, Distinct, Outstanding, AscendingRows;
  }

  lemma DistinctSuffix(hs: seq<Handle>, n: nat)
    requires Distinct(hs) && n <= |hs|
    ensures Distinct(hs[n..])
    ensures forall h :: h in hs && h !in hs[..n] ==> h in hs[n..]
  {
    assert hs == hs[..n] + hs[n..];
  }

  lemma OpenMergeKeeps(s: SyncState, snapshot: Snapshot)
    requires Valid(s) && s.phase == PendingEnumerate
    ensures Bookkept(OpenMerge(s, snapshot))
  {
    NormaliseIsOrderedMap(snapshot.items, Handle([]));
    assert Outstanding(OpenMerge(s, snapshot)) == Outstanding(s);
  }

  lemma ResumeLoadKeeps(s: SyncState, arg: Arg)
    requires Valid(s) && s.phase == PendingLoad && arg.LoadArg?
    ensures Valid(Resume(s, Some(arg)).0)
  {
    CollectKeepsOrder(arg.placements);
    assert Outstanding(Resume(s, Some(arg)).0) == Outstanding(s);
  }

  lemma ResumeStartKeeps(s: SyncState)
    requires Valid(s) && s.phase == Start
    ensures Valid(Resume(s, None).0)
  {
    assert Outstanding(Resume(s, None).0) == Outstanding(s);
  }

  lemma ResumeEnumerateKeeps(s: SyncState, snapshot: Snapshot)
    requires Valid(s) && s.phase == PendingEnumerate
    ensures Valid(Resume(s, Some(EnumerateArg(snapshot))).0)
  {
    hide Bookkept;
    OpenMergeKeeps(s, snapshot);
    MergeOnKeeps(OpenMerge(s, snapshot));
  }

  /** Whether the pending request is the one this argument answers. */
  predicate Expected(s: SyncState, arg: Option<Arg>) {
    match s.phase
    case Start => arg.None?
    case PendingLoad => arg.Some? && arg.value.LoadArg?
    case PendingEnumerate => arg.Some? && arg.value.EnumerateArg?
    case Merging => arg.Some? && arg.value.WriteArg?
    case PendingPush => arg.Some? && arg.value.PushArg?
    case PendingWrite => arg.Some? && arg.value.WriteArg?
    case Done => false
  }

  /** Exactly the arguments nothing asked for fail, and they change nothing. */
  lemma UnexpectedChangesNothing(s: SyncState, arg: Option<Arg>)
    requires Valid(s)
    ensures !Expected(s, arg) ==> Resume(s, arg) == (s, Failed(if arg.None? then MissingArg else UnexpectedArg))
    ensures Expected(s, arg) ==> !Resume(s, arg).1.Failed?
  {
    hide Bookkept;
    if Expected(s, arg) && s.phase == PendingEnumerate {
      MergeOnYields(OpenMerge(s, arg.value.snapshot));
    } else if Expected(s, arg) && s.phase == Merging {
      MergeOnYields(s);
    }
  }

  lemma {:induction false} MergeOnYields(s: SyncState)
    requires s.merging.Some?
    ensures MergeOn(s).1.Yielded?
    decreases s.merging.value.join.Size()
  {
    var (next, moved) := NextCandidate(s.merging.value);
    if next.Some? {
      var t := Absorb(s.(merging := Some(moved)), MergeOne(s.collection, s.opts, next.value));
      if |t.writes| < WRITE_CHUNK { MergeOnYields(t); }
    }
  }

  /** Every resumption keeps the invariant, for any argument, an unexpected one included;
    * in particular the merge it continues always exists. */
  lemma ResumeKeeps(s: SyncState, arg: Option<Arg>)
    requires Valid(s)
    ensures Resumable(s) && Valid(Resume(s, arg).0)
  {
    hide Bookkept;
    if !Expected(s, arg) {
      UnexpectedChangesNothing(s, arg);
    } else {
      match s.phase {
        case Start => ResumeStartKeeps(s);
        case PendingLoad => ResumeLoadKeeps(s, arg.value);
        case PendingEnumerate => ResumeEnumerateKeeps(s, arg.value.snapshot);
        case Merging => MergeOnKeeps(s);
        case PendingPush => ResumePushKeeps(s, arg.value.results);
        case PendingWrite => ResumeWriteKeeps(s);
      }
    }
  }

  lemma ResumePushKeeps(s: SyncState, results: seq<PushResult>)
    requires Valid(s) && s.phase == PendingPush
    ensures Valid(Resume(s, Some(PushArg(results))).0)
  {
    RecordChunkKeeps(s, results);
    var t := RecordChunk(s, results);
    assert Outstanding(Resume(s, Some(PushArg(results))).0) == Outstanding(t);
  }

  lemma ResumeWriteKeeps(s: SyncState)
    requires Valid(s) && s.phase == PendingWrite
    ensures Valid(Resume(s, Some(WriteArg)).0)
  {
    if s.pushes != [] {
      StepOnKeeps(s);
    } else {
      assert Outstanding(Resume(s, Some(WriteArg)).0) == Outstanding(s);
    }
  }

  lemma CollectKeepsOrder(listing: seq<Placement>)
    ensures AscendingRows(Collect(listing))
  {
    CollectIsOrderedMap(listing, Handle([]));
  }
}

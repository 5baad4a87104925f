/** A run on a delta does exactly what a run on the complete snapshot does. */
module DeltaSync {
  import opened Wrappers
  import opened Placement
  import opened Change
  import opened Remote
  import opened Join
  import opened JoinLaws
  import opened MergeRules
  import opened SyncMachine
  import opened SyncInvariants
  import opened SyncRuns
  import FlagLaws

  /** What a run does about one handle. */
  ghost function EffectAt(coll: CollectionId, opts: Options, cs: seq<Candidate>, h: Handle): Effect {
    var c := CandidateAt(cs, h);
    if c.Some? then MergeOne(coll, opts, c.value) else NOTHING
  }

  /** The effects a merge leaves, idle candidates aside. */
  ghost function Effects(coll: CollectionId, opts: Options, cs: seq<Candidate>): seq<Effect> {
    if cs == [] then []
    else
      var e := MergeOne(coll, opts, cs[0]);
      (if e == NOTHING then [] else [e]) + Effects(coll, opts, cs[1..])
  }

  lemma HeadLeavesRest(cs: seq<Candidate>, h: Handle)
    requires Ascending(cs) && cs != []
    ensures Ascending(cs[1..])
    ensures h != cs[0].handle ==> CandidateAt(cs[1..], h) == CandidateAt(cs, h)
    ensures h == cs[0].handle ==> CandidateAt(cs[1..], h) == None
  {
    LessIrreflexive(cs[0].handle);
  }

  /** Two ascending merges doing the same about every handle leave the same effects in the
    * same order. */
  lemma {:induction false} EffectsAreDetermined(coll: CollectionId, opts: Options, a: seq<Candidate>, b: seq<Candidate>)
    requires Ascending(a) && Ascending(b)
    requires forall h :: EffectAt(coll, opts, a, h) == EffectAt(coll, opts, b, h)
    ensures Effects(coll, opts, a) == Effects(coll, opts, b)
    decreases |a| + |b|
  {
    hide MergeOne;
    if a != [] && MergeOne(coll, opts, a[0]) == NOTHING {
      forall h ensures EffectAt(coll, opts, a[1..], h) == EffectAt(coll, opts, b, h) {
        HeadLeavesRest(a, h);
        assert EffectAt(coll, opts, a, h) == EffectAt(coll, opts, b, h);
      }
      HeadLeavesRest(a, a[0].handle);
      EffectsAreDetermined(coll, opts, a[1..], b);
    } else if b != [] && MergeOne(coll, opts, b[0]) == NOTHING {
      forall h ensures EffectAt(coll, opts, a, h) == EffectAt(coll, opts, b[1..], h) {
        HeadLeavesRest(b, h);
        assert EffectAt(coll, opts, a, h) == EffectAt(coll, opts, b, h);
      }
      HeadLeavesRest(b, b[0].handle);
      EffectsAreDetermined(coll, opts, a, b[1..]);
    } else {
      BothAct(coll, opts, a, b);
      if a != [] {
        forall h ensures EffectAt(coll, opts, a[1..], h) == EffectAt(coll, opts, b[1..], h) {
          HeadLeavesRest(a, h);
          HeadLeavesRest(b, h);
          assert EffectAt(coll, opts, a, h) == EffectAt(coll, opts, b, h);
        }
        HeadLeavesRest(a, a[0].handle);
        HeadLeavesRest(b, b[0].handle);
        EffectsAreDetermined(coll, opts, a[1..], b[1..]);
      }
    }
  }

  /** When neither head is idle they are the same handle, doing the same. */
  lemma BothAct(coll: CollectionId, opts: Options, a: seq<Candidate>, b: seq<Candidate>)
    requires Ascending(a) && Ascending(b)
    requires forall h :: EffectAt(coll, opts, a, h) == EffectAt(coll, opts, b, h)
    requires a != [] ==> MergeOne(coll, opts, a[0]) != NOTHING
    requires b != [] ==> MergeOne(coll, opts, b[0]) != NOTHING
    ensures a == [] <==> b == []
    ensures a != [] ==> a[0].handle == b[0].handle && MergeOne(coll, opts, a[0]) == MergeOne(coll, opts, b[0])
  {
    hide MergeOne;
    if a != [] {
      assert EffectAt(coll, opts, a, a[0].handle) == MergeOne(coll, opts, a[0]);
      assert EffectAt(coll, opts, b, a[0].handle) != NOTHING;
    }
    if b != [] {
      assert EffectAt(coll, opts, b, b[0].handle) == MergeOne(coll, opts, b[0]);
      assert EffectAt(coll, opts, a, b[0].handle) != NOTHING;
    }
    if a != [] && b != [] {
      var ca, cb := CandidateAt(a, b[0].handle).value, CandidateAt(b, a[0].handle).value;
      var i :| 0 <= i < |a| && a[i] == ca;
      var j :| 0 <= j < |b| && b[j] == cb;
      if a[0].handle != b[0].handle {
        LessTransitive(a[0].handle, b[0].handle, a[0].handle);
        LessIrreflexive(a[0].handle);
      }
    }
  }

  /** Two machines whose merges still have the same to do. */
  ghost predicate Alike(s: SyncState, t: SyncState) {
    && t == s.(merging := t.merging)
    && (s.merging.Some? <==> t.merging.Some?)
    && (s.merging.Some? ==>
          && s.merging.value.checkpoint == t.merging.value.checkpoint
          && Effects(s.collection, s.opts, Todo(s.merging.value))
             == Effects(s.collection, s.opts, Todo(t.merging.value)))
  }

  lemma IdleAbsorbs(s: SyncState)
    ensures Absorb(s, NOTHING) == s
  {
    assert s.writes + [] == s.writes && s.report.events + [] == s.report.events;
  }

  /** Skipping an idle candidate changes nothing about what the merge does next. */
  lemma IdleIsSkipped(s: SyncState)
    requires s.merging.Some? && |s.writes| < WRITE_CHUNK
    requires NextCandidate(s.merging.value).0.Some?
    requires MergeOne(s.collection, s.opts, NextCandidate(s.merging.value).0.value) == NOTHING
    ensures var moved := NextCandidate(s.merging.value).1;
            && MergeOn(s) == MergeOn(s.(merging := Some(moved)))
            && Effects(s.collection, s.opts, Todo(s.merging.value)) == Effects(s.collection, s.opts, Todo(moved))
  {
    hide MergeOne;
    var (next, moved) := NextCandidate(s.merging.value);
    IdleAbsorbs(s.(merging := Some(moved)));
    assert Todo(s.merging.value)[1..] == Todo(moved);
  }

  lemma AlikeAbsorbs(s: SyncState, t: SyncState, restA: Merge, restB: Merge, e: Effect)
    requires Alike(s, t) && s.merging.Some?
    requires restA.checkpoint == s.merging.value.checkpoint && restB.checkpoint == t.merging.value.checkpoint
    requires Effects(s.collection, s.opts, Todo(restA)) == Effects(s.collection, s.opts, Todo(restB))
    ensures var s', t' := Absorb(s.(merging := Some(restA)), e), Absorb(t.(merging := Some(restB)), e);
            && Alike(s', t') && s'.merging == Some(restA) && t'.merging == Some(restB)
            && s'.writes == t'.writes && s'.collection == s.collection && s'.opts == s.opts
  {
  }

  lemma AlikeFlushes(s: SyncState, t: SyncState)
    requires Alike(s, t)
    ensures Batch(s.(phase := Merging)).1 == Batch(t.(phase := Merging)).1
    ensures Alike(Batch(s.(phase := Merging)).0, Batch(t.(phase := Merging)).0)
  {
  }

  lemma {:induction false} AlikeMerges(s: SyncState, t: SyncState)
    requires Alike(s, t) && s.merging.Some? && |s.writes| < WRITE_CHUNK
    ensures MergeOn(s).1 == MergeOn(t).1 && Alike(MergeOn(s).0, MergeOn(t).0)
    decreases s.merging.value.join.Size() + (if t.merging.Some? then t.merging.value.join.Size() else 0)
  {
    hide MergeOne, StepOn;
    var (a, restA) := NextCandidate(s.merging.value);
    var (b, restB) := NextCandidate(t.merging.value);
    if a.Some? && MergeOne(s.collection, s.opts, a.value) == NOTHING {
      IdleIsSkipped(s);
      AlikeMerges(s.(merging := Some(restA)), t);
    } else if b.Some? && MergeOne(s.collection, s.opts, b.value) == NOTHING {
      IdleIsSkipped(t);
      AlikeMerges(s, t.(merging := Some(restB)));
    } else {
      SameNext(s, t);
      if a.Some? {
        var e := MergeOne(s.collection, s.opts, a.value);
        var s', t' := Absorb(s.(merging := Some(restA)), e), Absorb(t.(merging := Some(restB)), e);
        AlikeAbsorbs(s, t, restA, restB, e);
        hide Absorb, Alike, Effects, Todo;
        if |s'.writes| < WRITE_CHUNK {
          AlikeMerges(s', t');
        } else {
          AlikeFlushes(s', t');
        }
      } else {
        var u := s.(merging := None, nextCheckpoint := Some(s.merging.value.checkpoint));
        assert u == t.(merging := None, nextCheckpoint := Some(t.merging.value.checkpoint));
        StepOnMergesNothing(u);
      }
    }
  }

  lemma StepOnMergesNothing(s: SyncState)
    ensures StepOn(s).0.merging == s.merging
  {
  }

  lemma SameNext(s: SyncState, t: SyncState)
    requires Alike(s, t) && s.merging.Some?
    requires var a := NextCandidate(s.merging.value).0; a.Some? ==> MergeOne(s.collection, s.opts, a.value) != NOTHING
    requires var b := NextCandidate(t.merging.value).0; b.Some? ==> MergeOne(s.collection, s.opts, b.value) != NOTHING
    ensures var (a, restA) := NextCandidate(s.merging.value);
            var (b, restB) := NextCandidate(t.merging.value);
            && (a.Some? <==> b.Some?)
            && (a.Some? ==>
                  && MergeOne(s.collection, s.opts, a.value) == MergeOne(s.collection, s.opts, b.value)
                  && Effects(s.collection, s.opts, Todo(restA)) == Effects(s.collection, s.opts, Todo(restB)))
  {
    hide MergeOne;
    var (a, restA) := NextCandidate(s.merging.value);
    var (b, restB) := NextCandidate(t.merging.value);
    if a.Some? { assert Todo(s.merging.value)[1..] == Todo(restA); }
    if b.Some? { assert Todo(t.merging.value)[1..] == Todo(restB); }
    var ea := Effects(s.collection, s.opts, Todo(s.merging.value));
    var eb := Effects(s.collection, s.opts, Todo(t.merging.value));
    if a.Some? { assert ea[1..] == Effects(s.collection, s.opts, Todo(restA)); }
    if b.Some? { assert eb[1..] == Effects(s.collection, s.opts, Todo(restB)); }
  }

  lemma AlikeResumes(s: SyncState, t: SyncState, arg: Arg)
    requires Valid(s) && Valid(t) && Alike(s, t) && Underway(s)
    ensures Resumable(s) && Resumable(t)
    ensures Resume(s, Some(arg)).1 == Resume(t, Some(arg)).1
    ensures Alike(Resume(s, Some(arg)).0, Resume(t, Some(arg)).0)
  {
    hide Bookkept;
    if s.phase == Merging {
      if arg.WriteArg? { AlikeMerges(s, t); }
    } else {
      assert s == t;
      hide Resume;
    }
  }

  /** Machines with the same left to do run the same to the end, whatever the driver answers. */
  lemma {:induction false} AlikeRuns(s: SyncState, t: SyncState, step: Step, answers: seq<seq<PushResult>>)
    requires Valid(s) && Valid(t) && Alike(s, t) && Asking(s, step) && Asking(t, step)
    ensures Follow(s, step, answers) == Follow(t, step, answers)
    decreases if step.Yielded? then 1 + Measure(s) else 0
  {
    hide Bookkept, Phased, Resume, Measure;
    if step.Yielded? {
      ReplyKeeps(s, answers);
      ReplyKeeps(t, answers);
      var arg := Reply(s, answers);
      AlikeResumes(s, t, arg);
      var (u, next) := Resume(s, Some(arg));
      var (v, _) := Resume(t, Some(arg));
      AlikeRuns(u, v, next, if s.phase == PendingPush then Later(answers) else answers);
    }
  }

  /** What the merge makes of each handle, once the walk and the narrowing are done. */
  ghost function Pairing(merge: Merge, h: Handle): Option<Candidate> {
    var row, item := RowAt(merge.join.local, h), ItemAt(merge.join.remote, h);
    if row.None? && item.None? then None
    else if merge.complete then Some(Candidate(h, row, item))
    else Narrow(merge, Candidate(h, row, item))
  }

  lemma {:induction false} TodoIsPaired(merge: Merge, h: Handle)
    requires Walkable(merge.join)
    ensures Ascending(Todo(merge)) && CandidateAt(Todo(merge), h) == Pairing(merge, h)
    ensures forall g :: Above(g, merge.join) ==> forall c :: c in Todo(merge) ==> Less(g, c.handle)
    decreases merge.join.Size()
  {
    if merge.join.Size() > 0 {
      var (next, rest) := Next(merge.join);
      var moved := merge.(join := rest);
      NextIsLeast(merge.join);
      NextKeepsAbove(merge.join);
      TodoUnfolds(merge);
      TodoIsPaired(moved, h);
      var narrowed := if merge.complete then next else Narrow(merge, next.value);
      PairingSteps(merge, h);
      hide Todo, Pairing, Next, Above, Walkable, Less, Narrow;
      forall g | Above(g, merge.join) ensures forall c :: c in Todo(merge) ==> Less(g, c.handle) {
        assert Above(g, rest) && Less(g, next.value.handle);
      }
      HeadIsLeast(Todo(merge), Todo(moved), narrowed, next.value.handle, h);
    }
  }

  /** One candidate of the walk, then those of the rest. */
  lemma TodoUnfolds(merge: Merge)
    requires merge.join.Size() > 0
    ensures var (next, rest) := Next(merge.join);
            var moved := merge.(join := rest);
            var narrowed := if merge.complete then next else Narrow(merge, next.value);
            && (narrowed.Some? ==> narrowed.value.handle == next.value.handle)
            && Todo(merge) == (if narrowed.Some? then [narrowed.value] else []) + Todo(moved)
  {
    var (next, rest) := Next(merge.join);
    var moved := merge.(join := rest);
    var narrowed := if merge.complete then next else Narrow(merge, next.value);
    if narrowed.None? {
      assert NextCandidate(merge) == NextCandidate(moved);
      assert [] + Todo(moved) == Todo(moved);
    }
  }

  lemma PairingSteps(merge: Merge, h: Handle)
    requires Walkable(merge.join) && merge.join.Size() > 0
    ensures var (next, rest) := Next(merge.join);
            var narrowed := if merge.complete then next else Narrow(merge, next.value);
            && Pairing(merge, next.value.handle) == narrowed
            && Pairing(merge.(join := rest), next.value.handle) == None
            && (h != next.value.handle ==> Pairing(merge.(join := rest), h) == Pairing(merge, h))
  {
    var (next, rest) := Next(merge.join);
    NextIsLeast(merge.join);
    GoneOnceTaken(rest, next.value.handle);
    if h != next.value.handle { WalkSteps(merge.join, h); }
    hide Next;
  }

  lemma HeadIsLeast(cs: seq<Candidate>, rest: seq<Candidate>, head: Option<Candidate>, least: Handle, h: Handle)
    requires cs == (if head.Some? then [head.value] else []) + rest && Ascending(rest)
    requires head.Some? ==> head.value.handle == least
    requires forall c :: c in rest ==> Less(least, c.handle)
    ensures Ascending(cs)
    ensures CandidateAt(cs, h) == if head.Some? && head.value.handle == h then head else CandidateAt(rest, h)
    ensures h == least && head.None? ==> CandidateAt(cs, h) == None
  {
    LessIrreflexive(least);
    if head.Some? { assert cs[1..] == rest; } else { assert cs == rest; }
    hide Less;
  }

  lemma GoneOnceTaken(join: Join, h: Handle)
    requires Above(h, join)
    ensures RowAt(join.local, h) == None && ItemAt(join.remote, h) == None
  {
    LessIrreflexive(h);
  }

  /** The best-known remote state of a row nothing was reported about. */
  function StandIn(row: Placement): RemoteItem
    requires row.base.Some?
  {
    RemoteItem(row.handle, row.base.value.flags,
               if row.conflictRevision.Some? then row.conflictRevision else row.base.value.revision)
  }

  /** A delta telling the truth about what moved on the server the complete snapshot lists. */
  ghost predicate Faithful(rows: seq<Placement>, delta: Snapshot, whole: Snapshot) {
    && !delta.complete && whole.complete && delta.checkpoint == whole.checkpoint
    && (forall h :: ItemAt(delta.items, h).Some? ==> ItemAt(delta.items, h) == ItemAt(whole.items, h))
    && (forall h :: h in delta.vanished ==> ItemAt(whole.items, h) == None)
    && (forall h :: ItemAt(delta.items, h).None? && h !in delta.vanished ==>
          ItemAt(whole.items, h) == Untold(RowAt(rows, h)))
  }

  /** What silence about a handle must mean. */
  function Untold(row: Option<Placement>): Option<RemoteItem> {
    if row.Some? && row.value.base.Some? then Some(StandIn(row.value)) else None
  }

  /** A clean row agrees with its base and tracks no conflict. */
  ghost predicate CleanAgrees(rows: seq<Placement>) {
    forall h :: var row := RowAt(rows, h);
                row.Some? && row.value.status == Clean && row.value.base.Some? ==>
                  row.value.flags == row.value.base.value.flags && row.value.conflictRevision == None
  }

  /** A clean, agreeing row meeting the state it stands for has nothing to reconcile. */
  lemma CleanIsIdle(coll: CollectionId, opts: Options, row: Placement)
    requires row.status == Clean
    requires row.base.Some? ==> row.flags == row.base.value.flags && row.conflictRevision == None
    ensures MergeOne(coll, opts, Candidate(row.handle, Some(row), Untold(Some(row)))) == NOTHING
  {
    if row.base.Some? {
      CleanMergesNothing(coll, opts, row);
    }
    hide MergeBoth, MergeTombstone, MergeRemoteDelete, PullAdd;
  }

  lemma CleanMergesNothing(coll: CollectionId, opts: Options, row: Placement)
    requires row.status == Clean && row.base.Some?
    requires row.flags == row.base.value.flags && row.conflictRevision == None
    ensures MergeBoth(coll, opts, row, StandIn(row)) == NOTHING
  {
    CleanAxes(coll, opts, row);
    assert MergeBoth(coll, opts, row, StandIn(row)) == NOTHING.Then(NOTHING);
    hide MergeBoth;
    NothingFirst(NOTHING);
  }

  lemma CleanAxes(coll: CollectionId, opts: Options, row: Placement)
    requires row.status == Clean && row.base.Some?
    requires row.flags == row.base.value.flags && row.conflictRevision == None
    ensures ReconcileContent(coll, opts, row, StandIn(row)) == (NOTHING, Untouched)
    ensures ReconcileFlags(opts, row, StandIn(row), Derive) == NOTHING
  {
    FlagLaws.UnchangedSideYields(row.flags, row.flags);
    hide MergeFlags, PullFlags, RebasedRow, Pushing, ResolveConflict, PullContent, MarkConflict;
  }

  lemma SameAboutEach(coll: CollectionId, opts: Options, rows: seq<Placement>, delta: Snapshot, whole: Snapshot,
                      h: Handle)
    requires Faithful(rows, delta, whole) && CleanAgrees(rows)
    ensures var s := NewSync(coll, opts).(local := Collect(rows));
            EffectAt(coll, opts, Todo(OpenMerge(s, delta).merging.value), h)
            == EffectAt(coll, opts, Todo(OpenMerge(s, whole).merging.value), h)
  {
    var s := NewSync(coll, opts).(local := Collect(rows));
    var d, w := OpenMerge(s, delta).merging.value, OpenMerge(s, whole).merging.value;
    assert d.join == Join(Collect(rows), Normalise(delta.items))
           && w.join == Join(Collect(rows), Normalise(whole.items));
    assert (h in d.vanished <==> h in delta.vanished) && !d.complete && w.complete;
    CollectIsOrderedMap(rows, h);
    NormaliseIsOrderedMap(delta.items, h);
    NormaliseIsOrderedMap(whole.items, h);
    hide Collect, Normalise, OpenMerge, Todo, MergeOne, Pairing, Faithful, CleanAgrees;
    TodoIsPaired(d, h);
    TodoIsPaired(w, h);
    SamePairing(coll, opts, rows, delta, whole, d, w, h);
  }

  lemma SamePairing(coll: CollectionId, opts: Options, rows: seq<Placement>, delta: Snapshot, whole: Snapshot, d: Merge,
                    w: Merge, h: Handle)
    requires Faithful(rows, delta, whole) && CleanAgrees(rows)
    requires RowAt(d.join.local, h) == RowAt(w.join.local, h) == RowAt(rows, h)
    requires ItemAt(d.join.remote, h) == ItemAt(delta.items, h) && ItemAt(w.join.remote, h) == ItemAt(whole.items, h)
    requires (h in d.vanished <==> h in delta.vanished) && !d.complete && w.complete
    ensures var a, b := Pairing(d, h), Pairing(w, h);
            (if a.Some? then MergeOne(coll, opts, a.value) else NOTHING)
              == (if b.Some? then MergeOne(coll, opts, b.value) else NOTHING)
  {
    hide MergeOne;
    var row := RowAt(rows, h);
    if h !in delta.vanished && ItemAt(delta.items, h).None? && row.Some? && row.value.status == Clean {
      CleanIsIdle(coll, opts, row.value);
    }
  }

  /** A run on the delta yields exactly the requests, batch boundaries and chunks included,
    * and the report of a run on the complete snapshot. */
  lemma DeltaRunIsFullRun(coll: CollectionId, opts: Options, rows: seq<Placement>, cursor: Option<Checkpoint>,
                          delta: Snapshot, whole: Snapshot, answers: seq<seq<PushResult>>)
    requires Faithful(rows, delta, whole) && CleanAgrees(rows)
    ensures RunOf(coll, opts, rows, cursor, delta, answers) == RunOf(coll, opts, rows, cursor, whole, answers)
  {
    var s := Opened(coll, opts, rows, cursor, delta);
    var t := Opened(coll, opts, rows, cursor, whole);
    forall h ensures EffectAt(coll, opts, Todo(s.merging.value), h) == EffectAt(coll, opts, Todo(t.merging.value), h) {
      SameAboutEach(coll, opts, rows, delta, whole, h);
    }
    OpenedIsBookkept(coll, opts, rows, cursor, delta);
    OpenedIsBookkept(coll, opts, rows, cursor, whole);
    TodoIsPaired(s.merging.value, Handle([]));
    TodoIsPaired(t.merging.value, Handle([]));
    EffectsAreDetermined(coll, opts, Todo(s.merging.value), Todo(t.merging.value));
    OpeningIsValid(coll, opts, rows, cursor, delta);
    OpeningIsValid(coll, opts, rows, cursor, whole);
    hide Bookkept, Faithful, CleanAgrees, Todo;
    assert Alike(s, t);
    AlikeMerges(s, t);
    hide Opened, MergeOn, Phased;
    AlikeRuns(MergeOn(s).0, MergeOn(t).0, MergeOn(s).1, answers);
  }
}

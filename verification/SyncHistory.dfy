/** Any driver at all: arbitrary arguments, in any order, duplicates and answers to nobody included. */
module SyncHistory {
  import opened Wrappers
  import opened Placement
  import opened Change
  import opened Remote
  import opened Join
  import opened JoinLaws
  import opened MergeRules
  import opened SyncMachine
  import opened SyncInvariants
  import opened SyncRuns

  /** A machine, and how many changes it has handed over to be pushed. */
  datatype Driven = Driven(state: SyncState, handed: nat)

  function HandedBy(step: Step): nat {
    if step.Yielded? && step.request.WantsPush? then |step.request.changes| else 0
  }

  /** What holds after any number of resumptions: the invariant, and no more pushes counted or
    * still pending than were derived, whether handed over already or still queued. */
  ghost predicate Balanced(d: Driven) {
    && Valid(d.state)
    && d.state.report.pushed + |d.state.pendings.Domain()| <= d.handed + |d.state.pushes|
  }

  lemma AbsorbConserves(s: SyncState, e: Effect)
    ensures var t := Absorb(s, e);
            && |t.pendings.Domain()| <= |s.pendings.Domain()| + (|t.pushes| - |s.pushes|)
            && t.report.pushed == s.report.pushed
  {
    if e.push.Some? {
      AddOnce(s.pendings, e.push.value.kind.handle, e.push.value.pending);
    }
  }

  lemma AddOnce(p: Pendings, h: Handle, pending: Pending)
    ensures |p.Add(h, pending).Domain()| <= |p.Domain()| + 1
  {
    AddsToDomain(p, h, pending);
    OneMore(p.Domain(), h);
  }

  lemma AddsToDomain(p: Pendings, h: Handle, pending: Pending)
    ensures p.Add(h, pending).Domain() == p.Domain() + {h}
  {
    match pending {
      case FlagPush(row) => assert p.flags[h := row].Keys == p.flags.Keys + {h};
      case ContentPush(row) => assert p.content[h := row].Keys == p.content.Keys + {h};
      case DropPush =>
      case CreatePush(row) => assert p.creates[h := row].Keys == p.creates.Keys + {h};
    }
  }

  lemma OneMore(hs: set<Handle>, h: Handle)
    ensures |hs + {h}| <= |hs| + 1
  {
    if h in hs { assert hs + {h} == hs; }
  }

  lemma {:induction false} MergeOnConserves(s: SyncState)
    requires s.merging.Some?
    ensures var (t, step) := MergeOn(s);
            && |t.pendings.Domain()| + |s.pushes| <= |s.pendings.Domain()| + HandedBy(step) + |t.pushes|
            && t.report.pushed == s.report.pushed
    decreases s.merging.value.join.Size()
  {
    var (next, moved) := NextCandidate(s.merging.value);
    if next.Some? {
      var e := MergeOne(s.collection, s.opts, next.value);
      hide MergeOne;
      var u := s.(merging := Some(moved));
      AbsorbConserves(u, e);
      var t := Absorb(u, e);
      hide Absorb;
      if |t.writes| < WRITE_CHUNK { MergeOnConserves(t); }
    }
  }

  lemma RecordConserves(s: SyncState, results: seq<PushResult>)
    requires Bookkept(s)
    ensures var t := RecordChunk(s, results);
            t.report.pushed + |t.pendings.Domain()| <= s.report.pushed + |s.pendings.Domain()|
  {
    RecordAllCounts(s.collection, s.pendings, results);
    var recorded := RecordAll(s.collection, s.pendings, results).pendings;
    var flown := (set h | h in s.inFlight);
    ForgetKeeps(recorded, flown);
    Subset(recorded.Forget(flown).Domain(), recorded.Domain());
  }

  lemma Subset(a: set<Handle>, b: set<Handle>)
    requires a <= b
    ensures |a| <= |b|
  {
    assert b == a + (b - a);
  }

  lemma ResumeAccounts(d: Driven, arg: Option<Arg>)
    requires Balanced(d)
    ensures Resumable(d.state)
    ensures var (t, step) := Resume(d.state, arg);
            t.report.pushed + |t.pendings.Domain()| <= d.handed + HandedBy(step) + |t.pushes|
  {
    hide Bookkept, MergeOn, RecordChunk, StepOn, Batch, Phased;
    var s := d.state;
    ResumeKeeps(s, arg);
    if !Expected(s, arg) {
      UnexpectedChangesNothing(s, arg);
    } else if s.phase == PendingEnumerate {
      MergeOnConserves(OpenMerge(s, arg.value.snapshot));
    } else if s.phase == Merging {
      MergesExist(s);
      MergeOnConserves(s);
    } else if s.phase == PendingPush {
      PushAccounts(d, arg.value.results);
    } else if s.phase == PendingWrite {
      WriteAccounts(d);
    }
  }

  lemma MergesExist(s: SyncState)
    requires Valid(s) && s.phase == Merging
    ensures s.merging.Some?
  {
  }

  lemma WriteAccounts(d: Driven)
    requires Balanced(d) && d.state.phase == PendingWrite
    ensures var (t, step) := Resume(d.state, Some(WriteArg));
            t.report.pushed + |t.pendings.Domain()| <= d.handed + HandedBy(step) + |t.pushes|
  {
    if d.state.pushes == [] { NothingPending(d.state); }
    if d.state.pushes != [] { PushingHandsOver(d.state); }
    hide Bookkept, StepOn, Valid, ChunkSize;
  }

  /** What leaves the queue is handed over. */
  lemma PushingHandsOver(s: SyncState)
    requires s.pushes != []
    ensures var (t, step) := StepOn(s);
            HandedBy(step) + |t.pushes| == |s.pushes| && t.pendings == s.pendings && t.report == s.report
  {
  }

  lemma NothingPending(s: SyncState)
    requires Bookkept(s) && s.inFlight == [] && s.pushes == []
    ensures |s.pendings.Domain()| == 0
  {
    assert Outstanding(s) == [];
    assert s.pendings.Domain() == {};
  }

  /** Recording counts only handles of the chunk in flight or of one still queued, each once. */
  lemma PushAccounts(d: Driven, results: seq<PushResult>)
    requires Balanced(d) && d.state.phase == PendingPush
    ensures Resumable(d.state)
    ensures var (t, step) := Resume(d.state, Some(PushArg(results)));
            t.report.pushed + |t.pendings.Domain()| <= d.handed + HandedBy(step) + |t.pushes|
  {
    hide Bookkept;
    RecordConserves(d.state, results);
  }

  /** The machine after any sequence of arguments. */
  ghost function Drive(coll: CollectionId, opts: Options, args: seq<Option<Arg>>): (d: Driven)
    ensures Balanced(d)
    decreases |args|
  {
    if args == [] then
      NewIsValid(coll, opts);
      Driven(NewSync(coll, opts), 0)
    else
      var before := Drive(coll, opts, args[..|args| - 1]);
      ResumeKeeps(before.state, args[|args| - 1]);
      ResumeAccounts(before, args[|args| - 1]);
      var (t, step) := Resume(before.state, args[|args| - 1]);
      Driven(t, before.handed + HandedBy(step))
  }

  /** In every state any driver can reach: no handle owns two changes still out, no two of the four
    * pending maps share a handle, each pending one owns a change queued or in flight, no more pushes
    * are counted than were derived, and every event is counted once. */
  lemma BooksBalance(coll: CollectionId, opts: Options, args: seq<Option<Arg>>)
    ensures var d := Drive(coll, opts, args);
            var s, p := d.state, d.state.pendings;
            && Distinct(s.inFlight + Handles(s.pushes))
            && p.flags.Keys !! p.content.Keys && p.flags.Keys !! p.drops && p.flags.Keys !! p.creates.Keys
            && p.content.Keys !! p.drops && p.content.Keys !! p.creates.Keys && p.drops !! p.creates.Keys
            && (forall h :: h in p.Domain() ==> h in s.inFlight || exists k :: k in s.pushes && k.handle == h)
            && s.report.pushed + |p.Domain()| <= d.handed + |s.pushes|
            && |s.report.events| == s.report.pulled + s.report.pushed + s.report.conflicts + s.report.refreshed
  {
    var d := Drive(coll, opts, args);
    var s := d.state;
    assert Balanced(d) && Bookkept(s);
    forall h | h in s.pendings.Domain() && h !in s.inFlight ensures exists k :: k in s.pushes && k.handle == h {
      assert h in Outstanding(s);
      var i :| 0 <= i < |Handles(s.pushes)| && Handles(s.pushes)[i] == h;
      assert s.pushes[i] in s.pushes;
    }
  }
}

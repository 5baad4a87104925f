/** Whole runs: a driver answering every request until the machine completes.
  *
  * The batches and the chunks of a run are an accident of its bounds: the run does
  * exactly what merging every candidate and then recording every chunk would do,
  * with nothing bounded.
  */
module SyncRuns {
  import opened Wrappers
  import opened Placement
  import opened Change
  import opened Remote
  import opened Join
  import opened JoinLaws
  import opened MergeRules
  import opened SyncMachine
  import opened SyncInvariants

  datatype Run = Run(asked: seq<Yield>, report: Report)

  /** How much a run still has to do before it completes. */
  function Measure(s: SyncState): nat {
    3 * (if s.merging.Some? then s.merging.value.join.Size() else 0) + 2 * |s.pushes|
    + (match s.phase case Merging => 2 case PendingPush => 1 case _ => 0)
  }

  /** The results answering the next chunk, and those left: a driver may run out of answers. */
  function Answer(answers: seq<seq<PushResult>>): seq<PushResult> {
    if answers == [] then [] else answers[0]
  }

  function Later(answers: seq<seq<PushResult>>): seq<seq<PushResult>> {
    if answers == [] then [] else answers[1..]
  }

  predicate Underway(s: SyncState) {
    s.phase == Merging || s.phase == PendingPush || s.phase == PendingWrite
  }

  lemma StepOnShrinks(s: SyncState)
    requires s.merging.None?
    ensures var (t, step) := StepOn(s);
            && Underway(t) && t.merging.None? && step.Yielded?
            && Measure(t) <= 2 * |s.pushes|
            && (s.pushes != [] ==> Measure(t) < 2 * |s.pushes|)
            && (t.phase == PendingPush <==> step.request.WantsPush?)
            && (t.phase == PendingWrite <==> step.request.WantsWrite?)
  {
  }

  lemma {:induction false} MergeOnShrinks(s: SyncState)
    requires s.merging.Some?
    ensures var (t, step) := MergeOn(s);
            && Underway(t) && step.Yielded?
            && Measure(t) < 3 * s.merging.value.join.Size() + 2 * |s.pushes| + 2
            && (t.phase == PendingPush <==> step.request.WantsPush?)
            && (t.phase != PendingPush <==> step.request.WantsWrite?)
    decreases s.merging.value.join.Size()
  {
    var (next, moved) := NextCandidate(s.merging.value);
    if next.None? {
      StepOnShrinks(s.(merging := None, nextCheckpoint := Some(s.merging.value.checkpoint)));
    } else {
      var t := Absorb(s.(merging := Some(moved)), MergeOne(s.collection, s.opts, next.value));
      if |t.writes| < WRITE_CHUNK { MergeOnShrinks(t); }
    }
  }

  /** Every answered request leaves strictly less to do, so every run completes. */
  lemma ResumeShrinks(s: SyncState, arg: Arg)
    requires Valid(s) && Underway(s) && Expected(s, Some(arg))
    ensures Resumable(s)
    ensures var (t, step) := Resume(s, Some(arg));
            step.Complete? || (step.Yielded? && Underway(t) && Measure(t) < Measure(s)
                               && (t.phase == PendingPush <==> step.request.WantsPush?)
                               && (t.phase != PendingPush <==> step.request.WantsWrite?))
  {
    hide Bookkept;
    if s.phase == Merging {
      MergeOnShrinks(s);
    } else if s.phase == PendingWrite && s.pushes != [] {
      StepOnShrinks(s);
    }
  }

  /** The request a state waits on is the one its phase answers. */
  predicate Asking(s: SyncState, step: Step) {
    step.Yielded? ==> Underway(s) && (s.phase == PendingPush <==> step.request.WantsPush?)
                      && (s.phase != PendingPush <==> step.request.WantsWrite?)
  }

  /** What the driver replies: a write is applied, a chunk is answered by the next results. */
  function Reply(s: SyncState, answers: seq<seq<PushResult>>): Arg {
    if s.phase == PendingPush then PushArg(Answer(answers)) else WriteArg
  }

  lemma ReplyIsExpected(s: SyncState, answers: seq<seq<PushResult>>)
    requires Underway(s)
    ensures Expected(s, Some(Reply(s, answers)))
  {
  }

  lemma ReplyKeeps(s: SyncState, answers: seq<seq<PushResult>>)
    requires Valid(s) && Underway(s)
    ensures Resumable(s)
    ensures var (t, step) := Resume(s, Some(Reply(s, answers)));
            Valid(t) && !step.Failed? && Asking(t, step) && (step.Yielded? ==> Measure(t) < Measure(s))
  {
    hide Bookkept, Phased, Resume, Measure;
    ReplyIsExpected(s, answers);
    ResumeKeeps(s, Some(Reply(s, answers)));
    ResumeShrinks(s, Reply(s, answers));
  }

  /** The run from here on. */
  ghost function Follow(s: SyncState, step: Step, answers: seq<seq<PushResult>>): Run
    requires Valid(s) && Asking(s, step)
    decreases if step.Yielded? then 1 + Measure(s) else 0
  {
    if !step.Yielded? then Run([], if step.Complete? then step.report else EMPTY_REPORT)
    else
      hide Bookkept, Phased, Resume, Measure;
      ReplyKeeps(s, answers);
      var (t, next) := Resume(s, Some(Reply(s, answers)));
      var rest := Follow(t, next, if s.phase == PendingPush then Later(answers) else answers);
      Run([step.request] + rest.asked, rest.report)
  }

  /** The candidates a merge still has to take, once a delta's untouched ones are left out. */
  ghost function Todo(merge: Merge): seq<Candidate>
    decreases merge.join.Size()
  {
    var (next, rest) := NextCandidate(merge);
    if next.None? then [] else [next.value] + Todo(rest)
  }

  /** Merging every candidate with no bound on what is gathered. */
  ghost function AbsorbAll(s: SyncState, cs: seq<Candidate>): SyncState
    decreases |cs|
  {
    if cs == [] then s
    else AbsorbAll(Absorb(s, MergeOne(s.collection, s.opts, cs[0])), cs[1..])
  }

  /** Taking one chunk off the queue. */
  function TakeChunk(s: SyncState): SyncState {
    s.(pushes := s.pushes[ChunkSize(s)..], inFlight := Handles(s.pushes[..ChunkSize(s)]))
  }

  /** Recording every chunk with no write in between. */
  ghost function RecordRest(s: SyncState, answers: seq<seq<PushResult>>): SyncState
    decreases |s.pushes|
  {
    if s.pushes == [] then s
    else RecordRest(RecordChunk(TakeChunk(s), Answer(answers)), Later(answers))
  }

  /** Every write a run asks for, in order. */
  ghost function Ops(ys: seq<Yield>): seq<WriteOp> {
    if ys == [] then []
    else (if ys[0].WantsWrite? then ys[0].ops else []) + Ops(ys[1..])
  }

  /** Every change a run pushes, in order. */
  ghost function Sent(ys: seq<Yield>): seq<ChangeKind> {
    if ys == [] then []
    else (if ys[0].WantsPush? then ys[0].changes else []) + Sent(ys[1..])
  }

  ghost predicate Unmarked(ops: seq<WriteOp>) {
    forall op :: op in ops ==> !op.SetCheckpoint?
  }

  /** A batch closing the run: the checkpoint is its last op, and the only one. */
  ghost predicate Closing(ops: seq<WriteOp>) {
    ops != [] && ops[|ops| - 1].SetCheckpoint? && Unmarked(ops[..|ops| - 1])
  }

  /** Alternating pushes and writes: every chunk but the last is full, only the last write closes. */
  ghost predicate PushGrammar(ys: seq<Yield>) {
    && |ys| >= 2
    && ys[0].WantsPush? && 0 < |ys[0].changes| <= PUSH_CHUNK
    && ys[1].WantsWrite?
    && (if |ys| == 2 then Closing(ys[1].ops)
        else Unmarked(ys[1].ops) && |ys[0].changes| == PUSH_CHUNK && PushGrammar(ys[2..]))
  }

  /** The merge's batches, each full and cut within one candidate's reach of the bound, then one
    * closing write or the pushes. */
  ghost predicate RunGrammar(ys: seq<Yield>) {
    || (|ys| == 1 && ys[0].WantsWrite? && Closing(ys[0].ops))
    || PushGrammar(ys)
    || (|ys| > 1 && ys[0].WantsWrite? && WRITE_CHUNK <= |ys[0].ops| <= WRITE_CHUNK + 2
        && Unmarked(ys[0].ops) && RunGrammar(ys[1..]))
  }

  /** The same run with writes already gathered, and with the fields no decision reads replaced. */
  function Framed(s: SyncState, w: seq<WriteOp>, merging: Option<Merge>, next: Option<Checkpoint>, phase: Phase)
    : SyncState
  {
    s.(writes := w + s.writes, merging := merging, nextCheckpoint := next, phase := phase)
  }

  lemma {:induction false} AbsorbAllFrame(s: SyncState, w: seq<WriteOp>, m: Option<Merge>, n: Option<Checkpoint>,
                                          ph: Phase, cs: seq<Candidate>)
    ensures AbsorbAll(Framed(s, w, m, n, ph), cs) == Framed(AbsorbAll(s, cs), w, m, n, ph)
    decreases |cs|
  {
    if cs != [] {
      hide MergeOne;
      var e := MergeOne(s.collection, s.opts, cs[0]);
      assert (w + s.writes) + e.writes == w + (s.writes + e.writes);
      assert Absorb(Framed(s, w, m, n, ph), e) == Framed(Absorb(s, e), w, m, n, ph);
      AbsorbAllFrame(Absorb(s, e), w, m, n, ph, cs[1..]);
    }
  }

  lemma {:induction false} RecordRestFrame(s: SyncState, w: seq<WriteOp>, m: Option<Merge>, n: Option<Checkpoint>,
                                           ph: Phase, answers: seq<seq<PushResult>>)
    ensures RecordRest(Framed(s, w, m, n, ph), answers) == Framed(RecordRest(s, answers), w, m, n, ph)
    decreases |s.pushes|
  {
    if s.pushes != [] {
      var u := RecordChunk(TakeChunk(s), Answer(answers));
      assert |u.pushes| < |s.pushes|;
      RecordChunkFrame(s, w, m, n, ph, Answer(answers));
      hide RecordChunk, TakeChunk, Framed;
      RecordRestFrame(u, w, m, n, ph, Later(answers));
      FramedPushes(s, w, m, n, ph);
    }
  }

  lemma FramedReads(s: SyncState, w: seq<WriteOp>, m: Option<Merge>, n: Option<Checkpoint>, ph: Phase)
    ensures var t := Framed(s, w, m, n, ph);
            t.writes == w + s.writes && t.report == s.report && t.pushes == s.pushes && t.collection == s.collection
  {
  }

  lemma FramedPushes(s: SyncState, w: seq<WriteOp>, m: Option<Merge>, n: Option<Checkpoint>, ph: Phase)
    ensures Framed(s, w, m, n, ph).pushes == s.pushes
  {
  }

  lemma RecordChunkFrame(s: SyncState, w: seq<WriteOp>, m: Option<Merge>, n: Option<Checkpoint>, ph: Phase,
                         results: seq<PushResult>)
    requires s.pushes != []
    ensures RecordChunk(TakeChunk(Framed(s, w, m, n, ph)), results)
            == Framed(RecordChunk(TakeChunk(s), results), w, m, n, ph)
  {
    hide RecordAll;
    var r := RecordAll(s.collection, s.pendings, results);
    assert (w + s.writes) + r.writes == w + (s.writes + r.writes);
  }

  lemma RecordOneUnmarked(coll: CollectionId, p: Pendings, r: PushResult)
    ensures Unmarked(RecordOne(coll, p, r).writes)
  {
    assert Unmarked(FlagOps(p, r.handle)) && Unmarked(ContentOps(p, r));
    assert Unmarked(DropOps(coll, p, r.handle)) && Unmarked(CreateOps(coll, p, r));
    hide FlagOps, ContentOps, DropOps, CreateOps;
  }

  lemma {:induction false} RecordAllUnmarked(coll: CollectionId, p: Pendings, results: seq<PushResult>)
    ensures Unmarked(RecordAll(coll, p, results).writes)
    decreases |results|
  {
    if results != [] {
      RecordOneUnmarked(coll, p, results[0]);
      hide RecordOne;
      RecordAllUnmarked(coll, RecordOne(coll, p, results[0]).pendings, results[1..]);
    }
  }

  lemma ContentUnmarked(coll: CollectionId, opts: Options, local: Placement, item: RemoteItem)
    ensures Unmarked(ReconcileContent(coll, opts, local, item).0.writes)
  {
  }

  lemma FlagsUnmarked(opts: Options, local: Placement, item: RemoteItem, allow: PushFlags)
    ensures Unmarked(ReconcileFlags(opts, local, item, allow).writes)
  {
  }

  lemma MergeOneUnmarked(coll: CollectionId, opts: Options, c: Candidate)
    ensures Unmarked(MergeOne(coll, opts, c).writes)
  {
    if c.local.Some? && c.remote.Some? && c.local.value.status != Tombstone {
      var local, item := c.local.value, c.remote.value;
      ContentUnmarked(coll, opts, local, item);
      var (content, outcome) := ReconcileContent(coll, opts, local, item);
      hide ReconcileContent;
      FlagsUnmarked(opts, if outcome.Rewritten? then outcome.row else local, item,
                    if outcome.Pushed? then Withhold else Derive);
      hide ReconcileFlags;
    }
  }

  /** What a run amounts to: every write the unbounded merge and recording would do, then the
    * checkpoint; the pushes in derivation order; the same report. */
  ghost predicate Amounts(run: Run, u: SyncState, coll: CollectionId, cp: Checkpoint, pushes: seq<ChangeKind>) {
    && Ops(run.asked) == u.writes + [SetCheckpoint(coll, cp)]
    && Sent(run.asked) == pushes
    && run.report == u.report
  }

  lemma OpsOfWrite(ops: seq<WriteOp>, rest: seq<Yield>)
    ensures Ops([WantsWrite(ops)] + rest) == ops + Ops(rest)
    ensures Sent([WantsWrite(ops)] + rest) == Sent(rest)
  {
    assert ([WantsWrite(ops)] + rest)[1..] == rest;
  }

  lemma OpsOfPush(changes: seq<ChangeKind>, rest: seq<Yield>)
    ensures Ops([WantsPush(changes)] + rest) == Ops(rest)
    ensures Sent([WantsPush(changes)] + rest) == changes + Sent(rest)
  {
    assert ([WantsPush(changes)] + rest)[1..] == rest;
  }

  /** One write, then a run amounting to something, amounts to that with the write in front. */
  lemma AmountsAfterWrite(ops: seq<WriteOp>, rest: Run, u: SyncState, v: SyncState, coll: CollectionId, cp: Checkpoint,
                          pushes: seq<ChangeKind>)
    requires Amounts(rest, u, coll, cp, pushes)
    requires v.writes == ops + u.writes && v.report == u.report
    ensures Amounts(Run([WantsWrite(ops)] + rest.asked, rest.report), v, coll, cp, pushes)
    ensures ([WantsWrite(ops)] + rest.asked)[1..] == rest.asked
  {
    OpsOfWrite(ops, rest.asked);
    hide Ops, Sent;
    assert ops + (u.writes + [SetCheckpoint(coll, cp)]) == (ops + u.writes) + [SetCheckpoint(coll, cp)];
  }

  /** The closing write of a run with nothing left to push. */
  lemma CloseRun(s: SyncState, step: Step, ops: seq<WriteOp>, answers: seq<seq<PushResult>>)
    requires Valid(s) && s.phase == PendingWrite && s.pushes == [] && step == Yielded(WantsWrite(ops))
    ensures Follow(s, step, answers) == Run([WantsWrite(ops)], s.report)
  {
    hide Bookkept, Phased;
    ReplyKeeps(s, answers);
    var (t, next) := Resume(s, Some(WriteArg));
    assert Follow(t, next, answers) == Run([], s.report);
  }

  lemma {:induction false} PushPhase(s: SyncState, answers: seq<seq<PushResult>>)
    requires Bookkept(s) && s.merging.None? && s.inFlight == [] && s.nextCheckpoint.Some? && Unmarked(s.writes)
    ensures var (t, step) := StepOn(s);
            && Valid(t) && Asking(t, step)
            && Amounts(Follow(t, step, answers), RecordRest(s, answers), s.collection, s.nextCheckpoint.value, s.pushes)
            && RunGrammar(Follow(t, step, answers).asked)
            && (s.pushes != [] ==> PushGrammar(Follow(t, step, answers).asked))
    decreases |s.pushes|, 2
  {
    hide Bookkept;
    StepOnKeeps(s);
    var (t, step) := StepOn(s);
    var cp := SetCheckpoint(s.collection, s.nextCheckpoint.value);
    if s.pushes == [] {
      CloseRun(t, step, s.writes + [cp], answers);
      OpsOfWrite(s.writes + [cp], []);
      assert [WantsWrite(s.writes + [cp])] + [] == [WantsWrite(s.writes + [cp])];
    } else {
      PushChunk(s, answers);
    }
  }

  /** The two requests a chunk takes: the push, then the write recording its outcome. */
  lemma ChunkIsRecorded(s: SyncState, answers: seq<seq<PushResult>>)
    requires Bookkept(s) && s.merging.None? && s.inFlight == [] && s.nextCheckpoint.Some? && s.pushes != []
    ensures var (t, step) := StepOn(s);
            var recorded := RecordChunk(TakeChunk(s), Answer(answers));
            && Valid(t) && t.phase == PendingPush && step == Yielded(WantsPush(s.pushes[..ChunkSize(s)]))
            && (var (v, write) := Resume(t, Some(PushArg(Answer(answers))));
                && Valid(v) && v.phase == PendingWrite && v.pushes == s.pushes[ChunkSize(s)..]
                && v.report == recorded.report && v.collection == s.collection
                && (if v.pushes == []
                    then write == Yielded(WantsWrite(recorded.writes +
                                                     [SetCheckpoint(s.collection, s.nextCheckpoint.value)]))
                    else && write == Yielded(WantsWrite(recorded.writes))
                         && v.nextCheckpoint == s.nextCheckpoint
                         && recorded == Framed(v, recorded.writes, s.merging, s.nextCheckpoint, s.phase)))
  {
    hide Bookkept, RecordAll;
    StepOnKeeps(s);
    ReplyKeeps(StepOn(s).0, answers);
  }

  lemma {:induction false} PushChunk(s: SyncState, answers: seq<seq<PushResult>>)
    requires Bookkept(s) && s.merging.None? && s.inFlight == [] && s.nextCheckpoint.Some? && Unmarked(s.writes)
    requires s.pushes != []
    ensures var (t, step) := StepOn(s);
            && Valid(t) && Asking(t, step)
            && Amounts(Follow(t, step, answers), RecordRest(s, answers), s.collection, s.nextCheckpoint.value, s.pushes)
            && PushGrammar(Follow(t, step, answers).asked)
    decreases |s.pushes|, 1
  {
    ChunkIsRecorded(s, answers);
    ChunkFollows(s, answers);
    ChunkUnmarked(s, Answer(answers));
    RestUnfolds(s, answers);
    hide *;
    var (t, step) := StepOn(s);
    var recorded := RecordChunk(TakeChunk(s), Answer(answers));
    var chunk := s.pushes[..ChunkSize(s)];
    var (v, write) := Resume(t, Some(PushArg(Answer(answers))));
    var after := Follow(v, write, Later(answers));
    if v.pushes == [] {
      CloseRun(v, write, recorded.writes + [SetCheckpoint(s.collection, s.nextCheckpoint.value)], Later(answers));
      ClosesAfter(recorded, s.collection, s.nextCheckpoint.value);
    } else {
      PushNext(s, v, write, recorded, Later(answers));
    }
    AmountsAfterPush(s, after, RecordRest(recorded, Later(answers)), chunk, v.pushes);
  }

  lemma ChunkFollows(s: SyncState, answers: seq<seq<PushResult>>)
    requires s.pushes != [] && Valid(StepOn(s).0)
    requires StepOn(s).0.phase == PendingPush && StepOn(s).1 == Yielded(WantsPush(s.pushes[..ChunkSize(s)]))
    ensures var (t, step) := StepOn(s);
            var chunk := s.pushes[..ChunkSize(s)];
            && Asking(t, step)
            && (var (v, write) := Resume(t, Some(PushArg(Answer(answers))));
                && Valid(v) && Asking(v, write)
                && (var after := Follow(v, write, Later(answers));
                    Follow(t, step, answers) == Run([WantsPush(chunk)] + after.asked, after.report)))
  {
    hide Bookkept, Phased, Valid;
    ReplyKeeps(StepOn(s).0, answers);
    hide StepOn, Resume;
  }

  lemma ChunkUnmarked(s: SyncState, results: seq<PushResult>)
    requires Unmarked(s.writes)
    ensures var recorded := RecordChunk(TakeChunk(s), results);
            Unmarked(recorded.writes) && recorded.pushes == s.pushes[ChunkSize(s)..]
    ensures s.pushes == s.pushes[..ChunkSize(s)] + s.pushes[ChunkSize(s)..]
    ensures s.pushes != []
            ==> 0 < ChunkSize(s) <= PUSH_CHUNK && (s.pushes[ChunkSize(s)..] != [] ==> ChunkSize(s) == PUSH_CHUNK)
  {
    RecordAllUnmarked(s.collection, s.pendings, results);
    hide RecordAll;
  }

  lemma RestUnfolds(s: SyncState, answers: seq<seq<PushResult>>)
    requires s.pushes != []
    ensures RecordRest(s, answers) == RecordRest(RecordChunk(TakeChunk(s), Answer(answers)), Later(answers))
  {
    hide RecordChunk, TakeChunk;
  }

  /** The one write closing a run whose last chunk is recorded. */
  lemma ClosesAfter(recorded: SyncState, coll: CollectionId, cp: Checkpoint)
    requires recorded.pushes == [] && Unmarked(recorded.writes)
    ensures var ops := recorded.writes + [SetCheckpoint(coll, cp)];
            && Closing(ops)
            && (forall answers ::
                  Amounts(Run([WantsWrite(ops)], recorded.report), RecordRest(recorded, answers), coll, cp, []))
  {
    var ops := recorded.writes + [SetCheckpoint(coll, cp)];
    assert ops[..|ops| - 1] == recorded.writes;
    OpsOfWrite(ops, []);
    assert [WantsWrite(ops)] + [] == [WantsWrite(ops)] && ops + [] == ops;
    assert forall answers :: RecordRest(recorded, answers) == recorded;
  }

  /** A chunk pushed, then the write recording it and whatever follows. */
  lemma AmountsAfterPush(s: SyncState, after: Run, u: SyncState, chunk: seq<ChangeKind>, rest: seq<ChangeKind>)
    requires s.nextCheckpoint.Some? && s.pushes == chunk + rest && 0 < |chunk| <= PUSH_CHUNK
    requires rest != [] ==> |chunk| == PUSH_CHUNK
    requires Amounts(after, u, s.collection, s.nextCheckpoint.value, rest)
    requires if rest == [] then |after.asked| == 1 && after.asked[0].WantsWrite? && Closing(after.asked[0].ops)
             else after.asked != [] && after.asked[0].WantsWrite? && Unmarked(after.asked[0].ops)
                  && PushGrammar(after.asked[1..])
    ensures var run := Run([WantsPush(chunk)] + after.asked, after.report);
            && Amounts(run, u, s.collection, s.nextCheckpoint.value, s.pushes)
            && PushGrammar(run.asked)
  {
    var run := Run([WantsPush(chunk)] + after.asked, after.report);
    OpsOfPush(chunk, after.asked);
    assert run.asked[2..] == after.asked[1..] && run.asked[1] == after.asked[0];
    hide Ops, Sent, Unmarked, Closing;
  }

  /** A chunk recorded, and the next one sent only then. */
  lemma {:induction false} PushNext(s: SyncState, v: SyncState, write: Step, recorded: SyncState,
                                    answers: seq<seq<PushResult>>)
    requires Valid(v) && v.phase == PendingWrite && v.pushes != [] && |v.pushes| < |s.pushes|
    requires recorded == Framed(v, recorded.writes, s.merging, s.nextCheckpoint, s.phase)
    requires s.merging.None? && v.collection == s.collection && v.nextCheckpoint == s.nextCheckpoint
    requires write == Yielded(WantsWrite(recorded.writes))
    ensures var after := Follow(v, write, answers);
            && Amounts(after, RecordRest(recorded, answers), s.collection, s.nextCheckpoint.value, v.pushes)
            && after.asked != [] && after.asked[0] == WantsWrite(recorded.writes) && PushGrammar(after.asked[1..])
    decreases |s.pushes|, 0
  {
    assert Bookkept(v) && v.merging.None? && v.inFlight == [] && v.nextCheckpoint.Some? && Unmarked(v.writes);
    PushPhase(v, answers);
    FollowsWrite(v, recorded.writes, answers);
    RecordRestFrame(v, recorded.writes, s.merging, s.nextCheckpoint, s.phase, answers);
    var u := RecordRest(v, answers);
    FramedReads(u, recorded.writes, s.merging, s.nextCheckpoint, s.phase);
    hide *;
    var (w, step) := StepOn(v);
    AmountsAfterWrite(recorded.writes, Follow(w, step, answers), u, RecordRest(recorded, answers), s.collection,
                      s.nextCheckpoint.value, v.pushes);
  }

  /** A recording written, the next chunk taken. */
  lemma FollowsWrite(v: SyncState, ops: seq<WriteOp>, answers: seq<seq<PushResult>>)
    requires Valid(v) && v.phase == PendingWrite && v.pushes != []
    requires var (w, step) := StepOn(v); Valid(w) && Asking(w, step)
    ensures var (w, step) := StepOn(v);
            var rest := Follow(w, step, answers);
            Follow(v, Yielded(WantsWrite(ops)), answers) == Run([WantsWrite(ops)] + rest.asked, rest.report)
  {
    hide Bookkept, Phased, Valid, StepOn;
    ReplyKeeps(v, answers);
  }

  lemma {:induction false} MergePhase(s: SyncState, answers: seq<seq<PushResult>>)
    requires Bookkept(s) && s.merging.Some? && s.nextCheckpoint == None
    requires Unmarked(s.writes) && |s.writes| < WRITE_CHUNK
    ensures var (t, step) := MergeOn(s);
            && Valid(t) && Asking(t, step)
            && (var run := Follow(t, step, answers);
                var all := AbsorbAll(s, Todo(s.merging.value));
                && Amounts(run, RecordRest(all, answers), s.collection, s.merging.value.checkpoint, all.pushes)
                && RunGrammar(run.asked))
    decreases s.merging.value.join.Size(), 1
  {
    MergeOnKeeps(s);
    MergeOnShrinks(s);
    NextCandidateIsPaired(s.merging.value);
    var (next, moved) := NextCandidate(s.merging.value);
    if next.None? {
      MergePhaseEnd(s, answers);
    } else {
      TakesBookkept(s);
    }
    hide Bookkept, Phased, Valid, Asking, Follow, RunGrammar, RecordRest, Amounts, MergeOn, MergeOne, AbsorbAll, Todo;
    if next.Some? { MergePhaseStep(s, next.value, moved, answers); }
  }

  /** The walk run out, the pushes are what is left. */
  lemma MergePhaseEnd(s: SyncState, answers: seq<seq<PushResult>>)
    requires Bookkept(s) && s.merging.Some? && s.nextCheckpoint == None && Unmarked(s.writes)
    requires NextCandidate(s.merging.value).0.None?
    ensures var (t, step) := MergeOn(s);
            && Valid(t) && Asking(t, step)
            && (var run := Follow(t, step, answers);
                var all := AbsorbAll(s, Todo(s.merging.value));
                && Amounts(run, RecordRest(all, answers), s.collection, s.merging.value.checkpoint, all.pushes)
                && RunGrammar(run.asked))
  {
    var u := s.(merging := None, nextCheckpoint := Some(s.merging.value.checkpoint));
    assert u == Framed(s, [], None, u.nextCheckpoint, s.phase);
    assert MergeOn(s) == StepOn(u) && AbsorbAll(s, Todo(s.merging.value)) == s && Bookkept(u);
    hide MergeOn, NextCandidate, Todo, AbsorbAll, Bookkept, Valid, Follow, RecordRest;
    PushPhase(u, answers);
    RecordRestFrame(s, [], None, u.nextCheckpoint, s.phase, answers);
    FramedReads(RecordRest(s, answers), [], None, u.nextCheckpoint, s.phase);
    assert [] + RecordRest(s, answers).writes == RecordRest(s, answers).writes;
  }

  /** Taking one candidate keeps the books, and gathers few writes, none a checkpoint. */
  lemma TakesBookkept(s: SyncState)
    requires Bookkept(s) && s.merging.Some? && Unmarked(s.writes) && NextCandidate(s.merging.value).0.Some?
    ensures var (next, moved) := NextCandidate(s.merging.value);
            var t := Absorb(s.(merging := Some(moved)), MergeOne(s.collection, s.opts, next.value));
            Bookkept(t) && Unmarked(t.writes) && |t.writes| <= |s.writes| + 3
  {
    NextCandidateIsPaired(s.merging.value);
    var (next, moved) := NextCandidate(s.merging.value);
    forall k | k in s.pushes ensures k.handle != next.value.handle { LessIrreflexive(next.value.handle); }
    var u := s.(merging := Some(moved));
    assert Outstanding(u) == Outstanding(s);
    AbsorbKeeps(u, next.value);
    EffectShape(s.collection, s.opts, next.value);
    MergeOneUnmarked(s.collection, s.opts, next.value);
  }

  /** Taking one candidate, the walk aside, is absorbing the first of those left. */
  lemma AbsorbsFirst(s: SyncState, c: Candidate, moved: Merge)
    requires s.merging.Some? && s.nextCheckpoint == None && NextCandidate(s.merging.value) == (Some(c), moved)
    ensures var t := Absorb(s.(merging := Some(moved)), MergeOne(s.collection, s.opts, c));
            AbsorbAll(s, Todo(s.merging.value)) == Framed(AbsorbAll(t, Todo(moved)), [], s.merging, None, s.phase)
  {
    TodoFirst(s.merging.value, c, moved);
    var e := MergeOne(s.collection, s.opts, c);
    AbsorbFramed(s, e, moved);
    AbsorbAllFirst(s, c, Todo(moved));
    hide MergeOne, Absorb, Framed, AbsorbAll, Todo, NextCandidate;
    AbsorbAllFrame(Absorb(s.(merging := Some(moved)), e), [], s.merging, None, s.phase, Todo(moved));
  }

  lemma TodoFirst(merge: Merge, c: Candidate, moved: Merge)
    requires NextCandidate(merge) == (Some(c), moved)
    ensures Todo(merge) == [c] + Todo(moved)
  {
  }

  lemma AbsorbFramed(s: SyncState, e: Effect, moved: Merge)
    requires s.merging.Some? && s.nextCheckpoint == None
    ensures Absorb(s, e) == Framed(Absorb(s.(merging := Some(moved)), e), [], s.merging, None, s.phase)
  {
    var t := Absorb(s.(merging := Some(moved)), e);
    assert [] + t.writes == t.writes;
  }

  lemma AbsorbAllFirst(s: SyncState, c: Candidate, cs: seq<Candidate>)
    ensures AbsorbAll(s, [c] + cs) == AbsorbAll(Absorb(s, MergeOne(s.collection, s.opts, c)), cs)
  {
    hide MergeOne, Absorb;
    assert ([c] + cs)[1..] == cs;
  }

  /** What the merge comes to is what it comes to from its next candidate on. */
  lemma AmountsAlike(s: SyncState, c: Candidate, moved: Merge, answers: seq<seq<PushResult>>)
    requires s.merging.Some? && s.nextCheckpoint == None && NextCandidate(s.merging.value) == (Some(c), moved)
    ensures var t := Absorb(s.(merging := Some(moved)), MergeOne(s.collection, s.opts, c));
            var all, allT := AbsorbAll(s, Todo(s.merging.value)), AbsorbAll(t, Todo(moved));
            forall run, cp :: Amounts(run, RecordRest(allT, answers), s.collection, cp, allT.pushes) ==>
              Amounts(run, RecordRest(all, answers), s.collection, cp, all.pushes)
  {
    hide MergeOne, RecordRest;
    AbsorbsFirst(s, c, moved);
    var t := Absorb(s.(merging := Some(moved)), MergeOne(s.collection, s.opts, c));
    var allT := AbsorbAll(t, Todo(moved));
    RecordRestFrame(allT, [], s.merging, None, s.phase, answers);
    FramedReads(allT, [], s.merging, None, s.phase);
    FramedReads(RecordRest(allT, answers), [], s.merging, None, s.phase);
    assert [] + RecordRest(allT, answers).writes == RecordRest(allT, answers).writes;
  }

  lemma {:induction false} MergePhaseStep(s: SyncState, c: Candidate, moved: Merge, answers: seq<seq<PushResult>>)
    requires s.merging.Some? && s.nextCheckpoint == None
    requires Unmarked(s.writes) && |s.writes| < WRITE_CHUNK
    requires NextCandidate(s.merging.value) == (Some(c), moved)
    requires var t := Absorb(s.(merging := Some(moved)), MergeOne(s.collection, s.opts, c));
             Bookkept(t) && Unmarked(t.writes) && |t.writes| <= |s.writes| + 3
    requires var (t, step) := MergeOn(s); Valid(t) && Asking(t, step)
    ensures var (t, step) := MergeOn(s);
            var run := Follow(t, step, answers);
            var all := AbsorbAll(s, Todo(s.merging.value));
            && Amounts(run, RecordRest(all, answers), s.collection, s.merging.value.checkpoint, all.pushes)
            && RunGrammar(run.asked)
    decreases s.merging.value.join.Size(), 0
  {
    hide Bookkept, Phased, Valid, MergeOne, RunGrammar, RecordRest, Follow, Amounts, AbsorbAll, Todo;
    AmountsAlike(s, c, moved, answers);
    var t := Absorb(s.(merging := Some(moved)), MergeOne(s.collection, s.opts, c));
    if |t.writes| < WRITE_CHUNK {
      assert MergeOn(s) == MergeOn(t);
      MergePhase(t, answers);
    } else {
      assert MergeOn(s) == (t.(phase := Merging, writes := []), Yielded(WantsWrite(t.writes)));
      FlushBatch(s, t, answers);
    }
  }

  /** A full batch handed over, the merge picked up where it stopped. */
  lemma {:induction false} FlushBatch(s: SyncState, t: SyncState, answers: seq<seq<PushResult>>)
    requires s.merging.Some? && t.merging.Some? && t.merging.value.join.Size() < s.merging.value.join.Size()
    requires t.nextCheckpoint == None && t.collection == s.collection
    requires t.merging.value.checkpoint == s.merging.value.checkpoint
    requires Unmarked(t.writes) && WRITE_CHUNK <= |t.writes| <= WRITE_CHUNK + 2
    requires MergeOn(s) == (t.(phase := Merging, writes := []), Yielded(WantsWrite(t.writes)))
    requires Valid(MergeOn(s).0)
    ensures var (u, step) := MergeOn(s);
            var run := Follow(u, step, answers);
            var all := AbsorbAll(t, Todo(t.merging.value));
            && Amounts(run, RecordRest(all, answers), s.collection, s.merging.value.checkpoint, all.pushes)
            && RunGrammar(run.asked)
    decreases s.merging.value.join.Size(), 0, 0
  {
    var (u, step) := MergeOn(s);
    var cs := Todo(t.merging.value);
    assert u.merging == t.merging && u.phase == Merging && Bookkept(u) && u.nextCheckpoint == None && u.writes == [];
    assert Unmarked(u.writes) && |u.writes| < WRITE_CHUNK && u.collection == s.collection;
    assert t == Framed(u, t.writes, t.merging, None, t.phase);
    hide Bookkept, Phased, Valid, MergeOn, Follow, AbsorbAll, RecordRest, Amounts, Todo, Framed, RunGrammar, Unmarked;
    MergePhase(u, answers);
    FollowsBatch(u, t.writes, answers);
    FlushedAlike(u, t, cs, answers);
    var (v, next) := MergeOn(u);
    AmountsAfterWrite(t.writes, Follow(v, next, answers), RecordRest(AbsorbAll(u, cs), answers),
                      RecordRest(AbsorbAll(t, cs), answers), s.collection, s.merging.value.checkpoint,
                      AbsorbAll(u, cs).pushes);
    FlushKeepsGrammar(t.writes, Follow(v, next, answers).asked);
  }

  lemma FlushKeepsGrammar(ops: seq<WriteOp>, rest: seq<Yield>)
    requires Unmarked(ops) && WRITE_CHUNK <= |ops| <= WRITE_CHUNK + 2 && RunGrammar(rest)
    ensures RunGrammar([WantsWrite(ops)] + rest)
  {
    assert ([WantsWrite(ops)] + rest)[1..] == rest;
  }

  /** A batch handed over moves no decision: what is absorbed and recorded after it is the same,
    * behind the writes it took. */
  lemma FlushedAlike(u: SyncState, t: SyncState, cs: seq<Candidate>, answers: seq<seq<PushResult>>)
    requires t == Framed(u, t.writes, t.merging, None, t.phase)
    ensures AbsorbAll(t, cs).pushes == AbsorbAll(u, cs).pushes
    ensures var a, b := RecordRest(AbsorbAll(u, cs), answers), RecordRest(AbsorbAll(t, cs), answers);
            b.writes == t.writes + a.writes && b.report == a.report
  {
    hide Framed, AbsorbAll, RecordRest;
    AbsorbAllFrame(u, t.writes, t.merging, None, t.phase, cs);
    var all := AbsorbAll(u, cs);
    RecordRestFrame(all, t.writes, t.merging, None, t.phase, answers);
    FramedReads(all, t.writes, t.merging, None, t.phase);
    FramedReads(RecordRest(all, answers), t.writes, t.merging, None, t.phase);
  }

  lemma FollowsBatch(u: SyncState, batch: seq<WriteOp>, answers: seq<seq<PushResult>>)
    requires Valid(u) && u.phase == Merging && u.merging.Some?
    requires var (v, next) := MergeOn(u); Valid(v) && Asking(v, next)
    ensures var (v, next) := MergeOn(u);
            var rest := Follow(v, next, answers);
            Follow(u, Yielded(WantsWrite(batch)), answers) == Run([WantsWrite(batch)] + rest.asked, rest.report)
  {
    hide Bookkept, Phased, Valid, MergeOn;
    ReplyKeeps(u, answers);
  }

  /** The machine once the remote has been enumerated, about to merge. */
  function Opened(coll: CollectionId, opts: Options, rows: seq<Placement>, cursor: Option<Checkpoint>,
                  snapshot: Snapshot): SyncState
  {
    OpenMerge(NewSync(coll, opts).(local := Collect(rows),
                                   checkpoint := if opts.full then None else cursor,
                                   phase := PendingEnumerate), snapshot)
  }

  lemma NoneIsOrdered(rows: seq<Placement>, hs: seq<Handle>)
    requires |rows| == 0 && |hs| == 0
    ensures AscendingRows(rows) && Distinct(hs)
  {
  }

  lemma NothingOutstanding(s: SyncState)
    requires s.inFlight == [] && s.pushes == [] && s.pendings == NO_PENDINGS && s.local == []
             && s.report == EMPTY_REPORT
    requires s.merging.Some? ==> Walkable(s.merging.value.join)
    ensures Bookkept(s)
  {
    hide AscendingRows, Distinct;
    assert Outstanding(s) == [] && s.pendings.Domain() == {} && Separate(s.pendings) && Counted(s.report);
    NoneIsOrdered(s.local, Outstanding(s));
    hide Above, Walkable, Separate, Counted, AscendingRows, Distinct, Outstanding;
  }

  lemma OpenedIsBookkept(coll: CollectionId, opts: Options, rows: seq<Placement>, cursor: Option<Checkpoint>,
                         snapshot: Snapshot)
    ensures Bookkept(Opened(coll, opts, rows, cursor, snapshot))
  {
    CollectKeepsOrder(rows);
    NormaliseIsOrderedMap(snapshot.items, Handle([]));
    var s := Opened(coll, opts, rows, cursor, snapshot);
    var join := Join(Collect(rows), Normalise(snapshot.items));
    assert s.merging.value.join == join && Walkable(join);
    NothingOutstanding(s);
  }

  /** The first three resumptions open the merge. */
  lemma OpeningIsValid(coll: CollectionId, opts: Options, rows: seq<Placement>, cursor: Option<Checkpoint>,
                       snapshot: Snapshot)
    ensures var loading := Resume(NewSync(coll, opts), None);
            && loading.1 == Yielded(WantsLoad)
            && (var enumerating := Resume(loading.0, Some(LoadArg(rows, cursor)));
                && enumerating.1 == Yielded(WantsEnumerate(if opts.full then None else cursor))
                && Resumable(enumerating.0)
                && (var merging := Resume(enumerating.0, Some(EnumerateArg(snapshot)));
                    && merging == MergeOn(Opened(coll, opts, rows, cursor, snapshot))
                    && Valid(merging.0) && Asking(merging.0, merging.1)))
  {
    OpenedIsBookkept(coll, opts, rows, cursor, snapshot);
    var s := Opened(coll, opts, rows, cursor, snapshot);
    OpenedGathersNothing(coll, opts, rows, cursor, snapshot);
    hide Bookkept, Phased, Valid, Asking, MergeOn, Follow, RunGrammar, RecordRest, Amounts, AbsorbAll, Todo, Unmarked;
    MergePhase(s, []);
  }

  lemma OpenedGathersNothing(coll: CollectionId, opts: Options, rows: seq<Placement>, cursor: Option<Checkpoint>,
                             snapshot: Snapshot)
    ensures var s := Opened(coll, opts, rows, cursor, snapshot);
            s.merging.Some? && s.nextCheckpoint == None && s.writes == [] && Unmarked(s.writes)
  {
    hide Collect, Normalise;
  }

  /** A run from nothing: load, enumerate, then everything the machine asks for. */
  ghost function RunOf(coll: CollectionId, opts: Options, rows: seq<Placement>, cursor: Option<Checkpoint>,
                       snapshot: Snapshot, answers: seq<seq<PushResult>>): (r: Run)
  {
    var loading := Resume(NewSync(coll, opts), None);
    var enumerating := Resume(loading.0, Some(LoadArg(rows, cursor)));
    OpeningIsValid(coll, opts, rows, cursor, snapshot);
    var merging := Resume(enumerating.0, Some(EnumerateArg(snapshot)));
    var rest := Follow(merging.0, merging.1, answers);
    Run([loading.1.request, enumerating.1.request] + rest.asked, rest.report)
  }

  /** Everything a run does, bounds aside. */
  ghost function Unbounded(coll: CollectionId, opts: Options, rows: seq<Placement>, cursor: Option<Checkpoint>,
                           snapshot: Snapshot, answers: seq<seq<PushResult>>): SyncState
  {
    var s := Opened(coll, opts, rows, cursor, snapshot);
    RecordRest(AbsorbAll(s, Todo(s.merging.value)), answers)
  }

  /** A run asks for a load, an enumeration, then the merge's full batches and either one
    * closing write or alternating pushes and writes. Its checkpoint is the last op of its
    * last write; its writes in order, its pushes in order and its report are those of the
    * unbounded merge and recording. */
  lemma RunIsUnbounded(coll: CollectionId, opts: Options, rows: seq<Placement>, cursor: Option<Checkpoint>,
                       snapshot: Snapshot, answers: seq<seq<PushResult>>)
    ensures var run := RunOf(coll, opts, rows, cursor, snapshot, answers);
            var s := Opened(coll, opts, rows, cursor, snapshot);
            && |run.asked| > 2
            && run.asked[..2] == [WantsLoad, WantsEnumerate(if opts.full then None else cursor)]
            && RunGrammar(run.asked[2..])
            && Ops(run.asked) == Unbounded(coll, opts, rows, cursor, snapshot, answers).writes
                                 + [SetCheckpoint(coll, snapshot.checkpoint)]
            && Sent(run.asked) == AbsorbAll(s, Todo(s.merging.value)).pushes
            && run.report == Unbounded(coll, opts, rows, cursor, snapshot, answers).report
  {
    OpenedIsBookkept(coll, opts, rows, cursor, snapshot);
    OpeningIsValid(coll, opts, rows, cursor, snapshot);
    var s := Opened(coll, opts, rows, cursor, snapshot);
    hide Bookkept;
    MergePhase(s, answers);
    hide Phased, Valid, Asking, MergeOn, RecordRest, AbsorbAll, RunGrammar, Follow;
    var (t, step) := MergeOn(s);
    var rest := Follow(t, step, answers);
    var run := RunOf(coll, opts, rows, cursor, snapshot, answers);
    var opening := [WantsLoad, WantsEnumerate(if opts.full then None else cursor)];
    assert run == Run(opening + rest.asked, rest.report);
    hide RunOf, Resume, Opened;
    assert run.asked[2..] == rest.asked;
    OpeningWritesNothing(opening, rest.asked);
  }

  lemma OpeningWritesNothing(opening: seq<Yield>, rest: seq<Yield>)
    requires |opening| == 2 && opening[0].WantsLoad? && opening[1].WantsEnumerate?
    ensures Ops(opening + rest) == Ops(rest) && Sent(opening + rest) == Sent(rest)
  {
    assert (opening + rest)[1..] == [opening[1]] + rest && ([opening[1]] + rest)[1..] == rest;
  }

  /** The machine's first request once the remote is enumerated. */
  function Begun(coll: CollectionId, opts: Options, listing: seq<Placement>, cursor: Option<Checkpoint>,
                 snapshot: Snapshot): (SyncState, Step)
  {
    MergeOn(Opened(coll, opts, listing, cursor, snapshot))
  }

  lemma RunIsFollow(coll: CollectionId, opts: Options, listing: seq<Placement>, cursor: Option<Checkpoint>,
                    snapshot: Snapshot, answers: seq<seq<PushResult>>)
    ensures var (s, step) := Begun(coll, opts, listing, cursor, snapshot);
            && Valid(s) && Asking(s, step)
            && RunOf(coll, opts, listing, cursor, snapshot, answers).asked
               == [WantsLoad, WantsEnumerate(if opts.full then None else cursor)] + Follow(s, step, answers).asked
  {
    OpeningIsValid(coll, opts, listing, cursor, snapshot);
    hide Follow, MergeOn, Opened, Valid, Asking;
  }
}

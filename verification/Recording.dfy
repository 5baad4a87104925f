/** What is on disk and what is not, at every point of a run, whatever the driver answers. */
module Recording {
  import opened Wrappers
  import opened Placement
  import opened Change
  import opened Remote
  import opened Join
  import opened JoinLaws
  import opened MergeRules
  import opened SyncMachine
  import opened SyncInvariants
  import opened SyncRuns
  import opened Acceptance

  /** Recording the first chunks of a queue with no write in between. */
  ghost function RecordSome(s: SyncState, answers: seq<seq<PushResult>>, n: nat): SyncState
    decreases n
  {
    if n == 0 || s.pushes == [] then s
    else RecordSome(RecordChunk(TakeChunk(s), Answer(answers)), Later(answers), n - 1)
  }

  /** The chunk pushed last and not yet followed by the write recording it. */
  function PushedOnly(ys: seq<Yield>, i: nat): seq<ChangeKind>
    requires i <= |ys|
  {
    if i > 0 && ys[i - 1].WantsPush? then ys[i - 1].changes else []
  }

  /** How many chunks are pushed among some requests. */
  function ChunkCount(ys: seq<Yield>): nat {
    if ys == [] then 0 else (if ys[0].WantsPush? then 1 else 0) + ChunkCount(ys[1..])
  }

  /** How many of them the write after them has recorded. */
  function RecordedChunks(ys: seq<Yield>, i: nat): (n: int)
    requires i <= |ys|
  {
    ChunkCount(ys[..i]) - (if i > 0 && ys[i - 1].WantsPush? then 1 else 0)
  }

  /** Changes pushed and ops written, against a queue recorded so far: the changes are those of the chunks
    * recorded, then at most a chunk; the ops are all that is gathered once some chunk is recorded, part
    * of it before; and the checkpoint only comes once it is all done. */
  ghost predicate Amounting(all: SyncState, u: SyncState, n: int, pending: seq<ChangeKind>, sent: seq<ChangeKind>,
                            ops: seq<WriteOp>, done: bool, mark: WriteOp)
  {
    && |u.pushes| <= |all.pushes| && |pending| <= PUSH_CHUNK && pending <= u.pushes
    && sent == all.pushes[..|all.pushes| - |u.pushes|] + pending
    && (if done then ops == u.writes + [mark] else if n > 0 then ops == u.writes else ops <= u.writes)
  }

  /** What the first requests of a run come to. */
  ghost predicate CutTo(all: SyncState, answers: seq<seq<PushResult>>, ys: seq<Yield>, i: nat, mark: WriteOp) {
    && i <= |ys| && RecordedChunks(ys, i) >= 0
    && Amounting(all, RecordSome(all, answers, RecordedChunks(ys, i)), RecordedChunks(ys, i), PushedOnly(ys, i),
                 Sent(ys[..i]), Ops(ys[..i]), i == |ys|, mark)
  }

  lemma CutIs(all: SyncState, answers: seq<seq<PushResult>>, ys: seq<Yield>, i: nat, mark: WriteOp)
    requires CutTo(all, answers, ys, i, mark)
    ensures i <= |ys| && RecordedChunks(ys, i) >= 0
    ensures Amounting(all, RecordSome(all, answers, RecordedChunks(ys, i)), RecordedChunks(ys, i), PushedOnly(ys, i),
                      Sent(ys[..i]), Ops(ys[..i]), i == |ys|, mark)
  {
  }

  lemma IsCut(all: SyncState, answers: seq<seq<PushResult>>, ys: seq<Yield>, i: nat, mark: WriteOp, u: SyncState,
              n: nat, pending: seq<ChangeKind>, sent: seq<ChangeKind>, ops: seq<WriteOp>, done: bool)
    requires i <= |ys| && n == RecordedChunks(ys, i) && pending == PushedOnly(ys, i)
    requires sent == Sent(ys[..i]) && ops == Ops(ys[..i]) && done == (i == |ys|) && u == RecordSome(all, answers, n)
    requires Amounting(all, u, n, pending, sent, ops, done, mark)
    ensures CutTo(all, answers, ys, i, mark)
  {
  }

  lemma {:induction false} RecordSomeFrame(s: SyncState, w: seq<WriteOp>, m: Option<Merge>, next: Option<Checkpoint>,
                                           ph: Phase, answers: seq<seq<PushResult>>, n: nat)
    ensures RecordSome(Framed(s, w, m, next, ph), answers, n) == Framed(RecordSome(s, answers, n), w, m, next, ph)
    decreases n
  {
    FramedPushes(s, w, m, next, ph);
    if n > 0 && s.pushes != [] {
      hide *;
      RecordChunkFrame(s, w, m, next, ph, Answer(answers));
      SomeUnfolds(s, answers, n - 1);
      SomeUnfolds(Framed(s, w, m, next, ph), answers, n - 1);
      RecordSomeFrame(RecordChunk(TakeChunk(s), Answer(answers)), w, m, next, ph, Later(answers), n - 1);
    } else {
      hide Framed, RecordChunk, TakeChunk;
    }
  }

  lemma NothingCut(all: SyncState, answers: seq<seq<PushResult>>, ys: seq<Yield>, mark: WriteOp)
    requires ys != []
    ensures CutTo(all, answers, ys, 0, mark)
  {
    assert ys[..0] == [];
  }

  lemma PrefixOfCons(y: Yield, ys: seq<Yield>, i: nat)
    requires i <= |ys|
    ensures ([y] + ys)[..i + 1] == [y] + ys[..i]
    ensures ChunkCount([y] + ys[..i]) == (if y.WantsPush? then 1 else 0) + ChunkCount(ys[..i])
  {
    assert ([y] + ys[..i])[1..] == ys[..i];
  }

  lemma WriteInFront(ops: seq<WriteOp>, ys: seq<Yield>, i: nat)
    requires i <= |ys| && RecordedChunks(ys, i) >= 0
    ensures var zs := [WantsWrite(ops)] + ys;
            && Sent(zs[..i + 1]) == Sent(ys[..i]) && Ops(zs[..i + 1]) == ops + Ops(ys[..i])
            && PushedOnly(zs, i + 1) == PushedOnly(ys, i) && RecordedChunks(zs, i + 1) == RecordedChunks(ys, i)
  {
    var zs := [WantsWrite(ops)] + ys;
    PrefixOfCons(WantsWrite(ops), ys, i);
    OpsOfWrite(ops, ys[..i]);
    assert if i > 0 then zs[i] == ys[i - 1] else zs[i] == WantsWrite(ops);
    hide Ops, Sent, ChunkCount;
  }

  lemma FramedAmounts(a: SyncState, u: SyncState, b: SyncState, framed: SyncState, n: int, pending: seq<ChangeKind>,
                      sent: seq<ChangeKind>, ops: seq<WriteOp>, done: bool, w: seq<WriteOp>, mark: WriteOp)
    requires Amounting(a, u, n, pending, sent, ops, done, mark)
    requires b.pushes == a.pushes && framed.pushes == u.pushes && framed.writes == w + u.writes
    ensures Amounting(b, framed, n, pending, sent, w + ops, done, mark)
  {
    assert w + (u.writes + [mark]) == (w + u.writes) + [mark];
  }

  /** The same machine with fields no decision reads replaced is cut alike, behind the writes it had. */
  lemma CutAfterWrite(a: SyncState, w: seq<WriteOp>, m: Option<Merge>, next: Option<Checkpoint>, ph: Phase,
                      answers: seq<seq<PushResult>>, ys: seq<Yield>, i: nat, mark: WriteOp)
    requires CutTo(a, answers, ys, i, mark)
    ensures CutTo(Framed(a, w, m, next, ph), answers, [WantsWrite(w)] + ys, i + 1, mark)
  {
    hide *;
    CutIs(a, answers, ys, i, mark);
    var n := RecordedChunks(ys, i);
    var u := RecordSome(a, answers, n);
    WriteInFront(w, ys, i);
    RecordSomeFrame(a, w, m, next, ph, answers, n);
    FramedReads(u, w, m, next, ph);
    FramedReads(a, w, m, next, ph);
    var b, framed := Framed(a, w, m, next, ph), Framed(u, w, m, next, ph);
    FramedAmounts(a, u, b, framed, n, PushedOnly(ys, i), Sent(ys[..i]), Ops(ys[..i]), i == |ys|, w, mark);
    IsCut(b, answers, [WantsWrite(w)] + ys, i + 1, mark, framed, n, PushedOnly(ys, i), Sent(ys[..i]), w + Ops(ys[..i]),
          i == |ys|);
  }

  lemma CutFramed(a: SyncState, m: Option<Merge>, next: Option<Checkpoint>, ph: Phase, answers: seq<seq<PushResult>>,
                  ys: seq<Yield>, i: nat, mark: WriteOp)
    requires CutTo(a, answers, ys, i, mark)
    ensures CutTo(Framed(a, [], m, next, ph), answers, ys, i, mark)
  {
    hide *;
    CutIs(a, answers, ys, i, mark);
    var n := RecordedChunks(ys, i);
    var u := RecordSome(a, answers, n);
    RecordSomeFrame(a, [], m, next, ph, answers, n);
    FramedReads(u, [], m, next, ph);
    FramedReads(a, [], m, next, ph);
    var b, framed := Framed(a, [], m, next, ph), Framed(u, [], m, next, ph);
    FramedAmounts(a, u, b, framed, n, PushedOnly(ys, i), Sent(ys[..i]), Ops(ys[..i]), i == |ys|, [], mark);
    NothingInFront(Ops(ys[..i]));
    IsCut(b, answers, ys, i, mark, framed, n, PushedOnly(ys, i), Sent(ys[..i]), [] + Ops(ys[..i]), i == |ys|);
  }

  lemma NothingInFront(ops: seq<WriteOp>)
    ensures [] + ops == ops
  {
  }

  /** A chunk pushed, and the closing write recording it. */
  lemma LastChunkCut(s: SyncState, answers: seq<seq<PushResult>>, mark: WriteOp)
    requires s.pushes != [] && RecordChunk(TakeChunk(s), Answer(answers)).pushes == []
    ensures var recorded := RecordChunk(TakeChunk(s), Answer(answers));
            CutTo(s, answers, [WantsPush(s.pushes[..ChunkSize(s)]), WantsWrite(recorded.writes + [mark])], 2, mark)
  {
    var chunk := s.pushes[..ChunkSize(s)];
    var recorded := RecordChunk(TakeChunk(s), Answer(answers));
    var ops := recorded.writes + [mark];
    var ys := [WantsPush(chunk), WantsWrite(ops)];
    RecordedOnce(s, answers);
    assert recorded.pushes == s.pushes[ChunkSize(s)..];
    hide RecordChunk, TakeChunk, RecordSome;
    TwoRequests(chunk, ops);
    assert s.pushes[..|s.pushes|] == chunk;
  }

  lemma TwoRequests(chunk: seq<ChangeKind>, ops: seq<WriteOp>)
    ensures var ys := [WantsPush(chunk), WantsWrite(ops)];
            && ys[..2] == ys && Sent(ys) == chunk && Ops(ys) == ops
            && PushedOnly(ys, 2) == [] && RecordedChunks(ys, 2) == 1
  {
    var ys := [WantsPush(chunk), WantsWrite(ops)];
    assert ys == [WantsPush(chunk)] + ([WantsWrite(ops)] + []);
    OpsOfPush(chunk, [WantsWrite(ops)] + []);
    OpsOfWrite(ops, []);
    assert ys[..2] == ys && ys[1..] == [WantsWrite(ops)] && [WantsWrite(ops)][1..] == [];
    assert ChunkCount([WantsWrite(ops)]) == 0;
  }

  lemma RecordedOnce(s: SyncState, answers: seq<seq<PushResult>>)
    requires s.pushes != []
    ensures RecordSome(s, answers, 1) == RecordChunk(TakeChunk(s), Answer(answers))
  {
    hide RecordChunk, TakeChunk;
    assert forall t, a :: RecordSome(t, a, 0) == t;
  }

  /** What a push and the write recording it add in front of the requests after them. */
  lemma ChunkInFront(chunk: seq<ChangeKind>, ops: seq<WriteOp>, rest: seq<Yield>, i: nat)
    requires 2 <= i <= |rest| + 2 && RecordedChunks(rest, i - 2) >= 0
    ensures var ys := [WantsPush(chunk), WantsWrite(ops)] + rest;
            && Sent(ys[..i]) == chunk + Sent(rest[..i - 2]) && Ops(ys[..i]) == ops + Ops(rest[..i - 2])
            && PushedOnly(ys, i) == PushedOnly(rest, i - 2)
            && RecordedChunks(ys, i) == RecordedChunks(rest, i - 2) + 1
  {
    var inner := [WantsWrite(ops)] + rest;
    var ys := [WantsPush(chunk), WantsWrite(ops)] + rest;
    assert ys == [WantsPush(chunk)] + inner;
    PrefixOfCons(WantsPush(chunk), inner, i - 1);
    PrefixOfCons(WantsWrite(ops), rest, i - 2);
    OpsOfPush(chunk, inner[..i - 1]);
    OpsOfWrite(ops, rest[..i - 2]);
    assert if i > 2 then ys[i - 1] == rest[i - 3] else ys[i - 1] == WantsWrite(ops);
    hide Ops, Sent, ChunkCount;
  }

  lemma ChunkThenCut(s: SyncState, answers: seq<seq<PushResult>>, recorded: SyncState, v: SyncState, m: Option<Merge>,
                     next: Option<Checkpoint>, ph: Phase, rest: seq<Yield>, i: nat, mark: WriteOp)
    requires s.pushes != [] && 2 <= i <= |rest| + 2
    requires recorded == RecordChunk(TakeChunk(s), Answer(answers)) && recorded.pushes == s.pushes[ChunkSize(s)..]
    requires recorded == Framed(v, recorded.writes, m, next, ph) && v.writes == []
    requires CutTo(v, Later(answers), rest, i - 2, mark)
    ensures CutTo(s, answers, [WantsPush(s.pushes[..ChunkSize(s)]), WantsWrite(recorded.writes)] + rest, i, mark)
  {
    hide *;
    CutIs(v, Later(answers), rest, i - 2, mark);
    var n := RecordedChunks(rest, i - 2);
    var u := RecordSome(v, Later(answers), n);
    var w := recorded.writes;
    NoneRecorded(v, Later(answers));
    FramedPushes(v, w, m, next, ph);
    SomeUnfolds(s, answers, n);
    ChunkInFront(s.pushes[..ChunkSize(s)], w, rest, i);
    RecordSomeFrame(v, w, m, next, ph, Later(answers), n);
    FramedReads(u, w, m, next, ph);
    var framed := Framed(u, w, m, next, ph);
    ChunkAmounts(s, v, u, framed, n, PushedOnly(rest, i - 2), Sent(rest[..i - 2]), Ops(rest[..i - 2]), i - 2 == |rest|,
                 w, mark);
    IsCut(s, answers, [WantsPush(s.pushes[..ChunkSize(s)]), WantsWrite(w)] + rest, i, mark, framed, n + 1,
          PushedOnly(rest, i - 2), s.pushes[..ChunkSize(s)] + Sent(rest[..i - 2]), w + Ops(rest[..i - 2]),
          i - 2 == |rest|);
  }

  lemma NoneRecorded(v: SyncState, answers: seq<seq<PushResult>>)
    ensures RecordSome(v, answers, 0) == v
  {
  }

  lemma SomeUnfolds(s: SyncState, answers: seq<seq<PushResult>>, n: nat)
    requires s.pushes != []
    ensures RecordSome(s, answers, n + 1) == RecordSome(RecordChunk(TakeChunk(s), Answer(answers)), Later(answers), n)
  {
    hide RecordChunk, TakeChunk;
  }

  lemma ChunkAmounts(s: SyncState, v: SyncState, u: SyncState, framed: SyncState, n: int, pending: seq<ChangeKind>,
                     sent: seq<ChangeKind>, ops: seq<WriteOp>, done: bool, w: seq<WriteOp>, mark: WriteOp)
    requires s.pushes != [] && v.pushes == s.pushes[ChunkSize(s)..] && v.writes == []
    requires Amounting(v, u, n, pending, sent, ops, done, mark) && n >= 0 && (n == 0 ==> u == v)
    requires framed.pushes == u.pushes && framed.writes == w + u.writes
    ensures Amounting(s, framed, n + 1, pending, s.pushes[..ChunkSize(s)] + sent, w + ops, done, mark)
  {
    hide ChunkSize;
    ChunkThenPending(s.pushes, ChunkSize(s), |u.pushes|, pending);
    WritesThen(w, u.writes, ops, done, n > 0, mark);
  }

  /** Ops written behind others, a part of what is gathered behind those. */
  lemma WritesThen(w: seq<WriteOp>, gathered: seq<WriteOp>, ops: seq<WriteOp>, done: bool, recorded: bool,
                   mark: WriteOp)
    requires if done then ops == gathered + [mark] else if recorded then ops == gathered else ops <= gathered
    requires !recorded ==> gathered == []
    ensures if done then w + ops == w + gathered + [mark] else w + ops == w + gathered
  {
    assert w + (gathered + [mark]) == (w + gathered) + [mark];
  }

  lemma ChunkThenPending(ks: seq<ChangeKind>, c: nat, left: nat, pending: seq<ChangeKind>)
    requires c + left <= |ks|
    ensures ks[..c] + (ks[c..][..|ks| - c - left] + pending) == ks[..|ks| - left] + pending
  {
    assert ks[c..][..|ks| - c - left] == ks[c..|ks| - left];
    assert ks[..c] + ks[c..|ks| - left] == ks[..|ks| - left];
  }

  /** A queue, cut anywhere. */
  lemma {:induction false} PushCut(s: SyncState, answers: seq<seq<PushResult>>, i: nat)
    requires Bookkept(s) && s.merging.None? && s.inFlight == [] && s.nextCheckpoint.Some? && Unmarked(s.writes)
    requires s.pushes != []
    requires var (t, step) := StepOn(s); Valid(t) && Asking(t, step) && i <= |Follow(t, step, answers).asked|
    ensures var (t, step) := StepOn(s);
            CutTo(s, answers, Follow(t, step, answers).asked, i, SetCheckpoint(s.collection, s.nextCheckpoint.value))
    decreases |s.pushes|
  {
    hide *;
    ChunkIsRecorded(s, answers);
    ChunkFollows(s, answers);
    ChunkUnmarked(s, Answer(answers));
    var (t, step) := StepOn(s);
    var mark := SetCheckpoint(s.collection, s.nextCheckpoint.value);
    var recorded := RecordChunk(TakeChunk(s), Answer(answers));
    PushingResumes(t);
    var (v, write) := Resume(t, Some(PushArg(Answer(answers))));
    var after := Follow(v, write, Later(answers)).asked;
    if i == 0 {
      NothingCut(s, answers, [WantsPush(s.pushes[..ChunkSize(s)])] + after, mark);
    } else if i == 1 {
      FollowsSomething(v, write, Later(answers));
      OneCut(s, answers, after, mark);
    } else if v.pushes == [] {
      CloseRun(v, write, recorded.writes + [mark], Later(answers));
      TwoIsLast(s.pushes[..ChunkSize(s)], recorded.writes + [mark]);
      LastChunkCut(s, answers, mark);
    } else {
      NextChunkCut(s, v, write, recorded, answers, i);
    }
  }

  lemma PushingResumes(t: SyncState)
    requires t.phase == PendingPush
    ensures Resumable(t)
  {
  }

  lemma TwoIsLast(chunk: seq<ChangeKind>, ops: seq<WriteOp>)
    ensures [WantsPush(chunk)] + [WantsWrite(ops)] == [WantsPush(chunk), WantsWrite(ops)]
  {
  }

  lemma FollowsSomething(v: SyncState, write: Step, answers: seq<seq<PushResult>>)
    requires Valid(v) && Asking(v, write) && write.Yielded?
    ensures Follow(v, write, answers).asked != []
  {
    hide Bookkept, Phased, Resume, Measure;
  }

  lemma OneCut(s: SyncState, answers: seq<seq<PushResult>>, after: seq<Yield>, mark: WriteOp)
    requires s.pushes != [] && after != []
    ensures CutTo(s, answers, [WantsPush(s.pushes[..ChunkSize(s)])] + after, 1, mark)
  {
    var chunk := s.pushes[..ChunkSize(s)];
    var ys := [WantsPush(chunk)] + after;
    assert ys[..1] == [WantsPush(chunk)] + [];
    OpsOfPush(chunk, []);
    assert [WantsPush(chunk)][1..] == [];
    assert ChunkCount(ys[..1]) == 1;
    assert s.pushes[..0] + chunk == chunk;
  }

  lemma {:induction false} NextChunkCut(s: SyncState, v: SyncState, write: Step, recorded: SyncState,
                                        answers: seq<seq<PushResult>>, i: nat)
    requires s.pushes != [] && s.merging.None? && s.nextCheckpoint.Some?
    requires recorded == RecordChunk(TakeChunk(s), Answer(answers)) && recorded.pushes == s.pushes[ChunkSize(s)..]
    requires Valid(v) && v.phase == PendingWrite && v.pushes != [] && |v.pushes| < |s.pushes| && Asking(v, write)
    requires recorded == Framed(v, recorded.writes, s.merging, s.nextCheckpoint, s.phase)
    requires v.collection == s.collection && v.nextCheckpoint == s.nextCheckpoint
    requires write == Yielded(WantsWrite(recorded.writes))
    requires 2 <= i <= 1 + |Follow(v, write, Later(answers)).asked|
    ensures CutTo(s, answers, [WantsPush(s.pushes[..ChunkSize(s)])] + Follow(v, write, Later(answers)).asked, i,
                  SetCheckpoint(s.collection, s.nextCheckpoint.value))
    decreases |s.pushes|, 0
  {
    WritingIsIdle(v);
    hide *;
    PushPhase(v, Later(answers));
    FollowsWrite(v, recorded.writes, Later(answers));
    var (w, step) := StepOn(v);
    var rest := Follow(w, step, Later(answers)).asked;
    var chunk := s.pushes[..ChunkSize(s)];
    var mark := SetCheckpoint(s.collection, s.nextCheckpoint.value);
    assert [WantsPush(chunk)] + ([WantsWrite(recorded.writes)] + rest)
           == [WantsPush(chunk), WantsWrite(recorded.writes)] + rest;
    PushCut(v, Later(answers), i - 2);
    ChunkThenCut(s, answers, recorded, v, s.merging, s.nextCheckpoint, s.phase, rest, i, mark);
  }

  lemma WritingIsIdle(v: SyncState)
    requires Valid(v) && v.phase == PendingWrite && v.pushes != []
    ensures Bookkept(v) && v.merging.None? && v.inFlight == [] && v.nextCheckpoint.Some? && v.writes == []
            && Unmarked(v.writes)
  {
    hide Bookkept;
  }

  /** A machine with nothing to push closes with one write. */
  lemma CloseCut(s: SyncState, answers: seq<seq<PushResult>>, mark: WriteOp, i: nat)
    requires s.pushes == [] && i <= 1
    ensures CutTo(s, answers, [WantsWrite(s.writes + [mark])], i, mark)
  {
    var ys := [WantsWrite(s.writes + [mark])];
    if i == 0 {
      NothingCut(s, answers, ys, mark);
    } else {
      assert ys[..1] == [WantsWrite(s.writes + [mark])] + [];
      OpsOfWrite(s.writes + [mark], []);
      assert (s.writes + [mark]) + [] == s.writes + [mark];
    }
  }

  /** A merge and its pushes, cut anywhere. */
  lemma {:induction false} MergeCut(s: SyncState, answers: seq<seq<PushResult>>, i: nat)
    requires Bookkept(s) && s.merging.Some? && s.nextCheckpoint == None
    requires Unmarked(s.writes) && |s.writes| < WRITE_CHUNK
    requires var (t, step) := MergeOn(s); Valid(t) && Asking(t, step) && i <= |Follow(t, step, answers).asked|
    ensures var (t, step) := MergeOn(s);
            CutTo(AbsorbAll(s, Todo(s.merging.value)), answers, Follow(t, step, answers).asked, i,
                  SetCheckpoint(s.collection, s.merging.value.checkpoint))
    decreases s.merging.value.join.Size(), 1
  {
    NextCandidateIsPaired(s.merging.value);
    var (next, moved) := NextCandidate(s.merging.value);
    if next.None? {
      LastCut(s, answers, i);
    } else {
      TakesBookkept(s);
      hide Bookkept, Phased, Valid, Asking, Follow, CutTo, MergeOn, MergeOne, AbsorbAll, Todo;
      MergeCutStep(s, next.value, moved, answers, i);
    }
  }

  lemma LastCut(s: SyncState, answers: seq<seq<PushResult>>, i: nat)
    requires Bookkept(s) && s.merging.Some? && s.nextCheckpoint == None && Unmarked(s.writes)
    requires NextCandidate(s.merging.value).0.None?
    requires var (t, step) := MergeOn(s); Valid(t) && Asking(t, step) && i <= |Follow(t, step, answers).asked|
    ensures var (t, step) := MergeOn(s);
            CutTo(AbsorbAll(s, Todo(s.merging.value)), answers, Follow(t, step, answers).asked, i,
                  SetCheckpoint(s.collection, s.merging.value.checkpoint))
  {
    var u := s.(merging := None, nextCheckpoint := Some(s.merging.value.checkpoint));
    var mark := SetCheckpoint(s.collection, s.merging.value.checkpoint);
    assert MergeOn(s) == StepOn(u) && AbsorbAll(s, Todo(s.merging.value)) == s;
    assert s == Framed(u, [], s.merging, None, s.phase);
    var (t, step) := StepOn(u);
    if s.pushes == [] {
      assert step == Yielded(WantsWrite(s.writes + [mark]));
      CloseRun(t, step, s.writes + [mark], answers);
      CloseCut(u, answers, mark, i);
    } else {
      assert Bookkept(u);
      PushCut(u, answers, i);
    }
    hide CutTo, Framed, Bookkept, Follow, StepOn, MergeOn, AbsorbAll;
    CutFramed(u, s.merging, None, s.phase, answers, Follow(t, step, answers).asked, i, mark);
  }

  lemma {:induction false} MergeCutStep(s: SyncState, c: Candidate, moved: Merge, answers: seq<seq<PushResult>>, i: nat)
    requires s.merging.Some? && s.nextCheckpoint == None
    requires Unmarked(s.writes) && |s.writes| < WRITE_CHUNK
    requires NextCandidate(s.merging.value) == (Some(c), moved)
    requires var t := Absorb(s.(merging := Some(moved)), MergeOne(s.collection, s.opts, c));
             Bookkept(t) && Unmarked(t.writes) && |t.writes| <= |s.writes| + 3
    requires var (t, step) := MergeOn(s); Valid(t) && Asking(t, step) && i <= |Follow(t, step, answers).asked|
    ensures var (t, step) := MergeOn(s);
            CutTo(AbsorbAll(s, Todo(s.merging.value)), answers, Follow(t, step, answers).asked, i,
                  SetCheckpoint(s.collection, s.merging.value.checkpoint))
    decreases s.merging.value.join.Size(), 0
  {
    hide Bookkept, Phased, Valid, MergeOne, Follow, CutTo;
    AbsorbsFirst(s, c, moved);
    var t := Absorb(s.(merging := Some(moved)), MergeOne(s.collection, s.opts, c));
    var all := AbsorbAll(t, Todo(moved));
    var mark := SetCheckpoint(s.collection, s.merging.value.checkpoint);
    var (u, step) := MergeOn(s);
    if |t.writes| < WRITE_CHUNK {
      assert MergeOn(s) == MergeOn(t);
      MergeCut(t, answers, i);
    } else {
      assert MergeOn(s) == (t.(phase := Merging, writes := []), Yielded(WantsWrite(t.writes)));
      FlushCut(s, t, answers, i);
    }
    hide MergeOn, Framed, AbsorbAll;
    CutFramed(all, s.merging, None, s.phase, answers, Follow(u, step, answers).asked, i, mark);
  }

  /** A full batch handed over, the merge picked up where it stopped. */
  lemma {:induction false} FlushCut(s: SyncState, t: SyncState, answers: seq<seq<PushResult>>, i: nat)
    requires s.merging.Some? && t.merging.Some? && t.merging.value.join.Size() < s.merging.value.join.Size()
    requires t.nextCheckpoint == None && t.collection == s.collection
    requires t.merging.value.checkpoint == s.merging.value.checkpoint && Unmarked(t.writes)
    requires MergeOn(s) == (t.(phase := Merging, writes := []), Yielded(WantsWrite(t.writes)))
    requires Valid(MergeOn(s).0) && Asking(MergeOn(s).0, MergeOn(s).1)
    requires i <= |Follow(MergeOn(s).0, MergeOn(s).1, answers).asked|
    ensures var (u, step) := MergeOn(s);
            CutTo(AbsorbAll(t, Todo(t.merging.value)), answers, Follow(u, step, answers).asked, i,
                  SetCheckpoint(s.collection, s.merging.value.checkpoint))
    decreases s.merging.value.join.Size(), 0, 0
  {
    var (u, step) := MergeOn(s);
    var cs := Todo(t.merging.value);
    var mark := SetCheckpoint(s.collection, s.merging.value.checkpoint);
    assert u.merging == t.merging && u.phase == Merging && Bookkept(u) && u.nextCheckpoint == None && u.writes == [];
    assert Unmarked(u.writes) && |u.writes| < WRITE_CHUNK && u.collection == s.collection;
    assert t == Framed(u, t.writes, t.merging, None, t.phase);
    hide Bookkept, Phased, Valid, MergeOn, Follow, AbsorbAll, CutTo, Todo, Framed, Unmarked;
    MergePhase(u, answers);
    FollowsBatch(u, t.writes, answers);
    AbsorbAllFrame(u, t.writes, t.merging, None, t.phase, cs);
    var (v, next) := MergeOn(u);
    var rest := Follow(v, next, answers).asked;
    NeverEmpty(rest);
    if i == 0 {
      NothingCut(AbsorbAll(t, cs), answers, [WantsWrite(t.writes)] + rest, mark);
    } else {
      MergeCut(u, answers, i - 1);
      CutAfterWrite(AbsorbAll(u, cs), t.writes, t.merging, None, t.phase, answers, rest, i - 1, mark);
    }
  }

  lemma NeverEmpty(ys: seq<Yield>)
    requires RunGrammar(ys)
    ensures ys != []
  {
  }

  /** At every point of every run, whatever the driver answers: all that was pushed is what is recorded,
    * and at most one chunk more. What is on disk is the merge and the recordings of exactly the chunks
    * recorded, or part of the merge before any is; the checkpoint moves with the last of it and never
    * before. With no chunk left, that is all an unbounded run writes. */
  lemma OneChunkUnrecorded(coll: CollectionId, opts: Options, listing: seq<Placement>, cursor: Option<Checkpoint>,
                           snapshot: Snapshot, answers: seq<seq<PushResult>>, i: nat)
    requires 2 <= i <= |RunOf(coll, opts, listing, cursor, snapshot, answers).asked|
    ensures CutTo(Merged(coll, opts, listing, cursor, snapshot), answers,
                  RunOf(coll, opts, listing, cursor, snapshot, answers).asked[2..], i - 2,
                  SetCheckpoint(coll, snapshot.checkpoint))
    ensures var all := Merged(coll, opts, listing, cursor, snapshot);
            var asked := RunOf(coll, opts, listing, cursor, snapshot, answers).asked[2..];
            var u := RecordSome(all, answers, RecordedChunks(asked, i - 2));
            u.pushes == [] ==> u == RecordRest(all, answers)
  {
    hide *;
    OpenedIsBookkept(coll, opts, listing, cursor, snapshot);
    OpenedGathersNothing(coll, opts, listing, cursor, snapshot);
    OpenedReads(coll, opts, listing, cursor, snapshot);
    MergedIsAll(coll, opts, listing, cursor, snapshot);
    RunIsFollow(coll, opts, listing, cursor, snapshot, answers);
    var s := Opened(coll, opts, listing, cursor, snapshot);
    var (t, step) := MergeOn(s);
    var opening := [WantsLoad, WantsEnumerate(if opts.full then None else cursor)];
    assert (opening + Follow(t, step, answers).asked)[2..] == Follow(t, step, answers).asked;
    MergeCut(s, answers, i - 2);
    var all, asked := Merged(coll, opts, listing, cursor, snapshot), Follow(t, step, answers).asked;
    CutIs(all, answers, asked, i - 2, SetCheckpoint(coll, snapshot.checkpoint));
    RecordingAll(all, answers, RecordedChunks(asked, i - 2));
  }

  lemma MergedIsAll(coll: CollectionId, opts: Options, listing: seq<Placement>, cursor: Option<Checkpoint>,
                    snapshot: Snapshot)
    ensures var s := Opened(coll, opts, listing, cursor, snapshot);
            && s.merging.Some?
            && Merged(coll, opts, listing, cursor, snapshot) == AbsorbAll(s, Todo(s.merging.value))
            && Begun(coll, opts, listing, cursor, snapshot) == MergeOn(s)
  {
    hide AbsorbAll, Todo, MergeOn;
  }

  lemma OpenedReads(coll: CollectionId, opts: Options, listing: seq<Placement>, cursor: Option<Checkpoint>,
                    snapshot: Snapshot)
    ensures var s := Opened(coll, opts, listing, cursor, snapshot);
            && s.collection == coll && s.merging.Some? && s.merging.value.checkpoint == snapshot.checkpoint
            && |s.writes| < WRITE_CHUNK
  {
    hide Collect, Normalise;
  }

  /** With every chunk recorded, that is the whole recording. */
  lemma {:induction false} RecordingAll(s: SyncState, answers: seq<seq<PushResult>>, n: nat)
    ensures |RecordSome(s, answers, n).pushes| + n <= |s.pushes| || RecordSome(s, answers, n).pushes == []
    ensures RecordSome(s, answers, n).pushes == [] ==> RecordSome(s, answers, n) == RecordRest(s, answers)
    decreases n
  {
    if n == 0 {
      NoneRecorded(s, answers);
    } else if s.pushes != [] {
      hide *;
      TakesSome(s, answers);
      SomeUnfolds(s, answers, n - 1);
      RestUnfolds(s, answers);
      RecordingAll(RecordChunk(TakeChunk(s), Answer(answers)), Later(answers), n - 1);
    }
  }

  lemma TakesSome(s: SyncState, answers: seq<seq<PushResult>>)
    requires s.pushes != []
    ensures |RecordChunk(TakeChunk(s), Answer(answers)).pushes| < |s.pushes|
  {
    hide RecordAll;
  }
}

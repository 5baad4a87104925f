/** A remote that accepts every push, and what a run against it writes. */
module Acceptance {
  import opened Wrappers
  import opened Placement
  import opened Change
  import opened Remote
  import opened Join
  import opened JoinLaws
  import opened MergeRules
  import opened SyncMachine
  import opened SyncInvariants
  import opened SyncRuns
  import opened DeltaSync
  import opened Storage
  import opened NoLoss

  /** An item as its remote holds it; one whose content never changes has no revision. */
  datatype Member = Member(flags: Flags, revision: Option<Revision>, body: Option<Hash>)

  type Server = map<Handle, Member>

  /** What a server reports back about the change of a handle: the handle its create is assigned, and
    * the revision its content is stamped with. */
  datatype Mint = Mint(name: Handle -> Option<Handle>, stamp: Handle -> Option<Revision>) {
    /** Whether the create of one handle is assigned another. */
    predicate Names(g: Handle, h: Handle) {
      name(g).Some? && name(g).value == h
    }
  }

  function ResultOf(k: ChangeKind, mint: Mint): PushResult {
    PushResult(k.handle, Accepted, if k.Add? then mint.name(k.handle) else None, mint.stamp(k.handle))
  }

  function Results(ks: seq<ChangeKind>, mint: Mint): (r: seq<PushResult>)
    ensures |r| == |ks|
    ensures forall i :: 0 <= i < |ks| ==> r[i] == ResultOf(ks[i], mint)
  {
    seq(|ks|, i requires 0 <= i < |ks| => ResultOf(ks[i], mint))
  }

  /** The handles an accepted change touches. */
  function Reach(k: ChangeKind, mint: Mint): set<Handle> {
    {k.handle} + (if k.Add? && mint.name(k.handle).Some? then {mint.name(k.handle).value} else {})
  }

  /** What an accepted change does on the server. A flag set or a body for a gone member lands nowhere,
    * and a removal of one already landed. */
  function ServeOne(server: Server, k: ChangeKind, mint: Mint): Server {
    match k
    case Add(h, _, flags, _, body) =>
      if mint.name(h).Some? then server[mint.name(h).value := Member(flags, mint.stamp(h), body)] else server
    case Remove(h, _, _, _) => server - {h}
    case SetFlags(h, flags) => if h in server then server[h := server[h].(flags := flags)] else server
    case Update(h, hash, _) => if h in server then server[h := Member(server[h].flags, mint.stamp(h), Some(hash))]
      else server
  }

  function Serve(server: Server, ks: seq<ChangeKind>, mint: Mint): Server
    decreases |ks|
  {
    if ks == [] then server else Serve(ServeOne(server, ks[0], mint), ks[1..], mint)
  }

  /** The answers of a server accepting each chunk it is handed. */
  ghost function Accepting(ys: seq<Yield>, mint: Mint): seq<seq<PushResult>> {
    if ys == [] then []
    else (if ys[0].WantsPush? then [Results(ys[0].changes, mint)] else []) + Accepting(ys[1..], mint)
  }

  function MemberAt(server: Server, h: Handle): Option<Member> {
    if h in server then Some(server[h]) else None
  }

  /** A member as its server lists it. */
  function Listing(h: Handle, m: Option<Member>): Option<RemoteItem> {
    if m.Some? then Some(RemoteItem(h, m.value.flags, m.value.revision)) else None
  }

  /** A complete enumeration of the server. */
  ghost predicate Shows(snapshot: Snapshot, server: Server) {
    snapshot.complete && forall h :: ItemAt(snapshot.items, h) == Listing(h, MemberAt(server, h))
  }

  /** The change pushed for a handle. */
  function PushAt(ks: seq<ChangeKind>, h: Handle): (r: Option<ChangeKind>)
    ensures r.Some? ==> r.value in ks && r.value.handle == h
    ensures r.None? ==> forall k :: k in ks ==> k.handle != h
  {
    if ks == [] then None else if ks[0].handle == h then Some(ks[0]) else PushAt(ks[1..], h)
  }

  lemma DistinctTail(ks: seq<ChangeKind>)
    requires Distinct(Handles(ks)) && ks != []
    ensures Distinct(Handles(ks[1..])) && PushAt(ks[1..], ks[0].handle) == None
    ensures Handles(ks)[1..] == Handles(ks[1..])
  {
    var hs := Handles(ks);
    assert hs[1..] == Handles(ks[1..]);
    forall i | 0 <= i < |ks[1..]| ensures ks[1..][i].handle != ks[0].handle {
      assert hs[0] != hs[i + 1];
    }
  }

  lemma {:induction false} PushFound(ks: seq<ChangeKind>, k: ChangeKind)
    requires Distinct(Handles(ks)) && k in ks
    ensures PushAt(ks, k.handle) == Some(k)
  {
    if ks[0] != k {
      DistinctTail(ks);
      assert k in ks[1..];
      PushFound(ks[1..], k);
    }
  }

  lemma ServesElsewhere(server: Server, k: ChangeKind, mint: Mint, h: Handle)
    requires h !in Reach(k, mint)
    ensures MemberAt(ServeOne(server, k, mint), h) == MemberAt(server, h)
  {
  }

  lemma ServesAlike(a: Server, b: Server, k: ChangeKind, mint: Mint, h: Handle)
    requires MemberAt(a, h) == MemberAt(b, h)
    ensures MemberAt(ServeOne(a, k, mint), h) == MemberAt(ServeOne(b, k, mint), h)
  {
  }

  /** No change but its own, if any, touches a handle. */
  ghost predicate ReachedBy(ks: seq<ChangeKind>, mint: Mint, h: Handle, own: Option<ChangeKind>) {
    forall k :: k in ks && own != Some(k) ==> h !in Reach(k, mint)
  }

  /** Changes leave on the server, under a handle one of them touches, what that one does. */
  lemma {:induction false} ServeAt(server: Server, ks: seq<ChangeKind>, mint: Mint, h: Handle, own: Option<ChangeKind>)
    requires Distinct(Handles(ks)) && ReachedBy(ks, mint, h, own)
    ensures MemberAt(Serve(server, ks, mint), h)
            == if own.Some? && own.value in ks then MemberAt(ServeOne(server, own.value, mint), h)
               else MemberAt(server, h)
    decreases |ks|
  {
    if ks != [] {
      DistinctTail(ks);
      assert ks[0] in ks && forall k :: k in ks[1..] ==> k in ks;
      assert forall k :: k in ks <==> k == ks[0] || k in ks[1..];
      var next := ServeOne(server, ks[0], mint);
      if own != Some(ks[0]) { ServesElsewhere(server, ks[0], mint, h); }
      assert own == Some(ks[0]) ==> own.value !in ks[1..];
      hide Handles, Distinct, ServeOne, Reach;
      ServeAt(next, ks[1..], mint, h, own);
      if own.Some? && own != Some(ks[0]) { ServesAlike(server, next, own.value, mint, h); }
    }
  }

  /** All a recording reads about one handle. */
  datatype Owed = Owed(flags: Option<Placement>, content: Option<Placement>, drops: bool, creates: Option<Placement>)

  function OwedAt(p: Pendings, h: Handle): Owed {
    Owed(At(p.flags, h), At(p.content, h), h in p.drops, At(p.creates, h))
  }

  lemma RecordReadsOwed(coll: CollectionId, p: Pendings, q: Pendings, r: PushResult)
    requires OwedAt(p, r.handle) == OwedAt(q, r.handle)
    ensures RecordOne(coll, p, r).writes == RecordOne(coll, q, r).writes
  {
  }

  lemma RecordKeepsOwed(coll: CollectionId, p: Pendings, r: PushResult, h: Handle)
    requires r.handle != h
    ensures OwedAt(RecordOne(coll, p, r).pendings, h) == OwedAt(p, h)
  {
  }

  /** Recording acceptances touches a handle by the recording of the one change touching it. */
  lemma {:induction false} RecordsTouch(coll: CollectionId, p: Pendings, ks: seq<ChangeKind>, mint: Mint, h: Handle,
                                        own: Option<ChangeKind>)
    requires Keyed(p) && Separate(p) && Distinct(Handles(ks)) && ReachedBy(ks, mint, h, own)
    ensures Touching(RecordAll(coll, p, Results(ks, mint)).writes, h)
            == if own.Some? && own.value in ks then Touching(RecordOne(coll, p, ResultOf(own.value, mint)).writes, h)
               else []
    decreases |ks|
  {
    if ks != [] {
      var r := ResultOf(ks[0], mint);
      assert Results(ks, mint)[1..] == Results(ks[1..], mint);
      RecordWithin(coll, p, r);
      RecordAllUnfolds(coll, p, Results(ks, mint));
      DistinctTail(ks);
      assert ks[0] in ks && forall k :: k in ks <==> k == ks[0] || k in ks[1..];
      assert own == Some(ks[0]) ==> own.value !in ks[1..];
      var one := RecordOne(coll, p, r);
      var rest := RecordAll(coll, one.pendings, Results(ks[1..], mint));
      if own != Some(ks[0]) {
        TouchingNone(one.writes, Reach(ks[0], mint), h);
        if own.Some? && own.value in ks[1..] { RecordedApart(coll, p, ks, mint, own.value); }
      }
      hide RecordOne, RecordAll, Handles, Distinct, Results, Keyed, Separate, Within, Reach;
      RecordsTouch(coll, one.pendings, ks[1..], mint, h, own);
      TouchingConcat(one.writes, rest.writes, h);
    }
  }

  /** A later change is recorded the same once the first one is. */
  lemma RecordedApart(coll: CollectionId, p: Pendings, ks: seq<ChangeKind>, mint: Mint, k: ChangeKind)
    requires ks != [] && Distinct(Handles(ks)) && k in ks[1..]
    ensures var next := RecordOne(coll, p, ResultOf(ks[0], mint)).pendings;
            RecordOne(coll, next, ResultOf(k, mint)).writes == RecordOne(coll, p, ResultOf(k, mint)).writes
  {
    DistinctTail(ks);
    assert k.handle != ks[0].handle;
    var r := ResultOf(ks[0], mint);
    RecordKeepsOwed(coll, p, r, k.handle);
    hide RecordOne;
    RecordReadsOwed(coll, RecordOne(coll, p, r).pendings, p, ResultOf(k, mint));
  }

  /** Recording a list of outcomes is recording its front and then its back. */
  lemma {:induction false} RecordAllConcat(coll: CollectionId, p: Pendings, a: seq<PushResult>, b: seq<PushResult>)
    ensures var first := RecordAll(coll, p, a);
            var rest := RecordAll(coll, first.pendings, b);
            var all := RecordAll(coll, p, a + b);
            all.writes == first.writes + rest.writes && all.pendings == rest.pendings
    decreases |a|
  {
    hide *;
    if |a| == 0 {
      NothingRecorded(coll, p, a, b);
    } else {
      RecordAllConcat(coll, RecordOne(coll, p, a[0]).pendings, a[1..], b);
      RecordOneThenConcat(coll, p, a, b);
    }
  }

  lemma RecordOneThenConcat(coll: CollectionId, p: Pendings, a: seq<PushResult>, b: seq<PushResult>)
    requires |a| > 0
    requires var one := RecordOne(coll, p, a[0]);
             var first := RecordAll(coll, one.pendings, a[1..]);
             var rest := RecordAll(coll, first.pendings, b);
             var all := RecordAll(coll, one.pendings, a[1..] + b);
             all.writes == first.writes + rest.writes && all.pendings == rest.pendings
    ensures var first := RecordAll(coll, p, a);
            var rest := RecordAll(coll, first.pendings, b);
            var all := RecordAll(coll, p, a + b);
            all.writes == first.writes + rest.writes && all.pendings == rest.pendings
  {
    hide *;
    var one := RecordOne(coll, p, a[0]);
    RecordAllSteps(coll, p, a);
    RecordAllSteps(coll, p, a + b);
    TailOfConcat(a, b);
    var first := RecordAll(coll, one.pendings, a[1..]);
    OpsAssociate(one.writes, first.writes, RecordAll(coll, first.pendings, b).writes);
  }

  lemma TailOfConcat<T>(a: seq<T>, b: seq<T>)
    requires |a| > 0
    ensures (a + b)[0] == a[0] && (a + b)[1..] == a[1..] + b
  {
  }

  lemma RecordAllSteps(coll: CollectionId, p: Pendings, results: seq<PushResult>)
    requires |results| > 0
    ensures var one := RecordOne(coll, p, results[0]);
            var rest := RecordAll(coll, one.pendings, results[1..]);
            var all := RecordAll(coll, p, results);
            all.writes == one.writes + rest.writes && all.pendings == rest.pendings
  {
    hide *;
    RecordAllUnfolds(coll, p, results);
  }

  lemma OpsAssociate(a: seq<WriteOp>, b: seq<WriteOp>, c: seq<WriteOp>)
    ensures (a + b) + c == a + (b + c)
  {
  }

  lemma NothingRecorded(coll: CollectionId, p: Pendings, a: seq<PushResult>, b: seq<PushResult>)
    requires |a| == 0
    ensures a + b == b
    ensures var none := RecordAll(coll, p, a);
            none.pendings == p && none.writes + RecordAll(coll, p, b).writes == RecordAll(coll, p, b).writes
  {
    hide RecordOne;
    assert a == [];
  }

  lemma ForgetTwice(p: Pendings, a: set<Handle>, b: set<Handle>)
    ensures p.Forget(a).Forget(b) == p.Forget(a + b)
  {
    var twice, once := p.Forget(a).Forget(b), p.Forget(a + b);
    assert twice.flags == once.flags && twice.content == once.content;
    assert twice.drops == once.drops && twice.creates == once.creates;
  }

  /** A chunk accepted whole leaves nothing of it pending. */
  lemma {:induction false} AcceptedIsForgotten(coll: CollectionId, p: Pendings, ks: seq<ChangeKind>, mint: Mint)
    ensures RecordAll(coll, p, Results(ks, mint)).pendings == p.Forget((set h | h in Handles(ks)))
    decreases |ks|
  {
    if |ks| == 0 {
      NoneForgotten(coll, p, ks, mint);
    } else {
      OneForgotten(coll, p, ks[0], mint);
      HandlesFirst(ks, mint);
      hide *;
      var rest := p.Forget({ks[0].handle});
      RecordAllSteps(coll, p, Results(ks, mint));
      AcceptedIsForgotten(coll, rest, ks[1..], mint);
      ForgetTwice(p, {ks[0].handle}, (set h | h in Handles(ks[1..])));
    }
  }

  lemma NoneForgotten(coll: CollectionId, p: Pendings, ks: seq<ChangeKind>, mint: Mint)
    requires |ks| == 0
    ensures RecordAll(coll, p, Results(ks, mint)).pendings == p.Forget((set h | h in Handles(ks)))
  {
    assert (set h | h in Handles(ks)) == {};
    assert p.Forget({}) == p;
  }

  lemma OneForgotten(coll: CollectionId, p: Pendings, k: ChangeKind, mint: Mint)
    ensures RecordOne(coll, p, ResultOf(k, mint)).pendings == p.Forget({k.handle})
  {
  }

  lemma HandlesFirst(ks: seq<ChangeKind>, mint: Mint)
    requires |ks| > 0
    ensures (set h | h in Handles(ks)) == {ks[0].handle} + (set h | h in Handles(ks[1..]))
    ensures |Results(ks, mint)| > 0 && Results(ks, mint)[0] == ResultOf(ks[0], mint)
            && Results(ks, mint)[1..] == Results(ks[1..], mint)
  {
    assert Handles(ks) == [ks[0].handle] + Handles(ks[1..]);
  }

  /** Unanswered chunks are not recorded. */
  lemma {:induction false} UnansweredWritesNothing(s: SyncState)
    ensures RecordRest(s, []).writes == s.writes
    decreases |s.pushes|
  {
    if s.pushes != [] {
      var t := RecordChunk(TakeChunk(s), []);
      assert t.writes == s.writes + [];
      UnansweredWritesNothing(t);
    }
  }

  lemma AcceptingPush(changes: seq<ChangeKind>, rest: seq<Yield>, mint: Mint)
    ensures Accepting([WantsPush(changes)] + rest, mint) == [Results(changes, mint)] + Accepting(rest, mint)
  {
    assert ([WantsPush(changes)] + rest)[1..] == rest;
  }

  lemma AcceptingWrite(ops: seq<WriteOp>, rest: seq<Yield>, mint: Mint)
    ensures Accepting([WantsWrite(ops)] + rest, mint) == Accepting(rest, mint)
  {
    assert ([WantsWrite(ops)] + rest)[1..] == rest;
  }

  /** Where a chunk ends plays no part: the first chunk accepted, recording goes on as if the
    * rest had always been the queue. */
  lemma ChunkAccepted(s: SyncState, mint: Mint)
    requires s.pushes != []
    ensures var chunk := s.pushes[..ChunkSize(s)];
            var t := RecordChunk(TakeChunk(s), Results(chunk, mint));
            && t.pushes == s.pushes[ChunkSize(s)..] && t.collection == s.collection
            && t.writes == s.writes + RecordAll(s.collection, s.pendings, Results(chunk, mint)).writes
            && t.pendings == RecordAll(s.collection, s.pendings, Results(chunk, mint)).pendings
  {
    hide RecordAll;
    var chunk := s.pushes[..ChunkSize(s)];
    var hs := (set h | h in Handles(chunk));
    AcceptedIsForgotten(s.collection, s.pendings, chunk, mint);
    ForgetTwice(s.pendings, hs, hs);
    assert hs + hs == hs;
    hide Results, Handles;
  }

  /** Recording the answers to the first requests of a push phase records their pushes, one
    * after the other. */
  lemma {:induction false} PushesRecorded(s: SyncState, ys: seq<Yield>, i: nat, mint: Mint)
    requires PushGrammar(ys) && Sent(ys) == s.pushes && i <= |ys|
    ensures RecordRest(s, Accepting(ys[..i], mint)).writes
            == s.writes + RecordAll(s.collection, s.pendings, Results(Sent(ys[..i]), mint)).writes
    decreases |ys|
  {
    if i == 0 {
      assert ys[..i] == [];
      NothingAnswered(s, mint);
    } else {
      var rest, chunk := ys[2..], ys[0].changes;
      var n := if i == 1 then 0 else i - 2;
      FirstChunk(s, ys);
      FirstAnswered(ys, i, mint);
      var t := RecordChunk(TakeChunk(s), Results(chunk, mint));
      ChunkAccepted(s, mint);
      hide RecordChunk, RecordAll, RecordRest;
      if |ys| == 2 {
        assert rest[..n] == [];
        NothingAnswered(t, mint);
      } else {
        PushesRecorded(t, rest, n, mint);
      }
      hide PushGrammar, Accepting, Sent;
      ChunkThenRest(s, Accepting(rest[..n], mint), Sent(rest[..n]), mint);
    }
  }

  lemma AnswersUnfold(first: seq<PushResult>, answers: seq<seq<PushResult>>)
    ensures Answer([first] + answers) == first && Later([first] + answers) == answers
  {
    assert ([first] + answers)[1..] == answers;
  }

  lemma ChunkThenRest(s: SyncState, answers: seq<seq<PushResult>>, sent: seq<ChangeKind>, mint: Mint)
    requires s.pushes != []
    requires var t := RecordChunk(TakeChunk(s), Results(s.pushes[..ChunkSize(s)], mint));
             RecordRest(t, answers).writes
             == t.writes + RecordAll(t.collection, t.pendings, Results(sent, mint)).writes
    ensures var chunk := s.pushes[..ChunkSize(s)];
            RecordRest(s, [Results(chunk, mint)] + answers).writes
            == s.writes + RecordAll(s.collection, s.pendings, Results(chunk + sent, mint)).writes
  {
    hide *;
    var chunk := s.pushes[..ChunkSize(s)];
    var t := RecordChunk(TakeChunk(s), Results(chunk, mint));
    ChunkAccepted(s, mint);
    AnswersUnfold(Results(chunk, mint), answers);
    RestUnfolds(s, [Results(chunk, mint)] + answers);
    assert Results(chunk + sent, mint) == Results(chunk, mint) + Results(sent, mint);
    RecordAllConcat(s.collection, s.pendings, Results(chunk, mint), Results(sent, mint));
  }

  lemma FirstChunk(s: SyncState, ys: seq<Yield>)
    requires PushGrammar(ys) && Sent(ys) == s.pushes
    ensures ys[0].changes == s.pushes[..ChunkSize(s)] && Sent(ys[2..]) == s.pushes[ChunkSize(s)..] && s.pushes != []
  {
    var rest, chunk := ys[2..], ys[0].changes;
    assert ys == [ys[0]] + ([ys[1]] + rest);
    OpsOfPush(chunk, [ys[1]] + rest);
    OpsOfWrite(ys[1].ops, rest);
    assert s.pushes == chunk + Sent(rest);
    if |ys| == 2 { assert rest == []; }
  }

  lemma FirstAnswered(ys: seq<Yield>, i: nat, mint: Mint)
    requires |ys| >= 2 && ys[0].WantsPush? && ys[1].WantsWrite? && 0 < i <= |ys|
    ensures var n := if i == 1 then 0 else i - 2;
            && Accepting(ys[..i], mint) == [Results(ys[0].changes, mint)] + Accepting(ys[2..][..n], mint)
            && Sent(ys[..i]) == ys[0].changes + Sent(ys[2..][..n])
  {
    var rest := ys[2..];
    if i == 1 {
      assert ys[..1] == [ys[0]] + [];
      AcceptingPush(ys[0].changes, [], mint);
      OpsOfPush(ys[0].changes, []);
    } else {
      assert ys[..i] == [ys[0]] + ([ys[1]] + rest[..i - 2]);
      AcceptingPush(ys[0].changes, [ys[1]] + rest[..i - 2], mint);
      AcceptingWrite(ys[1].ops, rest[..i - 2], mint);
      OpsOfPush(ys[0].changes, [ys[1]] + rest[..i - 2]);
      OpsOfWrite(ys[1].ops, rest[..i - 2]);
    }
  }

  lemma NothingAnswered(s: SyncState, mint: Mint)
    ensures RecordRest(s, Accepting([], mint)).writes
            == s.writes + RecordAll(s.collection, s.pendings, Results(Sent([]), mint)).writes
  {
    UnansweredWritesNothing(s);
    assert Results([], mint) == [];
  }

  /** The same once the merge's batches come first. */
  lemma {:induction false} RunRecorded(s: SyncState, ys: seq<Yield>, i: nat, mint: Mint)
    requires RunGrammar(ys) && Sent(ys) == s.pushes && i <= |ys|
    ensures RecordRest(s, Accepting(ys[..i], mint)).writes
            == s.writes + RecordAll(s.collection, s.pendings, Results(Sent(ys[..i]), mint)).writes
    decreases |ys|
  {
    if PushGrammar(ys) {
      PushesRecorded(s, ys, i, mint);
    } else if i == 0 {
      assert ys[..i] == [];
      NothingAnswered(s, mint);
    } else {
      WriteThenRest(ys, i, mint);
      hide Accepting, Sent, RecordRest, RecordAll, PushGrammar;
      if |ys| == 1 {
        assert ys[1..] == [] && ys[1..][..i - 1] == [];
        NothingAnswered(s, mint);
      } else {
        RunRecorded(s, ys[1..], i - 1, mint);
      }
    }
  }

  /** A write in front neither answers nor sends. */
  lemma WriteThenRest(ys: seq<Yield>, i: nat, mint: Mint)
    requires 0 < i <= |ys| && ys[0].WantsWrite?
    ensures Accepting(ys[..i], mint) == Accepting(ys[1..][..i - 1], mint)
    ensures Sent(ys[..i]) == Sent(ys[1..][..i - 1]) && Sent(ys) == Sent(ys[1..])
  {
    hide Accepting, Sent;
    assert ys[..i] == [WantsWrite(ys[0].ops)] + ys[1..][..i - 1];
    AcceptingWrite(ys[0].ops, ys[1..][..i - 1], mint);
    OpsOfWrite(ys[0].ops, ys[1..][..i - 1]);
    assert ys == [WantsWrite(ys[0].ops)] + ys[1..];
    OpsOfWrite(ys[0].ops, ys[1..]);
  }

  lemma AcceptingOpening(opening: seq<Yield>, rest: seq<Yield>, mint: Mint)
    requires |opening| == 2 && opening[0].WantsLoad? && opening[1].WantsEnumerate?
    ensures Accepting(opening + rest, mint) == Accepting(rest, mint)
  {
    assert (opening + rest)[1..] == [opening[1]] + rest && ([opening[1]] + rest)[1..] == rest;
  }

  /** The merge of a run, everything taken. */
  ghost function Merged(coll: CollectionId, opts: Options, listing: seq<Placement>, cursor: Option<Checkpoint>,
                        snapshot: Snapshot): SyncState
  {
    var s := Opened(coll, opts, listing, cursor, snapshot);
    AbsorbAll(s, Todo(s.merging.value))
  }

  /** A run every push of which is accepted writes what its merge wrote, then each push's
    * recording in turn, then the checkpoint. */
  lemma AcceptedRun(coll: CollectionId, opts: Options, listing: seq<Placement>, cursor: Option<Checkpoint>,
                    snapshot: Snapshot, answers: seq<seq<PushResult>>, mint: Mint)
    requires answers == Accepting(RunOf(coll, opts, listing, cursor, snapshot, answers).asked, mint)
    ensures var run := RunOf(coll, opts, listing, cursor, snapshot, answers);
            var t := Merged(coll, opts, listing, cursor, snapshot);
            && Sent(run.asked) == t.pushes
            && Ops(run.asked) == t.writes + RecordAll(coll, t.pendings, Results(t.pushes, mint)).writes
                                 + [SetCheckpoint(coll, snapshot.checkpoint)]
  {
    RunIsUnbounded(coll, opts, listing, cursor, snapshot, answers);
    MergedCollection(coll, opts, listing, cursor, snapshot);
    var t := Merged(coll, opts, listing, cursor, snapshot);
    var run := RunOf(coll, opts, listing, cursor, snapshot, answers);
    assert Unbounded(coll, opts, listing, cursor, snapshot, answers) == RecordRest(t, answers);
    hide *;
    var opening, ys := run.asked[..2], run.asked[2..];
    assert run.asked == opening + ys;
    OpeningWritesNothing(opening, ys);
    AcceptingOpening(opening, ys, mint);
    RunRecorded(t, ys, |ys|, mint);
    assert ys[..|ys|] == ys;
  }

  lemma MergedCollection(coll: CollectionId, opts: Options, listing: seq<Placement>, cursor: Option<Checkpoint>,
                         snapshot: Snapshot)
    ensures Merged(coll, opts, listing, cursor, snapshot).collection == coll
  {
    var s := Opened(coll, opts, listing, cursor, snapshot);
    AbsorbAllCollection(s, Todo(s.merging.value));
  }

  lemma {:induction false} AbsorbAllCollection(s: SyncState, cs: seq<Candidate>)
    ensures AbsorbAll(s, cs).collection == s.collection
    decreases |cs|
  {
    if cs != [] {
      hide MergeOne;
      AbsorbAllCollection(Absorb(s, MergeOne(s.collection, s.opts, cs[0])), cs[1..]);
    }
  }

  /** A server's acceptances of a queue, chunk by chunk. */
  function Chunked(ks: seq<ChangeKind>, mint: Mint): seq<seq<PushResult>>
    decreases |ks|
  {
    if ks == [] then []
    else
      var n := if |ks| < PUSH_CHUNK then |ks| else PUSH_CHUNK;
      [Results(ks[..n], mint)] + Chunked(ks[n..], mint)
  }

  lemma {:induction false} PushesAreChunked(ys: seq<Yield>, mint: Mint)
    requires PushGrammar(ys)
    ensures Accepting(ys, mint) == Chunked(Sent(ys), mint) && Sent(ys) != []
    decreases |ys|
  {
    var rest := ys[2..];
    assert ys == [ys[0]] + ([ys[1]] + rest);
    AcceptingPush(ys[0].changes, [ys[1]] + rest, mint);
    AcceptingWrite(ys[1].ops, rest, mint);
    OpsOfPush(ys[0].changes, [ys[1]] + rest);
    OpsOfWrite(ys[1].ops, rest);
    var ks := Sent(ys);
    assert ks[..|ys[0].changes|] == ys[0].changes && ks[|ys[0].changes|..] == Sent(rest);
    if |ys| == 2 {
      assert rest == [];
    } else {
      PushesAreChunked(rest, mint);
    }
  }

  lemma {:induction false} RunIsChunked(ys: seq<Yield>, mint: Mint)
    requires RunGrammar(ys)
    ensures Accepting(ys, mint) == Chunked(Sent(ys), mint)
    decreases |ys|
  {
    if PushGrammar(ys) {
      PushesAreChunked(ys, mint);
    } else {
      assert ys == [ys[0]] + ys[1..];
      AcceptingWrite(ys[0].ops, ys[1..], mint);
      OpsOfWrite(ys[0].ops, ys[1..]);
      if |ys| == 1 { assert ys[1..] == []; } else { RunIsChunked(ys[1..], mint); }
    }
  }

  /** A driver can always answer a run with its acceptance, and in one way only: what a run pushes, and
    * where its chunks end, do not depend on the answers. */
  lemma AcceptanceIsOne(coll: CollectionId, opts: Options, listing: seq<Placement>, cursor: Option<Checkpoint>,
                        snapshot: Snapshot, answers: seq<seq<PushResult>>, mint: Mint)
    ensures answers == Accepting(RunOf(coll, opts, listing, cursor, snapshot, answers).asked, mint)
            <==> answers == Chunked(Merged(coll, opts, listing, cursor, snapshot).pushes, mint)
  {
    RunIsUnbounded(coll, opts, listing, cursor, snapshot, answers);
    var run := RunOf(coll, opts, listing, cursor, snapshot, answers);
    var t := Merged(coll, opts, listing, cursor, snapshot);
    assert Sent(run.asked) == t.pushes;
    hide *;
    var opening, ys := run.asked[..2], run.asked[2..];
    assert run.asked == opening + ys;
    OpeningWritesNothing(opening, ys);
    AcceptingOpening(opening, ys, mint);
    RunIsChunked(ys, mint);
  }
}

/** A run cut short anywhere, then run again: the same end as if it had not been. */
module CrashReplay {
  import opened Wrappers
  import opened Text
  import opened Placement
  import opened Change
  import opened Remote
  import opened Join
  import opened JoinLaws
  import opened MergeRules
  import opened SyncMachine
  import opened SyncInvariants
  import opened SyncRuns
  import opened DeltaSync
  import opened Storage
  import opened NoLoss
  import opened Acceptance
  import opened Rounds
  import opened OneHandle
  import opened RoundEnds
  import FlagLaws

  /** One request of a run, and the run from there on. */
  lemma FollowUnfolds(s: SyncState, step: Step, answers: seq<seq<PushResult>>)
    requires Valid(s) && Asking(s, step) && step.Yielded?
    ensures Resumable(s)
    ensures var (t, next) := Resume(s, Some(Reply(s, answers)));
            && Valid(t) && Asking(t, next)
            && Follow(s, step, answers).asked
               == [step.request] + Follow(t, next, if s.phase == PendingPush then Later(answers) else answers).asked
  {
    hide Bookkept, Phased, Resume, Measure;
    ReplyKeeps(s, answers);
  }

  /** What a run asks for does not depend on answers not yet asked for. */
  lemma {:induction false} FollowPrefix(s: SyncState, step: Step, a: seq<seq<PushResult>>, b: seq<seq<PushResult>>,
                                        i: nat)
    requires Valid(s) && Asking(s, step) && i <= |Follow(s, step, a).asked|
    requires b <= a && |Chunks(Follow(s, step, a).asked[..i])| <= |b|
    ensures i <= |Follow(s, step, b).asked| && Follow(s, step, b).asked[..i] == Follow(s, step, a).asked[..i]
    decreases i
  {
    if i > 0 {
      FollowAsks(s, step, a);
      hide *;
      FollowUnfolds(s, step, a);
      FollowUnfolds(s, step, b);
      var pushing := s.phase == PendingPush;
      var a', b' := if pushing then Later(a) else a, if pushing then Later(b) else b;
      var (t, next) := Resume(s, Some(Reply(s, a)));
      var rest := Follow(t, next, a').asked;
      ConsPrefix(step.request, rest, i);
      ChunksOf(step.request, rest[..i - 1]);
      ReplyAgrees(s, a, b);
      FollowPrefix(t, next, a', b', i - 1);
      ConsPrefix(step.request, Follow(t, next, b').asked, i);
    }
  }

  lemma FollowAsks(s: SyncState, step: Step, answers: seq<seq<PushResult>>)
    requires Valid(s) && Asking(s, step) && Follow(s, step, answers).asked != []
    ensures step.Yielded? && (s.phase == PendingPush <==> step.request.WantsPush?)
  {
    hide Valid, Resume;
  }

  lemma ReplyAgrees(s: SyncState, a: seq<seq<PushResult>>, b: seq<seq<PushResult>>)
    requires b <= a && (s.phase == PendingPush ==> |b| > 0)
    ensures Reply(s, b) == Reply(s, a)
    ensures s.phase == PendingPush ==> Later(b) <= Later(a) && |Later(b)| == |b| - 1
  {
  }

  lemma ConsPrefix(y: Yield, rest: seq<Yield>, i: nat)
    requires 0 < i <= |rest| + 1
    ensures ([y] + rest)[..i] == [y] + rest[..i - 1]
  {
  }

  /** The chunks pushed among some requests. */
  ghost function Chunks(ys: seq<Yield>): seq<seq<ChangeKind>> {
    if ys == [] then [] else (if ys[0].WantsPush? then [ys[0].changes] else []) + Chunks(ys[1..])
  }

  lemma ChunksOf(y: Yield, rest: seq<Yield>)
    ensures Chunks([y] + rest) == (if y.WantsPush? then [y.changes] else []) + Chunks(rest)
  {
    assert ([y] + rest)[1..] == rest;
  }

  lemma {:induction false} AcceptingChunks(ys: seq<Yield>, mint: Mint)
    ensures |Accepting(ys, mint)| == |Chunks(ys)|
  {
    if ys != [] { AcceptingChunks(ys[1..], mint); }
  }

  lemma {:induction false} AcceptingConcat(a: seq<Yield>, b: seq<Yield>, mint: Mint)
    ensures Accepting(a + b, mint) == Accepting(a, mint) + Accepting(b, mint)
    ensures Ops(a + b) == Ops(a) + Ops(b)
    ensures Sent(a + b) == Sent(a) + Sent(b)
  {
    if a == [] {
      assert a + b == b;
    } else {
      ConsConcat(a, b);
      AcceptingConcat(a[1..], b, mint);
      var y := a[0];
      hide Accepting, Ops, Sent;
      ConsAll(y, a[1..], mint);
      ConsAll(y, a[1..] + b, mint);
      assert a == [y] + a[1..];
    }
  }

  lemma ConsConcat(a: seq<Yield>, b: seq<Yield>)
    requires a != []
    ensures a + b == [a[0]] + (a[1..] + b)
  {
  }

  /** What one request adds in front of a run. */
  lemma ConsAll(y: Yield, rest: seq<Yield>, mint: Mint)
    ensures Accepting([y] + rest, mint)
            == (if y.WantsPush? then [Results(y.changes, mint)] else []) + Accepting(rest, mint)
    ensures Ops([y] + rest) == (if y.WantsWrite? then y.ops else []) + Ops(rest)
    ensures Sent([y] + rest) == (if y.WantsPush? then y.changes else []) + Sent(rest)
  {
    assert ([y] + rest)[1..] == rest;
  }

  lemma RunPrefix(coll: CollectionId, opts: Options, listing: seq<Placement>, cursor: Option<Checkpoint>,
                  snapshot: Snapshot, a: seq<seq<PushResult>>, b: seq<seq<PushResult>>, i: nat)
    requires 2 <= i <= |RunOf(coll, opts, listing, cursor, snapshot, a).asked|
    requires b <= a && |Chunks(RunOf(coll, opts, listing, cursor, snapshot, a).asked[..i])| <= |b|
    ensures i <= |RunOf(coll, opts, listing, cursor, snapshot, b).asked|
    ensures RunOf(coll, opts, listing, cursor, snapshot, b).asked[..i]
            == RunOf(coll, opts, listing, cursor, snapshot, a).asked[..i]
  {
    hide *;
    RunIsFollow(coll, opts, listing, cursor, snapshot, a);
    RunIsFollow(coll, opts, listing, cursor, snapshot, b);
    var (s, step) := Begun(coll, opts, listing, cursor, snapshot);
    var opening := [WantsLoad, WantsEnumerate(if opts.full then None else cursor)];
    var ra, rb := Follow(s, step, a).asked, Follow(s, step, b).asked;
    assert (opening + ra)[..i] == [opening[0]] + ([opening[1]] + ra[..i - 2]);
    ChunksOf(opening[0], [opening[1]] + ra[..i - 2]);
    ChunksOf(opening[1], ra[..i - 2]);
    FollowPrefix(s, step, a, b, i - 2);
    assert (opening + rb)[..i] == opening + rb[..i - 2];
  }

  /** The requests of a cut run are those of a run whose driver answers no later chunk. */
  lemma CutRun(coll: CollectionId, opts: Options, listing: seq<Placement>, cursor: Option<Checkpoint>,
               snapshot: Snapshot, answers: seq<seq<PushResult>>, mint: Mint, i: nat, op: WriteOp)
    requires answers == Accepting(RunOf(coll, opts, listing, cursor, snapshot, answers).asked, mint)
    requires 2 <= i <= |RunOf(coll, opts, listing, cursor, snapshot, answers).asked|
    ensures var asked := RunOf(coll, opts, listing, cursor, snapshot, answers).asked;
            op in Ops(asked[..i])
            ==> op in Ops(RunOf(coll, opts, listing, cursor, snapshot, Accepting(asked[..i], mint)).asked)
  {
    hide *;
    var asked := RunOf(coll, opts, listing, cursor, snapshot, answers).asked;
    var few := Accepting(asked[..i], mint);
    var again := RunOf(coll, opts, listing, cursor, snapshot, few).asked;
    assert asked == asked[..i] + asked[i..];
    AcceptingConcat(asked[..i], asked[i..], mint);
    AcceptingChunks(asked[..i], mint);
    RunPrefix(coll, opts, listing, cursor, snapshot, answers, few, i);
    assert again == asked[..i] + again[i..];
    AcceptingConcat(asked[..i], again[i..], mint);
  }

  /** What the first requests of an accepted run wrote: the merge's writes, and the recordings
    * of the changes those requests pushed. */
  lemma PrefixWrites(coll: CollectionId, opts: Options, listing: seq<Placement>, cursor: Option<Checkpoint>,
                     snapshot: Snapshot, answers: seq<seq<PushResult>>, mint: Mint, i: nat, op: WriteOp)
    requires answers == Accepting(RunOf(coll, opts, listing, cursor, snapshot, answers).asked, mint)
    requires i <= |RunOf(coll, opts, listing, cursor, snapshot, answers).asked|
    requires op in Ops(RunOf(coll, opts, listing, cursor, snapshot, answers).asked[..i])
    ensures var t := Merged(coll, opts, listing, cursor, snapshot);
            var sent := Sent(RunOf(coll, opts, listing, cursor, snapshot, answers).asked[..i]);
            || op.SetCheckpoint?
            || op in t.writes
            || op in RecordAll(coll, t.pendings, Results(sent, mint)).writes
  {
    var asked := RunOf(coll, opts, listing, cursor, snapshot, answers).asked;
    var t := Merged(coll, opts, listing, cursor, snapshot);
    RunIsUnbounded(coll, opts, listing, cursor, snapshot, answers);
    MergedCollection(coll, opts, listing, cursor, snapshot);
    if i >= 2 {
      PrefixRecorded(coll, opts, listing, cursor, snapshot, answers, mint, i);
      hide *;
      CutRun(coll, opts, listing, cursor, snapshot, answers, mint, i, op);
    } else {
      hide RunOf, Merged, RecordAll, Unbounded;
      WritesComeLater(asked, i);
    }
  }

  /** All a run cut after its first requests writes, had its driver gone on without answering. */
  lemma PrefixRecorded(coll: CollectionId, opts: Options, listing: seq<Placement>, cursor: Option<Checkpoint>,
                       snapshot: Snapshot, answers: seq<seq<PushResult>>, mint: Mint, i: nat)
    requires 2 <= i <= |RunOf(coll, opts, listing, cursor, snapshot, answers).asked|
    ensures var asked := RunOf(coll, opts, listing, cursor, snapshot, answers).asked;
            var t := Merged(coll, opts, listing, cursor, snapshot);
            Ops(RunOf(coll, opts, listing, cursor, snapshot, Accepting(asked[..i], mint)).asked)
            == t.writes + RecordAll(coll, t.pendings, Results(Sent(asked[..i]), mint)).writes
               + [SetCheckpoint(coll, snapshot.checkpoint)]
  {
    var asked := RunOf(coll, opts, listing, cursor, snapshot, answers).asked;
    var few := Accepting(asked[..i], mint);
    var t := Merged(coll, opts, listing, cursor, snapshot);
    assert Unbounded(coll, opts, listing, cursor, snapshot, few) == RecordRest(t, few);
    assert Sent(asked) == t.pushes && RunGrammar(asked[2..]) && |asked| > 2
           && asked[..2] == [WantsLoad, WantsEnumerate(if opts.full then None else cursor)] by {
      RunIsUnbounded(coll, opts, listing, cursor, snapshot, answers);
    }
    hide *;
    RunIsUnbounded(coll, opts, listing, cursor, snapshot, few);
    MergedCollection(coll, opts, listing, cursor, snapshot);
    OpenedRecorded(t, asked, i, mint);
  }

  lemma OpenedRecorded(t: SyncState, asked: seq<Yield>, i: nat, mint: Mint)
    requires |asked| > 2 && asked[0].WantsLoad? && asked[1].WantsEnumerate? && 2 <= i <= |asked|
    requires RunGrammar(asked[2..]) && Sent(asked) == t.pushes
    ensures RecordRest(t, Accepting(asked[..i], mint)).writes
            == t.writes + RecordAll(t.collection, t.pendings, Results(Sent(asked[..i]), mint)).writes
  {
    hide *;
    var opening, ys := asked[..2], asked[2..];
    assert asked == opening + ys && asked[..i] == opening + ys[..i - 2];
    OpeningWritesNothing(opening, ys);
    OpeningWritesNothing(opening, ys[..i - 2]);
    AcceptingOpening(opening, ys[..i - 2], mint);
    RunRecorded(t, ys, i - 2, mint);
  }

  lemma WritesComeLater(asked: seq<Yield>, i: nat)
    requires |asked| > 2 && asked[0].WantsLoad? && asked[1].WantsEnumerate? && i < 2
    ensures Ops(asked[..i]) == []
  {
    if i == 1 { assert asked[..1] == [asked[0]] && asked[..1][1..] == []; }
  }

  lemma {:induction false} AppliedFrom(rows: Rows, ops: seq<WriteOp>, h: Handle)
    ensures At(Apply(rows, ops), h) == At(rows, h)
            || exists op :: op in ops && Touches(op, h) && Left(op) == At(Apply(rows, ops), h)
    decreases |ops|
  {
    if ops != [] {
      var next := ApplyOp(rows, ops[0]);
      AppliedFrom(next, ops[1..], h);
      assert ops[0] in ops;
      if At(Apply(next, ops[1..]), h) != At(next, h) {
        var op :| op in ops[1..] && Touches(op, h) && Left(op) == At(Apply(next, ops[1..]), h);
        assert op in ops;
      }
    }
  }

  /** A merge that writes its own row alone, and derives at most a flag set or a removal. */
  ghost predicate Bodiless(e: Effect, h: Handle) {
    && Within(e.writes, {h})
    && (e.push.Some? ==> e.push.value.kind.SetFlags? || e.push.value.kind.Remove?)
  }

  /** A handle no other one's merge touches and no create is assigned: what its run does to it, it does by
    * itself. */
  ghost predicate LeftAlone(coll: CollectionId, opts: Options, store: Rows, server: Server, mint: Mint, h: Handle) {
    Alone(coll, opts, store, server, h) && Unminted(coll, opts, store, server, mint, h)
  }

  /** A handle apart, its merge pushing no body, whose sync may be cut anywhere and run again. */
  ghost predicate Restartable(coll: CollectionId, opts: Options, store: Rows, server: Server, mint: Mint, h: Handle) {
    && LeftAlone(coll, opts, store, server, mint, h) && Bodiless(EffectOf(coll, opts, store, server, h), h)
    && Replays(coll, opts, At(store, h), MemberAt(server, h))
  }

  ghost predicate AllBodiless(coll: CollectionId, opts: Options, store: Rows, server: Server) {
    forall h :: Bodiless(EffectOf(coll, opts, store, server, h), h)
  }

  /** What a cut may have left of a handle: the row untouched or as any write of its merge left it,
    * the server with its change or without; or the row as the change's recording left it, the change
    * then being on the server. */
  ghost predicate Midway(coll: CollectionId, opts: Options, h: Handle, local: Option<Placement>, m: Option<Member>,
                         row: Option<Placement>, member: Option<Member>)
  {
    var e := MergeOne(coll, opts, Candidate(h, local, Listing(h, m)));
    var end := EndMember(coll, opts, local, m, None);
    || ((row == local || Wrote(e, h, row)) && (member == m || member == end))
    || (row == EndRow(coll, opts, h, local, m, None) && member == end)
  }

  /** Whether a merge writes the row so. */
  ghost predicate Wrote(e: Effect, h: Handle, row: Option<Placement>) {
    exists op :: op in e.writes && Touches(op, h) && Left(op) == row
  }

  /** Whether a row with neither base nor body meets content it has no revision of: its flags give it a
    * base, and its next sync has that base catch up. */
  predicate LacksRevision(row: Placement, m: Member) {
    && row.base.None? && row.body.None? && m.revision.Some?
    && !(row.status == Conflict && row.conflictRevision == m.revision)
  }

  /** Whether a row's flags, unread by the remote and unchanged since the base, are all that would
    * settle its status: once pushed and not recorded, nothing is left to settle it. */
  predicate Lingers(opts: Options, row: Placement, m: Member) {
    && m.flags.Unknown? && row.flags.Known? && opts.MayFlags()
    && row.base.Some? && row.flags == row.base.value.flags
    && row.status != Clean && row.status != Conflict && !Unsettled(row)
  }

  /** Whether a row given back has flags to settle: their merge not on the row, or on the remote and not its
    * base, or there to push. */
  predicate UnsettledBack(opts: Options, row: Placement, item: RemoteItem)
    requires row.base.Some?
  {
    var base := row.base.value.flags;
    var merged := MergeFlags(base, row.flags, item.flags);
    row.flags != merged || (if merged == item.flags then row.flags != base else opts.MayFlags())
  }

  /** Whether a refused delete is given back with flags still to settle. */
  predicate RevertsUnsettled(opts: Options, row: Placement, item: RemoteItem) {
    && !TakenBack(row, item.revision) && opts.delete == Revert
    && (if EditedCopy(row) then !opts.MayContent() else !opts.MayRemove())
    && UnsettledBack(opts, row, item)
  }

  /** A handle whose sync may be cut anywhere and run again to the same end. */
  predicate Replays(coll: CollectionId, opts: Options, local: Option<Placement>, m: Option<Member>) {
    local.Some? && m.Some? ==>
      var item := RemoteItem(local.value.handle, m.value.flags, m.value.revision);
      if local.value.status == Tombstone then !RevertsUnsettled(opts, local.value, item)
      else !LacksRevision(local.value, m.value) && !Lingers(opts, ContentRow(coll, opts, local.value, item), m.value)
  }

  /** The content axis does not read flags. */
  lemma ContentIgnoresFlags(coll: CollectionId, opts: Options, row: Placement, item: RemoteItem, flags: Flags)
    ensures ReconcileContent(coll, opts, row, item.(flags := flags)) == ReconcileContent(coll, opts, row, item)
  {
  }

  /** No body pushed, and none forked. */
  predicate Quiet(coll: CollectionId, opts: Options, row: Placement, item: RemoteItem) {
    !PushesBody(coll, opts, row, item) && |ReconcileContent(coll, opts, row, item).0.writes| <= 1
  }

  /** A row as the flag axis may leave the one the content axis left. */
  predicate Flagged(x: Placement, left: Placement) {
    || x == left.(flags := x.flags)
    || (x.base.Some? && x == RebasedRow(left.(flags := x.flags), x.base.value.flags))
  }

  /** Once the content axis has settled a row, no sync of its flags has it act again. */
  lemma ContentStays(coll: CollectionId, opts: Options, row: Placement, m: Member, x: Placement)
    requires row.status != Tombstone && !LacksRevision(row, m)
    requires Quiet(coll, opts, row, RemoteItem(row.handle, m.flags, m.revision))
    requires Flagged(x, ContentRow(coll, opts, row, RemoteItem(row.handle, m.flags, m.revision)))
    ensures var item := RemoteItem(row.handle, m.flags, m.revision);
            && Quiet(coll, opts, x, item) && ContentRow(coll, opts, x, item) == x && x.handle == row.handle
            && x.status != Tombstone
  {
  }

  /** The flag axis replayed over its own writes, its push serviced or not, ends the same. */
  lemma FlagsReplay(opts: Options, left: Placement, m: Member, x: Placement, served: bool)
    requires !Lingers(opts, left, m) && left.status != Tombstone
    requires var item := RemoteItem(left.handle, m.flags, m.revision);
             var merged := if left.base.Some? then MergeFlags(left.base.value.flags, left.flags, item.flags)
                           else item.flags;
             || x == left
             || (left.base.Some? && merged != item.flags && x == left.(flags := merged))
             || (x == FlagsRow(opts, left, item) && (served || FlagsLeft(opts, left, item) == item.flags))
    ensures var item := RemoteItem(left.handle, m.flags, m.revision);
            var flags := FlagsLeft(opts, left, item);
            var again := if served then item.(flags := flags) else item;
            && FlagsRow(opts, x, again) == FlagsRow(opts, left, item)
            && FlagsLeft(opts, x, again) == flags
            && Flagged(x, left)
  {
    if left.base.Some? {
      FlagLaws.MergeIsStable(left.base.value.flags, left.flags, m.flags);
      FlagLaws.UnchangedSideYields(left.base.value.flags, m.flags);
    }
    FlagLaws.UnchangedSideYields(m.flags, m.flags);
    FlagLaws.UnchangedSideYields(FlagsLeft(opts, left, RemoteItem(left.handle, m.flags, m.revision)), m.flags);
    hide MergeFlags;
  }

  /** A merge of both sides without a body writes its own row alone. */
  lemma QuietIsBodiless(coll: CollectionId, opts: Options, x: Placement, m: Member, h: Handle)
    requires x.handle == h && x.status != Tombstone
    ensures var item := RemoteItem(h, m.flags, m.revision);
            Quiet(coll, opts, x, item) <==>
              Bodiless(MergeOne(coll, opts, Candidate(h, Some(x), Listing(h, Some(m)))), h)
  {
    var item := RemoteItem(h, m.flags, m.revision);
    var (content, outcome) := ReconcileContent(coll, opts, x, item);
    var left := ContentRow(coll, opts, x, item);
    var e := MergeBoth(coll, opts, x, item);
    BothEnd(coll, opts, x, m, None);
    ContentWrites(coll, opts, x, item);
    if !outcome.Pushed? {
      FlagsWithin(opts, left, item, Derive, {h});
      var flags := ReconcileFlags(opts, left, item, Derive);
      assert e.writes == content.writes + flags.writes;
      if |content.writes| == 2 {
        DupIsAnother(h, x.body.value);
        assert content.writes[0] in e.writes;
      }
    }
    hide ReconcileContent, ReconcileFlags, BothRow, BothMember, ContentRow;
  }

  /** The rows such a merge writes: what the content axis leaves, then what the flag axis does. */
  lemma QuietWrites(coll: CollectionId, opts: Options, row: Placement, m: Member, op: WriteOp)
    requires row.status != Tombstone && Quiet(coll, opts, row, RemoteItem(row.handle, m.flags, m.revision))
    requires op in MergeBoth(coll, opts, row, RemoteItem(row.handle, m.flags, m.revision)).writes
    ensures op.UpsertPlacement?
    ensures var item := RemoteItem(row.handle, m.flags, m.revision);
            var left := ContentRow(coll, opts, row, item);
            var flags := FlagsLeft(opts, left, item);
            || op.placement == left
            || (op.placement == FlagsRow(opts, left, item) && flags == item.flags)
            || (left.base.Some? && flags != item.flags && op.placement == left.(flags := flags)
                && flags == MergeFlags(left.base.value.flags, left.flags, item.flags))
  {
    var item := RemoteItem(row.handle, m.flags, m.revision);
    var (content, _) := ReconcileContent(coll, opts, row, item);
    var left := ContentRow(coll, opts, row, item);
    var flags := ReconcileFlags(opts, left, item, Derive);
    ContentWrites(coll, opts, row, item);
    FlagsWrites(opts, left, item);
    assert MergeBoth(coll, opts, row, item).writes == content.writes + flags.writes;
    hide ReconcileContent, ReconcileFlags, FlagsRow, MergeBoth, ContentRow, MergeFlags;
  }

  /** The rows a cut may leave of a handle listed on both sides. */
  lemma MidwayRows(coll: CollectionId, opts: Options, h: Handle, row: Placement, m: Member, left: Option<Placement>,
                   member: Option<Member>)
    requires row.handle == h && row.status != Tombstone && Midway(coll, opts, h, Some(row), Some(m), left, member)
    requires Bodiless(MergeOne(coll, opts, Candidate(h, Some(row), Listing(h, Some(m)))), h)
    ensures left.Some?
    ensures var item := RemoteItem(h, m.flags, m.revision);
            var settled := ContentRow(coll, opts, row, item);
            var flags := FlagsLeft(opts, settled, item);
            var x := left.value;
            && (member == Some(m) || member == Some(m.(flags := flags)))
            && (|| x == row || x == settled
                || (x == FlagsRow(opts, settled, item) && (flags == item.flags || member == Some(m.(flags := flags))))
                || (settled.base.Some? && flags != item.flags && x == settled.(flags := flags)
                    && flags == MergeFlags(settled.base.value.flags, settled.flags, item.flags)))
  {
    var item := RemoteItem(h, m.flags, m.revision);
    var e := MergeBoth(coll, opts, row, item);
    QuietIsBodiless(coll, opts, row, m, h);
    assert EndMember(coll, opts, Some(row), Some(m), None)
           == Some(m.(flags := FlagsLeft(opts, ContentRow(coll, opts, row, item), item)));
    assert EndRow(coll, opts, h, Some(row), Some(m), None)
           == Some(FlagsRow(opts, ContentRow(coll, opts, row, item), item));
    hide MergeBoth, ReconcileContent, FlagsRow, FlagsLeft, ContentRow, MergeFlags, EndRow, EndMember, Bodiless, Quiet;
    if Wrote(e, h, left) {
      var op :| op in e.writes && Touches(op, h) && Left(op) == left;
      QuietWrites(coll, opts, row, m, op);
    }
  }

  /** Run again from any of them, the handle ends the same. */
  lemma BothReplays(coll: CollectionId, opts: Options, h: Handle, row: Placement, m: Member, left: Option<Placement>,
                    member: Option<Member>, stamp: Option<Revision>)
    requires row.handle == h && row.status != Tombstone && Midway(coll, opts, h, Some(row), Some(m), left, member)
    requires Bodiless(MergeOne(coll, opts, Candidate(h, Some(row), Listing(h, Some(m)))), h)
    requires Replays(coll, opts, Some(row), Some(m))
    ensures left.Some? && left.value.handle == h
    ensures EndRow(coll, opts, h, left, member, stamp) == EndRow(coll, opts, h, Some(row), Some(m), None)
    ensures EndMember(coll, opts, left, member, stamp) == EndMember(coll, opts, Some(row), Some(m), None)
    ensures Bodiless(MergeOne(coll, opts, Candidate(h, left, Listing(h, member))), h)
  {
    var item := RemoteItem(h, m.flags, m.revision);
    var settled := ContentRow(coll, opts, row, item);
    var flags := FlagsLeft(opts, settled, item);
    MidwayRows(coll, opts, h, row, m, left, member);
    QuietIsBodiless(coll, opts, row, m, h);
    var x := left.value;
    var again := RemoteItem(h, member.value.flags, m.revision);
    ContentEnd(coll, opts, row, item);
    assert !Lingers(opts, settled, m) && !LacksRevision(row, m);
    var served := member == Some(m.(flags := flags));
    if x == row {
      ContentIgnoresFlags(coll, opts, row, item, member.value.flags);
      FlagsReplay(opts, settled, m, settled, served);
    } else {
      FlagsReplay(opts, settled, m, x, served);
      ContentStays(coll, opts, row, m, x);
      ContentIgnoresFlags(coll, opts, x, item, member.value.flags);
    }
    QuietIsBodiless(coll, opts, x, member.value, h);
    hide Bodiless, ReconcileContent, FlagsRow, FlagsLeft, Lingers, LacksRevision, Flagged, MergeFlags, Midway,
         MergeOne;
    assert again == item.(flags := member.value.flags);
  }

  /** A merge without a body ends the same whatever its remote would stamp one with. */
  lemma StampIgnored(coll: CollectionId, opts: Options, h: Handle, local: Option<Placement>, m: Option<Member>,
                     stamp: Option<Revision>)
    requires local.Some? ==> local.value.handle == h
    requires Bodiless(MergeOne(coll, opts, Candidate(h, local, Listing(h, m))), h)
    ensures EndRow(coll, opts, h, local, m, stamp) == EndRow(coll, opts, h, local, m, None)
    ensures EndMember(coll, opts, local, m, stamp) == EndMember(coll, opts, local, m, None)
  {
    if local.Some? && m.Some? {
      if local.value.status == Tombstone {
        TombstoneEnd(coll, opts, local.value, m.value, None);
        hide MergeBoth, RefuseDelete;
      } else {
        QuietIsBodiless(coll, opts, local.value, m.value, h);
        hide MergeOne, ReconcileContent, ContentRow, FlagsRow, FlagsLeft;
      }
    }
  }

  /** A new member pulled, or a row no longer listed, once written is written for good. */
  lemma OneSidedReplays(coll: CollectionId, opts: Options, h: Handle, local: Option<Placement>, m: Option<Member>,
                        left: Option<Placement>, member: Option<Member>, stamp: Option<Revision>)
    requires (local.Some? ==> local.value.handle == h) && (local.None? || m.None?)
    requires Midway(coll, opts, h, local, m, left, member)
    requires Bodiless(MergeOne(coll, opts, Candidate(h, local, Listing(h, m))), h)
    ensures left.Some? ==> left.value.handle == h
    ensures EndRow(coll, opts, h, left, member, stamp) == EndRow(coll, opts, h, local, m, None)
    ensures EndMember(coll, opts, left, member, stamp) == EndMember(coll, opts, local, m, None)
    ensures Bodiless(MergeOne(coll, opts, Candidate(h, left, Listing(h, member))), h)
  {
    if local.None? && m.Some? && left.Some? {
      PulledIsIdle(coll, opts, h, m.value, stamp);
      hide MergeBoth, BothRow, BothMember;
    } else {
      hide MergeBoth, MergeTombstone;
    }
  }

  lemma PulledIsIdle(coll: CollectionId, opts: Options, h: Handle, m: Member, stamp: Option<Revision>)
    ensures var item := RemoteItem(h, m.flags, m.revision);
            var row := PulledRow(coll, item);
            && BothRow(coll, opts, row, item, stamp) == row && BothMember(coll, opts, row, m, stamp) == m
            && Bodiless(MergeOne(coll, opts, Candidate(h, Some(row), Listing(h, Some(m)))), h)
  {
    var item := RemoteItem(h, m.flags, m.revision);
    var row := PulledRow(coll, item);
    FlagLaws.UnchangedSideYields(m.flags, m.flags);
    assert ContentRow(coll, opts, row, item) == row && Quiet(coll, opts, row, item);
    QuietIsBodiless(coll, opts, row, m, h);
    hide ReconcileContent, Bodiless, MergeOne, MergeFlags;
  }

  /** A tombstone both sides know: removed, taken back, or given back with nothing left to settle. */
  lemma TombstoneReplays(coll: CollectionId, opts: Options, h: Handle, row: Placement, m: Member,
                         left: Option<Placement>, member: Option<Member>, stamp: Option<Revision>)
    requires row.handle == h && row.status == Tombstone && Midway(coll, opts, h, Some(row), Some(m), left, member)
    requires Bodiless(MergeOne(coll, opts, Candidate(h, Some(row), Listing(h, Some(m)))), h)
    requires Replays(coll, opts, Some(row), Some(m))
    ensures left.Some? ==> left.value.handle == h
    ensures EndRow(coll, opts, h, left, member, stamp) == EndRow(coll, opts, h, Some(row), Some(m), None)
    ensures EndMember(coll, opts, left, member, stamp) == EndMember(coll, opts, Some(row), Some(m), None)
    ensures Bodiless(MergeOne(coll, opts, Candidate(h, left, Listing(h, member))), h)
  {
    TombstoneMidway(coll, opts, h, row, m, left, member);
    StampIgnored(coll, opts, h, Some(row), Some(m), stamp);
    if left != Some(row) {
      TombstoneRests(coll, opts, h, row, m, stamp);
    } else if member != Some(m) {
      TombstoneGone(coll, opts, h, row, stamp);
    }
    hide Midway, Bodiless, EndRow, EndMember, MergeOne, Replays;
  }

  /** Its removal on the server, a tombstone is dropped. */
  lemma TombstoneGone(coll: CollectionId, opts: Options, h: Handle, row: Placement, stamp: Option<Revision>)
    requires row.handle == h && row.status == Tombstone
    ensures EndRow(coll, opts, h, Some(row), None, stamp) == None
            && EndMember(coll, opts, Some(row), None, stamp) == None
    ensures Bodiless(MergeOne(coll, opts, Candidate(h, Some(row), None)), h)
  {
  }

  /** And where its round ends, the next one has nothing to do. */
  lemma TombstoneRests(coll: CollectionId, opts: Options, h: Handle, row: Placement, m: Member, stamp: Option<Revision>)
    requires row.handle == h && row.status == Tombstone && Replays(coll, opts, Some(row), Some(m))
    requires Bodiless(MergeOne(coll, opts, Candidate(h, Some(row), Listing(h, Some(m)))), h)
    ensures var end := EndRow(coll, opts, h, Some(row), Some(m), None);
            var served := EndMember(coll, opts, Some(row), Some(m), None);
            end != Some(row) ==>
              && EndRow(coll, opts, h, end, served, stamp) == end && EndMember(coll, opts, end, served, stamp) == served
              && (end.Some? ==> end.value.handle == h)
              && Bodiless(MergeOne(coll, opts, Candidate(h, end, Listing(h, served))), h)
  {
    TombstoneEndings(coll, opts, h, row, m);
    PulledIsIdle(coll, opts, h, m, stamp);
    if !TakenBack(row, m.revision) { RevertedIsIdle(coll, opts, row, m, stamp); }
    NothingIsBodiless(coll, opts, h);
    var end := EndRow(coll, opts, h, Some(row), Some(m), None);
    assert end.Some? && end.value == row.(status := Clean) ==> end.value.status == Clean;
    hide Bodiless, MergeOne, BothRow, BothMember, ReconcileFlags, TombstoneRow, TombstoneMember, Replays, TakenBack,
         PulledRow;
  }

  /** The ways a tombstone's round without a body ends. */
  lemma TombstoneEndings(coll: CollectionId, opts: Options, h: Handle, row: Placement, m: Member)
    requires row.handle == h && row.status == Tombstone && Replays(coll, opts, Some(row), Some(m))
    requires Bodiless(MergeOne(coll, opts, Candidate(h, Some(row), Listing(h, Some(m)))), h)
    ensures var end := EndRow(coll, opts, h, Some(row), Some(m), None);
            var served := EndMember(coll, opts, Some(row), Some(m), None);
            var item := RemoteItem(h, m.flags, m.revision);
            || end == Some(row)
            || (end == None && served == None)
            || (end == Some(PulledRow(coll, item)) && served == Some(m))
            || (end == Some(row.(status := Clean)) && served == Some(m) && !TakenBack(row, m.revision)
                && !UnsettledBack(opts, row, item))
  {
    TombstoneEnd(coll, opts, row, m, None);
    hide MergeOne, ReconcileFlags, PulledRow;
  }

  lemma NothingIsBodiless(coll: CollectionId, opts: Options, h: Handle)
    ensures Bodiless(MergeOne(coll, opts, Candidate(h, None, None)), h)
  {
  }

  /** A cut leaves a tombstone as it was or as its round ends, the server with or without its removal. */
  lemma TombstoneMidway(coll: CollectionId, opts: Options, h: Handle, row: Placement, m: Member,
                        left: Option<Placement>, member: Option<Member>)
    requires row.handle == h && row.status == Tombstone && Midway(coll, opts, h, Some(row), Some(m), left, member)
    requires Bodiless(MergeOne(coll, opts, Candidate(h, Some(row), Listing(h, Some(m)))), h)
    ensures var end := EndRow(coll, opts, h, Some(row), Some(m), None);
            var served := EndMember(coll, opts, Some(row), Some(m), None);
            && (left == Some(row) || left == end)
            && (member == Some(m) || member == served)
            && (left == end && end != Some(row) ==> member == served)
            && (member != Some(m) ==> member == None && end == None)
  {
    TombstoneWrites(coll, opts, row, m);
    TombstoneEnd(coll, opts, row, m, None);
    hide MergeOne, EndRow, EndMember;
  }

  lemma TombstoneWrites(coll: CollectionId, opts: Options, row: Placement, m: Member)
    requires row.status == Tombstone
    ensures var e := MergeOne(coll, opts, Candidate(row.handle, Some(row), Listing(row.handle, Some(m))));
            forall op :: op in e.writes ==> Left(op) == EndRow(coll, opts, row.handle, Some(row), Some(m), None)
  {
    hide MergeBoth, BothRow, BothMember;
  }

  /** The flag axis does nothing exactly where it leaves everything as it was. */
  lemma IdleFlags(opts: Options, row: Placement, item: RemoteItem)
    requires row.base.Some? && row.status == Clean
    ensures UnsettledBack(opts, row, item)
            <==> !(FlagsRow(opts, row, item) == row && FlagsLeft(opts, row, item) == item.flags)
  {
    hide MergeFlags;
  }

  lemma RevertedIsIdle(coll: CollectionId, opts: Options, row: Placement, m: Member, stamp: Option<Revision>)
    requires row.status == Tombstone && !TakenBack(row, m.revision)
    ensures var h := row.handle;
            var item := RemoteItem(h, m.flags, m.revision);
            var back := row.(status := Clean);
            && Bodiless(MergeOne(coll, opts, Candidate(h, Some(back), Listing(h, Some(m)))), h)
            && (!UnsettledBack(opts, row, item) <==>
                  BothRow(coll, opts, back, item, stamp) == back && BothMember(coll, opts, back, m, stamp) == m)
  {
    var h := row.handle;
    var item := RemoteItem(h, m.flags, m.revision);
    var back := row.(status := Clean);
    RevertedContent(coll, opts, row, item);
    QuietIsBodiless(coll, opts, back, m, h);
    IdleFlags(opts, back, item);
    hide ReconcileContent, ReconcileFlags, ContentRow, FlagsRow, FlagsLeft, PushesBody, Bodiless, MergeOne;
  }

  lemma RevertedContent(coll: CollectionId, opts: Options, row: Placement, item: RemoteItem)
    requires row.status == Tombstone && !TakenBack(row, item.revision)
    ensures var back := row.(status := Clean);
            && ContentRow(coll, opts, back, item) == back && Quiet(coll, opts, back, item)
            && !PushesBody(coll, opts, back, item)
  {
  }

  /** A handle any cut left so ends, run again, as it would have uninterrupted. */
  lemma MidwayEndsTheSame(coll: CollectionId, opts: Options, h: Handle, local: Option<Placement>, m: Option<Member>,
                          left: Option<Placement>, member: Option<Member>, stamp: Option<Revision>)
    requires (local.Some? ==> local.value.handle == h) && Midway(coll, opts, h, local, m, left, member)
    requires Bodiless(MergeOne(coll, opts, Candidate(h, local, Listing(h, m))), h)
    requires Replays(coll, opts, local, m)
    ensures left.Some? ==> left.value.handle == h
    ensures EndRow(coll, opts, h, left, member, stamp) == EndRow(coll, opts, h, local, m, None)
    ensures EndMember(coll, opts, left, member, stamp) == EndMember(coll, opts, local, m, None)
    ensures Bodiless(MergeOne(coll, opts, Candidate(h, left, Listing(h, member))), h)
  {
    if local.None? || m.None? {
      OneSidedReplays(coll, opts, h, local, m, left, member, stamp);
    } else if local.value.status == Tombstone {
      TombstoneReplays(coll, opts, h, local.value, m.value, left, member, stamp);
    } else {
      BothReplays(coll, opts, h, local.value, m.value, left, member, stamp);
    }
    hide Midway, Bodiless, EndRow, EndMember, MergeOne;
  }

  /** Given a base without the revision it met, a row catches up with it in its next sync. */
  lemma LackingCatchesUp(coll: CollectionId, opts: Options, h: Handle, row: Placement, m: Member)
    requires row.handle == h && row.status != Tombstone && LacksRevision(row, m)
    ensures var end := EndRow(coll, opts, h, Some(row), Some(m), None);
            && Midway(coll, opts, h, Some(row), Some(m), end, Some(m))
            && EndRow(coll, opts, h, end, Some(m), None) != end
  {
    var item := RemoteItem(h, m.flags, m.revision);
    var end := FlagsPulledRow(row, m.flags);
    LackingContent(coll, opts, row, item);
    FlagLaws.UnchangedSideYields(m.flags, m.flags);
    hide ReconcileContent, MergeFlags;
    assert EndRow(coll, opts, h, Some(row), Some(m), None) == Some(end);
    assert EndMember(coll, opts, Some(row), Some(m), None) == Some(m);
    var again := FlagsRow(opts, ContentRow(coll, opts, end, item), item);
    assert again.base.Some? && (again.base.value.revision == m.revision || again.conflictRevision == m.revision);
  }

  lemma LackingContent(coll: CollectionId, opts: Options, row: Placement, item: RemoteItem)
    requires row.status != Tombstone && row.base.None? && row.body.None? && item.revision.Some?
    requires !(row.status == Conflict && row.conflictRevision == item.revision)
    ensures ContentRow(coll, opts, row, item) == row && !PushesBody(coll, opts, row, item)
    ensures var end := FlagsPulledRow(row, item.flags);
            var again := ContentRow(coll, opts, end, item);
            && !PushesBody(coll, opts, end, item)
            && again.base.Some? && again.base.value.flags == item.flags && again.flags == item.flags
            && (if row.status == Conflict then again.conflictRevision == item.revision && again.status == Conflict
                else again.base.value.revision == item.revision && again.status == Clean)
  {
  }

  /** Its flags pushed and not recorded, a lingering row has nothing left to settle it. */
  lemma LingeringStays(coll: CollectionId, opts: Options, h: Handle, row: Placement, m: Member)
    requires row.handle == h && row.status != Tombstone && !LacksRevision(row, m)
    requires Bodiless(MergeOne(coll, opts, Candidate(h, Some(row), Listing(h, Some(m)))), h)
    requires Lingers(opts, ContentRow(coll, opts, row, RemoteItem(h, m.flags, m.revision)), m)
    ensures var left := Some(ContentRow(coll, opts, row, RemoteItem(h, m.flags, m.revision)));
            var served := EndMember(coll, opts, Some(row), Some(m), None);
            && Midway(coll, opts, h, Some(row), Some(m), left, served)
            && EndRow(coll, opts, h, left, served, None) != EndRow(coll, opts, h, Some(row), Some(m), None)
  {
    var item := RemoteItem(h, m.flags, m.revision);
    var left := ContentRow(coll, opts, row, item);
    QuietIsBodiless(coll, opts, row, m, h);
    ContentEnd(coll, opts, row, item);
    SettledIsWritten(coll, opts, h, row, m);
    ContentStays(coll, opts, row, m, left);
    var flags := FlagsLeft(opts, left, item);
    ContentIgnoresFlags(coll, opts, left, item, flags);
    FlagLaws.UnknownHasNoOpinion(left.base.value.flags, left.flags);
    FlagLaws.UnchangedSideYields(left.flags, left.flags);
    hide ReconcileContent, ContentRow, Bodiless, MergeOne, Flagged, MergeFlags, LacksRevision;
    assert flags == left.flags && FlagsRow(opts, left, item) == FlagsPulledRow(left, left.flags);
    assert FlagsRow(opts, left, item.(flags := flags)) == left;
    hide FlagsRow, FlagsLeft;
  }

  lemma SettledIsWritten(coll: CollectionId, opts: Options, h: Handle, row: Placement, m: Member)
    requires row.handle == h && row.status != Tombstone && Quiet(coll, opts, row, RemoteItem(h, m.flags, m.revision))
    ensures var left := ContentRow(coll, opts, row, RemoteItem(h, m.flags, m.revision));
            left == row || Wrote(MergeOne(coll, opts, Candidate(h, Some(row), Listing(h, Some(m)))), h, Some(left))
  {
    var item := RemoteItem(h, m.flags, m.revision);
    var (content, _) := ReconcileContent(coll, opts, row, item);
    var left := ContentRow(coll, opts, row, item);
    var flags := ReconcileFlags(opts, left, item, Derive);
    ContentWrites(coll, opts, row, item);
    var e := MergeBoth(coll, opts, row, item);
    assert e.writes == content.writes + flags.writes;
    if left != row {
      assert UpsertPlacement(left) in e.writes;
      hide ReconcileContent, ReconcileFlags, MergeBoth, ContentRow;
      assert Wrote(e, h, Some(left));
    }
  }

  /** Whatever the row and its member, and however the run was cut, running again ends the same, if and
    * only if the handle replays: a base is not made without the revision it met, flags the remote never
    * read are not all that was left to settle, and no delete is given back with flags unsettled. */
  lemma ReplaysExactly(coll: CollectionId, opts: Options, h: Handle, local: Option<Placement>, m: Option<Member>)
    requires local.Some? ==> local.value.handle == h
    requires Bodiless(MergeOne(coll, opts, Candidate(h, local, Listing(h, m))), h)
    ensures Replays(coll, opts, local, m)
            <==> forall left, member :: Midway(coll, opts, h, local, m, left, member) ==>
                   && EndRow(coll, opts, h, left, member, None) == EndRow(coll, opts, h, local, m, None)
                   && EndMember(coll, opts, left, member, None) == EndMember(coll, opts, local, m, None)
  {
    if Replays(coll, opts, local, m) {
      forall left, member | Midway(coll, opts, h, local, m, left, member)
        ensures EndRow(coll, opts, h, left, member, None) == EndRow(coll, opts, h, local, m, None)
        ensures EndMember(coll, opts, left, member, None) == EndMember(coll, opts, local, m, None)
      {
        MidwayEndsTheSame(coll, opts, h, local, m, left, member, None);
      }
    } else {
      OthersDiffer(coll, opts, h, local.value, m.value);
    }
  }

  lemma OthersDiffer(coll: CollectionId, opts: Options, h: Handle, row: Placement, m: Member)
    requires row.handle == h && !Replays(coll, opts, Some(row), Some(m))
    requires Bodiless(MergeOne(coll, opts, Candidate(h, Some(row), Listing(h, Some(m)))), h)
    ensures exists left, member :: Midway(coll, opts, h, Some(row), Some(m), left, member)
              && (EndRow(coll, opts, h, left, member, None) != EndRow(coll, opts, h, Some(row), Some(m), None)
                  || EndMember(coll, opts, left, member, None) != EndMember(coll, opts, Some(row), Some(m), None))
  {
    if row.status == Tombstone {
      RevertedDiffers(coll, opts, h, row, m);
    } else if LacksRevision(row, m) {
      LackingCatchesUp(coll, opts, h, row, m);
    } else {
      LingeringStays(coll, opts, h, row, m);
    }
    hide Midway, EndRow, EndMember, Bodiless;
  }

  lemma RevertedDiffers(coll: CollectionId, opts: Options, h: Handle, row: Placement, m: Member)
    requires row.handle == h && row.status == Tombstone
    requires RevertsUnsettled(opts, row, RemoteItem(h, m.flags, m.revision))
    ensures var left := Some(row.(status := Clean));
            && Midway(coll, opts, h, Some(row), Some(m), left, Some(m))
            && (EndRow(coll, opts, h, left, Some(m), None) != EndRow(coll, opts, h, Some(row), Some(m), None)
                || EndMember(coll, opts, left, Some(m), None) != EndMember(coll, opts, Some(row), Some(m), None))
  {
    RevertedIsIdle(coll, opts, row, m, None);
    hide MergeOne, BothRow, BothMember, ReconcileFlags, Wrote;
  }

  /** Each way of not replaying, at an input: the create a copy of a probed row stages, listed with a
    * revision; an edit no right lets out beside flags the remote never read; and a refused delete of a
    * member whose marker was added. */
  lemma SomeNeverReplay(coll: CollectionId, opts: Options, h: Handle, was: Hash, now: Hash, rev: Revision, mark: Text)
    requires opts.MayFlags() && !opts.MayContent() && !opts.MayRemove() && opts.delete == Revert && was != now
    ensures var clean := PulledRow(coll, RemoteItem(h, NO_FLAGS, Some(rev)));
            var based := clean.(body := Some(now), base := Some(Base(NO_FLAGS, Some(rev), Some(was))));
            && NeverReplays(coll, opts, clean.(status := Created, base := None), Member(NO_FLAGS, Some(rev), None))
            && NeverReplays(coll, opts, based.(status := Dirty), Member(Unknown, Some(rev), Some(was)))
            && NeverReplays(coll, opts, based.(status := Tombstone), Member(Known({mark}), Some(rev), Some(was)))
  {
    var clean := PulledRow(coll, RemoteItem(h, NO_FLAGS, Some(rev)));
    var based := clean.(body := Some(now), base := Some(Base(NO_FLAGS, Some(rev), Some(was))));
    assert mark in {mark} && Known({mark}) != NO_FLAGS;
    QuietIsBodiless(coll, opts, clean.(status := Created, base := None), Member(NO_FLAGS, Some(rev), None), h);
    QuietIsBodiless(coll, opts, based.(status := Dirty), Member(Unknown, Some(rev), Some(was)), h);
    FlagLaws.UnchangedSideYields(NO_FLAGS, Known({mark}));
    hide MergeFlags;
    assert RevertsUnsettled(opts, based.(status := Tombstone), RemoteItem(h, Known({mark}), Some(rev)));
  }

  /** A merge without a body that some cut and re-run ends elsewhere. */
  ghost predicate NeverReplays(coll: CollectionId, opts: Options, row: Placement, m: Member) {
    && Bodiless(MergeOne(coll, opts, Candidate(row.handle, Some(row), Listing(row.handle, Some(m)))), row.handle)
    && !Replays(coll, opts, Some(row), Some(m))
  }

  /** A body push carried out and never recorded is the exception. Its revision, if the remote reports
    * one, is a stranger's to the next sync, which ends as the uninterrupted one would exactly where there
    * is none, or where the policy pushes over it; under the manual policy it ends in a conflict with the
    * very body it pushed. */
  lemma BodyReplays(coll: CollectionId, opts: Options, row: Placement, m: Member, stamp: Option<Revision>,
                    restamp: Option<Revision>)
    requires PushesBody(coll, opts, row, RemoteItem(row.handle, m.flags, m.revision))
    requires stamp.Some? ==> stamp != row.BaseRevision()
    ensures var item := RemoteItem(row.handle, m.flags, m.revision);
            var served := BothMember(coll, opts, row, m, stamp);
            var again := RemoteItem(row.handle, served.flags, served.revision);
            && served.body == row.body
            && (BothRow(coll, opts, row, again, restamp) == BothRow(coll, opts, row, item, restamp)
                <==> stamp.None? || opts.conflict == PreferLocal)
            && (BothRow(coll, opts, row, again, restamp).status == Conflict <==> stamp.Some? && opts.conflict == Manual)
  {
    hide MergeFlags;
  }

  lemma BodilessIsPlain(coll: CollectionId, opts: Options, store: Rows, server: Server, mint: Mint, h: Handle)
    requires AllBodiless(coll, opts, store, server)
    ensures LeftAlone(coll, opts, store, server, mint, h)
  {
    hide EffectOf;
    forall g | g != h ensures Touching(EffectOf(coll, opts, store, server, g).writes, h) == [] {
      assert Bodiless(EffectOf(coll, opts, store, server, g), g);
      TouchingNone(EffectOf(coll, opts, store, server, g).writes, {g}, h);
    }
    forall g ensures !AddsAt(coll, opts, store, server, g) {
      assert Bodiless(EffectOf(coll, opts, store, server, g), g);
    }
  }

  /** The recording of a flag set or a removal leaves the row as its round ends. */
  lemma RecordedIsEnd(coll: CollectionId, opts: Options, h: Handle, local: Option<Placement>, m: Option<Member>,
                      p: Pendings, mint: Mint, op: WriteOp)
    requires local.Some? ==> local.value.handle == h
    requires var e := MergeOne(coll, opts, Candidate(h, local, Listing(h, m)));
             && Bodiless(e, h) && e.push.Some? && e.push.value.kind.handle == h && Matched(e.push.value)
             && OwedAt(p, h) == OwedAt(NO_PENDINGS.Add(h, e.push.value.pending), h)
             && op in RecordOne(coll, p, ResultOf(e.push.value.kind, mint)).writes
    ensures Left(op) == EndRow(coll, opts, h, local, m, None)
  {
    var e := MergeOne(coll, opts, Candidate(h, local, Listing(h, m)));
    var stamp := mint.stamp(h);
    var r := ResultOf(e.push.value.kind, mint);
    EffectEndsOn(coll, opts, h, local, m, stamp);
    StampIgnored(coll, opts, h, local, m, stamp);
    RecordReadsOwed(coll, p, NO_PENDINGS.Add(h, e.push.value.pending), r);
    hide MergeOne, EndRow, EndMember;
    if e.push.value.kind.SetFlags? {
      FlagPushRecords(coll, h, e.push.value.pending.row, stamp);
    } else {
      DropPushRecords(coll, h, stamp);
    }
    hide RecordOne, RebasedRow;
    assert r == PushResult(h, Accepted, None, stamp) && EffectOps(coll, h, e, stamp) == e.writes + [op];
    AfterConcat(local, e.writes, [op], h);
    assert Touches(op, h) by { SettledStays(e.push.value.pending, h); }
    AfterOne(After(local, e.writes, h), op, h);
    hide After;
  }

  lemma SettledStays(pending: Pending, h: Handle)
    ensures pending.FlagPush? && pending.row.handle == h ==> RebasedRow(pending.row, pending.row.flags).handle == h
  {
  }

  /** A cut: the requests carried out, the ops that reached the storage, and how many changes the
    * server serviced, at least those asked for. */
  ghost predicate CutAt(asked: seq<Yield>, i: nat, n: nat, kept: seq<WriteOp>) {
    && i <= |asked|
    && |Sent(asked[..i])| <= n <= |Sent(asked)|
    && (forall op :: op in kept ==> op in Ops(asked[..i]))
  }

  lemma SentPrefix(asked: seq<Yield>, i: nat)
    requires i <= |asked|
    ensures Sent(asked[..i]) <= Sent(asked)
  {
    assert asked == asked[..i] + asked[i..];
    AcceptingConcat(asked[..i], asked[i..], Mint(h => None, h => None));
  }

  lemma DistinctPrefix(ks: seq<ChangeKind>, n: nat)
    requires Distinct(Handles(ks)) && n <= |ks|
    ensures Distinct(Handles(ks[..n]))
  {
    var hs := Handles(ks);
    assert Handles(ks[..n]) == hs[..n];
  }

  /** What any number of serviced pushes leaves of a member: it as it was, or with its own change. */
  lemma ServedIsMidway(coll: CollectionId, opts: Options, listing: seq<Placement>, store: Rows,
                       cursor: Option<Checkpoint>, snapshot: Snapshot, server: Server, mint: Mint, n: nat, h: Handle)
    requires Lists(listing, store) && Shows(snapshot, server) && LeftAlone(coll, opts, store, server, mint, h)
    requires Bodiless(EffectOf(coll, opts, store, server, h), h)
    requires n <= |Merged(coll, opts, listing, cursor, snapshot).pushes|
    ensures var ks := Merged(coll, opts, listing, cursor, snapshot).pushes;
            var m := MemberAt(server, h);
            MemberAt(Serve(server, ks[..n], mint), h)
            == if PushAt(ks, h).Some? && PushAt(ks, h).value in ks[..n]
               then EndMember(coll, opts, At(store, h), m, None) else m
  {
    var ks := Merged(coll, opts, listing, cursor, snapshot).pushes;
    RowIsOwn(listing, store, h);
    OwnIsMatched(coll, opts, listing, store, cursor, snapshot, server, h);
    EffectIsMerge(coll, opts, store, server, mint, h);
    AddsNotOwn(coll, opts, store, server, mint, h);
    var e := EffectOf(coll, opts, store, server, h);
    assert Alone(coll, opts, store, server, h) && Unminted(coll, opts, store, server, mint, h);
    StampIgnored(coll, opts, h, At(store, h), MemberAt(server, h), mint.stamp(h));
    hide *;
    PushesDistinct(coll, opts, listing, store, cursor, snapshot, server);
    MergedLeaves(coll, opts, listing, store, cursor, snapshot, server, h);
    PushesReach(coll, opts, listing, store, cursor, snapshot, server, mint, h);
    DistinctPrefix(ks, n);
    ReachedPrefix(ks, n, mint, h, PushAt(ks, h));
    ServeAt(server, ks[..n], mint, h, PushAt(ks, h));
    var p := if e.push.Some? then NO_PENDINGS.Add(h, e.push.value.pending) else NO_PENDINGS;
    EffectEnds(coll, h, e, p, server, mint);
  }

  lemma ReachedPrefix(ks: seq<ChangeKind>, n: nat, mint: Mint, h: Handle, own: Option<ChangeKind>)
    requires ReachedBy(ks, mint, h, own) && n <= |ks|
    ensures ReachedBy(ks[..n], mint, h, own)
  {
  }

  /** However a run was cut, a handle apart whose merge pushes no body is midway. */
  lemma CutIsMidway(coll: CollectionId, opts: Options, listing: seq<Placement>, store: Rows, cursor: Option<Checkpoint>,
                    snapshot: Snapshot, server: Server, mint: Mint, answers: seq<seq<PushResult>>, i: nat, n: nat,
                    kept: seq<WriteOp>, h: Handle)
    requires Lists(listing, store) && Shows(snapshot, server) && LeftAlone(coll, opts, store, server, mint, h)
    requires Bodiless(EffectOf(coll, opts, store, server, h), h)
    requires answers == Accepting(RunOf(coll, opts, listing, cursor, snapshot, answers).asked, mint)
    requires CutAt(RunOf(coll, opts, listing, cursor, snapshot, answers).asked, i, n, kept)
    ensures Midway(coll, opts, h, At(store, h), MemberAt(server, h), At(Apply(store, kept), h),
                   MemberAt(Serve(server, Sent(RunOf(coll, opts, listing, cursor, snapshot, answers).asked)[..n], mint),
                            h))
  {
    var asked := RunOf(coll, opts, listing, cursor, snapshot, answers).asked;
    var ks := Merged(coll, opts, listing, cursor, snapshot).pushes;
    assert i <= |asked| && |Sent(asked[..i])| <= n <= |Sent(asked)|
           && forall op :: op in kept ==> op in Ops(asked[..i]);
    hide *;
    AcceptedRun(coll, opts, listing, cursor, snapshot, answers, mint);
    ServedIsMidway(coll, opts, listing, store, cursor, snapshot, server, mint, n, h);
    SentPrefix(asked, i);
    AppliedFrom(store, kept, h);
    var row := At(Apply(store, kept), h);
    if row != At(store, h) {
      var op :| op in kept && Touches(op, h) && Left(op) == row;
      CutWrote(coll, opts, listing, store, cursor, snapshot, server, mint, answers, i, h, op);
      InPrefix(Sent(asked[..i]), ks, n, PushAt(ks, h));
    }
    IsMidway(coll, opts, store, server, h, row, MemberAt(Serve(server, ks[..n], mint), h));
  }

  lemma InPrefix(sent: seq<ChangeKind>, ks: seq<ChangeKind>, n: nat, own: Option<ChangeKind>)
    requires sent <= ks && |sent| <= n <= |ks|
    ensures own.Some? && own.value in sent ==> own.value in ks[..n]
  {
    assert sent <= ks[..n];
  }

  lemma IsMidway(coll: CollectionId, opts: Options, store: Rows, server: Server, h: Handle, row: Option<Placement>,
                 member: Option<Member>)
    requires var local, m := At(store, h), MemberAt(server, h);
             var end := EndMember(coll, opts, local, m, None);
             && (member == m || member == end)
             && (|| row == local || Wrote(EffectOf(coll, opts, store, server, h), h, row)
                 || (row == EndRow(coll, opts, h, local, m, None) && member == end))
    ensures Midway(coll, opts, h, At(store, h), MemberAt(server, h), row, member)
  {
    hide EndRow, EndMember, MergeOne, Wrote;
  }

  /** An op of a cut run touching a handle is its merge's, or the recording of its change, pushed by then. */
  lemma CutWrote(coll: CollectionId, opts: Options, listing: seq<Placement>, store: Rows, cursor: Option<Checkpoint>,
                 snapshot: Snapshot, server: Server, mint: Mint, answers: seq<seq<PushResult>>, i: nat, h: Handle,
                 op: WriteOp)
    requires Lists(listing, store) && Shows(snapshot, server) && LeftAlone(coll, opts, store, server, mint, h)
    requires Bodiless(EffectOf(coll, opts, store, server, h), h)
    requires answers == Accepting(RunOf(coll, opts, listing, cursor, snapshot, answers).asked, mint)
    requires i <= |RunOf(coll, opts, listing, cursor, snapshot, answers).asked|
    requires op in Ops(RunOf(coll, opts, listing, cursor, snapshot, answers).asked[..i]) && Touches(op, h)
    ensures var ks := Merged(coll, opts, listing, cursor, snapshot).pushes;
            || Wrote(EffectOf(coll, opts, store, server, h), h, Left(op))
            || (Left(op) == EndRow(coll, opts, h, At(store, h), MemberAt(server, h), None)
                && PushAt(ks, h).Some?
                && PushAt(ks, h).value in Sent(RunOf(coll, opts, listing, cursor, snapshot, answers).asked[..i]))
  {
    var asked := RunOf(coll, opts, listing, cursor, snapshot, answers).asked;
    var t := Merged(coll, opts, listing, cursor, snapshot);
    var e := EffectOf(coll, opts, store, server, h);
    assert !op.SetCheckpoint? && Alone(coll, opts, store, server, h) && Unminted(coll, opts, store, server, mint, h);
    RowIsOwn(listing, store, h);
    OwnIsMatched(coll, opts, listing, store, cursor, snapshot, server, h);
    EffectIsMerged(coll, opts, store, server, h);
    hide *;
    PrefixWrites(coll, opts, listing, cursor, snapshot, answers, mint, i, op);
    MergedLeaves(coll, opts, listing, store, cursor, snapshot, server, h);
    if op in t.writes {
      TouchingHas(t.writes, h, op);
      TouchingHas(e.writes, h, op);
      IsWrote(e, h, op);
    } else {
      var sent := Sent(asked[..i]);
      AcceptedRun(coll, opts, listing, cursor, snapshot, answers, mint);
      SentPrefix(asked, i);
      MergedIsKeyed(coll, opts, listing, store, cursor, snapshot, server);
      PushesReach(coll, opts, listing, store, cursor, snapshot, server, mint, h);
      SentIsPrefix(t.pushes, sent, mint, h);
      RecordsTouch(coll, t.pendings, sent, mint, h, PushAt(t.pushes, h));
      TouchingHas(RecordAll(coll, t.pendings, Results(sent, mint)).writes, h, op);
      TouchingHas(RecordOne(coll, t.pendings, ResultOf(e.push.value.kind, mint)).writes, h, op);
      RecordedIsEnd(coll, opts, h, At(store, h), MemberAt(server, h), t.pendings, mint, op);
    }
  }

  lemma EffectIsMerged(coll: CollectionId, opts: Options, store: Rows, server: Server, h: Handle)
    ensures EffectOf(coll, opts, store, server, h)
            == MergeOne(coll, opts, Candidate(h, At(store, h), Listing(h, MemberAt(server, h))))
  {
  }

  lemma IsWrote(e: Effect, h: Handle, op: WriteOp)
    requires op in e.writes && Touches(op, h)
    ensures Wrote(e, h, Left(op))
  {
  }

  lemma SentIsPrefix(ks: seq<ChangeKind>, sent: seq<ChangeKind>, mint: Mint, h: Handle)
    requires sent <= ks && Distinct(Handles(ks)) && ReachedBy(ks, mint, h, PushAt(ks, h))
    ensures Distinct(Handles(sent)) && ReachedBy(sent, mint, h, PushAt(ks, h))
  {
    assert sent == ks[..|sent|];
    DistinctPrefix(ks, |sent|);
  }

  /** A run cut short anywhere and run again leaves each restartable handle where the uninterrupted one
    * does, on the row and on the server: after any number of requests carried out, with any of the ops
    * they asked for on disk, in any order and any number lost, and any number of changes serviced, at
    * least those pushed; whatever bodies the other handles push, whatever they add or fork. */
  lemma ReplayEndsTheSame(coll: CollectionId, opts: Options, listing: seq<Placement>, store: Rows,
                          cursor: Option<Checkpoint>, snapshot: Snapshot, server: Server, mint: Mint,
                          answers: seq<seq<PushResult>>, i: nat, n: nat, kept: seq<WriteOp>, relisting: seq<Placement>,
                          recursor: Option<Checkpoint>, resnapshot: Snapshot, remint: Mint,
                          reanswers: seq<seq<PushResult>>, h: Handle)
    requires Lists(listing, store) && Shows(snapshot, server) && Restartable(coll, opts, store, server, mint, h)
    requires answers == Accepting(RunOf(coll, opts, listing, cursor, snapshot, answers).asked, mint)
    requires CutAt(RunOf(coll, opts, listing, cursor, snapshot, answers).asked, i, n, kept)
    requires Lists(relisting, Apply(store, kept))
    requires var served := Serve(server, Sent(RunOf(coll, opts, listing, cursor, snapshot, answers).asked)[..n], mint);
             Shows(resnapshot, served) && LeftAlone(coll, opts, Apply(store, kept), served, remint, h)
    requires reanswers == Accepting(RunOf(coll, opts, relisting, recursor, resnapshot, reanswers).asked, remint)
    ensures var run := RunOf(coll, opts, listing, cursor, snapshot, answers);
            var rerun := RunOf(coll, opts, relisting, recursor, resnapshot, reanswers);
            && At(Apply(Apply(store, kept), Ops(rerun.asked)), h) == At(Apply(store, Ops(run.asked)), h)
            && MemberAt(Serve(Serve(server, Sent(run.asked)[..n], mint), Sent(rerun.asked), remint), h)
               == MemberAt(Serve(server, Sent(run.asked), mint), h)
  {
    assert n <= |Sent(RunOf(coll, opts, listing, cursor, snapshot, answers).asked)|;
    var run := RunOf(coll, opts, listing, cursor, snapshot, answers);
    var rows, served := Apply(store, kept), Serve(server, Sent(run.asked)[..n], mint);
    RestartableIsApart(coll, opts, store, server, mint, h);
    assert Alone(coll, opts, rows, served, h) && Unminted(coll, opts, rows, served, remint, h);
    hide *;
    CutEnds(coll, opts, listing, store, cursor, snapshot, server, mint, answers, i, n, kept, h, remint.stamp(h));
    RunEnds(coll, opts, listing, store, cursor, snapshot, server, mint, answers, h);
    RunEnds(coll, opts, relisting, rows, recursor, resnapshot, served, remint, reanswers, h);
  }

  lemma RestartableIsApart(coll: CollectionId, opts: Options, store: Rows, server: Server, mint: Mint, h: Handle)
    requires Restartable(coll, opts, store, server, mint, h)
    ensures LeftAlone(coll, opts, store, server, mint, h) && Bodiless(EffectOf(coll, opts, store, server, h), h)
    ensures Alone(coll, opts, store, server, h) && Unminted(coll, opts, store, server, mint, h)
    ensures Replays(coll, opts, At(store, h), MemberAt(server, h))
  {
  }

  /** Each handle a cut left ends, run again, as it would have uninterrupted. */
  lemma CutEnds(coll: CollectionId, opts: Options, listing: seq<Placement>, store: Rows, cursor: Option<Checkpoint>,
                snapshot: Snapshot, server: Server, mint: Mint, answers: seq<seq<PushResult>>, i: nat, n: nat,
                kept: seq<WriteOp>, h: Handle, stamp: Option<Revision>)
    requires Lists(listing, store) && Shows(snapshot, server) && Restartable(coll, opts, store, server, mint, h)
    requires answers == Accepting(RunOf(coll, opts, listing, cursor, snapshot, answers).asked, mint)
    requires CutAt(RunOf(coll, opts, listing, cursor, snapshot, answers).asked, i, n, kept)
    ensures var sent := Sent(RunOf(coll, opts, listing, cursor, snapshot, answers).asked);
            n <= |sent| &&
            var rows, served := Apply(store, kept), Serve(server, sent[..n], mint);
            && EndRow(coll, opts, h, At(rows, h), MemberAt(served, h), stamp)
               == EndRow(coll, opts, h, At(store, h), MemberAt(server, h), mint.stamp(h))
            && EndMember(coll, opts, At(rows, h), MemberAt(served, h), stamp)
               == EndMember(coll, opts, At(store, h), MemberAt(server, h), mint.stamp(h))
            && Bodiless(EffectOf(coll, opts, rows, served, h), h)
  {
    var asked := RunOf(coll, opts, listing, cursor, snapshot, answers).asked;
    assert n <= |Sent(asked)|;
    RowIsOwn(listing, store, h);
    var rows, served := Apply(store, kept), Serve(server, Sent(asked)[..n], mint);
    EffectIsMerged(coll, opts, store, server, h);
    EffectIsMerged(coll, opts, rows, served, h);
    RestartableIsApart(coll, opts, store, server, mint, h);
    hide *;
    CutIsMidway(coll, opts, listing, store, cursor, snapshot, server, mint, answers, i, n, kept, h);
    MidwayEndsTheSame(coll, opts, h, At(store, h), MemberAt(server, h), At(rows, h), MemberAt(served, h), stamp);
    StampIgnored(coll, opts, h, At(store, h), MemberAt(server, h), mint.stamp(h));
  }

  /** The same where the second run only gets a delta, as long as it tells the truth about what the cut
    * left: from a checkpoint that did not move, as it does not in a cut run. */
  lemma ReplayOnDeltaEndsTheSame(coll: CollectionId, opts: Options, listing: seq<Placement>, store: Rows,
                                 cursor: Option<Checkpoint>, snapshot: Snapshot, server: Server, mint: Mint,
                                 answers: seq<seq<PushResult>>, i: nat, n: nat, kept: seq<WriteOp>,
                                 relisting: seq<Placement>, recursor: Option<Checkpoint>, delta: Snapshot,
                                 whole: Snapshot, remint: Mint, reanswers: seq<seq<PushResult>>, h: Handle)
    requires Lists(listing, store) && Shows(snapshot, server) && Restartable(coll, opts, store, server, mint, h)
    requires answers == Accepting(RunOf(coll, opts, listing, cursor, snapshot, answers).asked, mint)
    requires CutAt(RunOf(coll, opts, listing, cursor, snapshot, answers).asked, i, n, kept)
    requires Lists(relisting, Apply(store, kept)) && CleanAgrees(relisting) && Faithful(relisting, delta, whole)
    requires var served := Serve(server, Sent(RunOf(coll, opts, listing, cursor, snapshot, answers).asked)[..n], mint);
             Shows(whole, served) && LeftAlone(coll, opts, Apply(store, kept), served, remint, h)
    requires reanswers == Accepting(RunOf(coll, opts, relisting, recursor, delta, reanswers).asked, remint)
    ensures var run := RunOf(coll, opts, listing, cursor, snapshot, answers);
            var rerun := RunOf(coll, opts, relisting, recursor, delta, reanswers);
            && At(Apply(Apply(store, kept), Ops(rerun.asked)), h) == At(Apply(store, Ops(run.asked)), h)
            && MemberAt(Serve(Serve(server, Sent(run.asked)[..n], mint), Sent(rerun.asked), remint), h)
               == MemberAt(Serve(server, Sent(run.asked), mint), h)
  {
    assert n <= |Sent(RunOf(coll, opts, listing, cursor, snapshot, answers).asked)|;
    hide *;
    DeltaRunIsFullRun(coll, opts, relisting, recursor, delta, whole, reanswers);
    ReplayEndsTheSame(coll, opts, listing, store, cursor, snapshot, server, mint, answers, i, n, kept,
                      relisting, recursor, whole, remint, reanswers, h);
  }

  /** Every handle replays. */
  ghost predicate AllReplay(coll: CollectionId, opts: Options, store: Rows, server: Server) {
    forall h :: Replays(coll, opts, At(store, h), MemberAt(server, h))
  }

  /** Where no body is pushed or forked and nothing added, every handle is apart, in the run cut and in
    * the one after: the store and the server end as one. */
  lemma RunReplays(coll: CollectionId, opts: Options, listing: seq<Placement>, store: Rows, cursor: Option<Checkpoint>,
                   snapshot: Snapshot, server: Server, mint: Mint, answers: seq<seq<PushResult>>, i: nat, n: nat,
                   kept: seq<WriteOp>, relisting: seq<Placement>, recursor: Option<Checkpoint>, resnapshot: Snapshot,
                   remint: Mint, reanswers: seq<seq<PushResult>>)
    requires Lists(listing, store) && Shows(snapshot, server)
    requires AllBodiless(coll, opts, store, server) && AllReplay(coll, opts, store, server)
    requires answers == Accepting(RunOf(coll, opts, listing, cursor, snapshot, answers).asked, mint)
    requires CutAt(RunOf(coll, opts, listing, cursor, snapshot, answers).asked, i, n, kept)
    requires Lists(relisting, Apply(store, kept))
    requires Shows(resnapshot,
                   Serve(server, Sent(RunOf(coll, opts, listing, cursor, snapshot, answers).asked)[..n], mint))
    requires reanswers == Accepting(RunOf(coll, opts, relisting, recursor, resnapshot, reanswers).asked, remint)
    ensures var run := RunOf(coll, opts, listing, cursor, snapshot, answers);
            var rerun := RunOf(coll, opts, relisting, recursor, resnapshot, reanswers);
            && Apply(Apply(store, kept), Ops(rerun.asked)) == Apply(store, Ops(run.asked))
            && Serve(Serve(server, Sent(run.asked)[..n], mint), Sent(rerun.asked), remint)
               == Serve(server, Sent(run.asked), mint)
  {
    assert n <= |Sent(RunOf(coll, opts, listing, cursor, snapshot, answers).asked)|;
    var run := RunOf(coll, opts, listing, cursor, snapshot, answers);
    var rows, served := Apply(store, kept), Serve(server, Sent(run.asked)[..n], mint);
    var rerun := RunOf(coll, opts, relisting, recursor, resnapshot, reanswers);
    var after, again := Apply(store, Ops(run.asked)), Apply(rows, Ops(rerun.asked));
    var end, reend := Serve(server, Sent(run.asked), mint), Serve(served, Sent(rerun.asked), remint);
    hide *;
    CutIsBodiless(coll, opts, listing, store, cursor, snapshot, server, mint, answers, i, n, kept);
    forall h ensures At(again, h) == At(after, h) && MemberAt(reend, h) == MemberAt(end, h) {
      BodilessIsPlain(coll, opts, rows, served, remint, h);
      BodilessRestarts(coll, opts, store, server, mint, h);
      ReplayEndsTheSame(coll, opts, listing, store, cursor, snapshot, server, mint, answers, i, n, kept,
                        relisting, recursor, resnapshot, remint, reanswers, h);
    }
    SameRows(again, after);
    SameServer(reend, end);
  }

  lemma BodilessRestarts(coll: CollectionId, opts: Options, store: Rows, server: Server, mint: Mint, h: Handle)
    requires AllBodiless(coll, opts, store, server) && AllReplay(coll, opts, store, server)
    ensures Restartable(coll, opts, store, server, mint, h)
  {
    BodilessIsPlain(coll, opts, store, server, mint, h);
    hide LeftAlone, Bodiless, Replays, EffectOf;
  }

  lemma CutIsBodiless(coll: CollectionId, opts: Options, listing: seq<Placement>, store: Rows,
                      cursor: Option<Checkpoint>, snapshot: Snapshot, server: Server, mint: Mint,
                      answers: seq<seq<PushResult>>, i: nat, n: nat, kept: seq<WriteOp>)
    requires Lists(listing, store) && Shows(snapshot, server)
    requires AllBodiless(coll, opts, store, server) && AllReplay(coll, opts, store, server)
    requires answers == Accepting(RunOf(coll, opts, listing, cursor, snapshot, answers).asked, mint)
    requires CutAt(RunOf(coll, opts, listing, cursor, snapshot, answers).asked, i, n, kept)
    ensures var sent := Sent(RunOf(coll, opts, listing, cursor, snapshot, answers).asked);
            n <= |sent| && AllBodiless(coll, opts, Apply(store, kept), Serve(server, sent[..n], mint))
  {
    var sent := Sent(RunOf(coll, opts, listing, cursor, snapshot, answers).asked);
    assert n <= |sent|;
    hide RunOf, Lists, Shows, CutAt, AllReplay, EffectOf, Bodiless, Apply, Serve, Accepting, Sent, EndRow, EndMember,
         Restartable;
    forall h ensures Bodiless(EffectOf(coll, opts, Apply(store, kept), Serve(server, sent[..n], mint), h), h) {
      BodilessRestarts(coll, opts, store, server, mint, h);
      CutEnds(coll, opts, listing, store, cursor, snapshot, server, mint, answers, i, n, kept, h, None);
    }
  }

  lemma SameRows(a: Rows, b: Rows)
    requires forall h :: At(a, h) == At(b, h)
    ensures a == b
  {
    assert forall h :: (h in a <==> At(a, h).Some?) && (h in b <==> At(b, h).Some?);
  }

  lemma SameServer(a: Server, b: Server)
    requires forall h :: MemberAt(a, h) == MemberAt(b, h)
    ensures a == b
  {
    assert forall h :: (h in a <==> MemberAt(a, h).Some?) && (h in b <==> MemberAt(b, h).Some?);
  }
}

/** The reference remote's deltas tell the truth about the rows an accepted run leaves, so a run on one
  * is a run on the whole, and so is the next.
  */
module DeltaRemote {
  import opened Wrappers
  import opened Text
  import opened Placement
  import opened Change
  import opened Remote
  import opened Join
  import opened JoinLaws
  import opened MergeRules
  import opened SyncMachine
  import opened SyncInvariants
  import opened SyncRuns
  import opened DeltaSync
  import opened Storage
  import opened Acceptance
  import opened Rounds
  import opened OneHandle
  import opened RoundEnds
  import opened RunWrites
  import opened MemRemote
  import SnapshotOrder
  import FlagLaws

  /** Whether a delta from a counter says something about a handle: its member stamped since, or gone
    * since. */
  ghost predicate Stamped(r: RemoteState, coll: CollectionId, counter: nat, h: Handle) {
    if h in r.MembersOf(coll) then r.MembersOf(coll)[h].changed > counter
    else exists gone :: gone in r.VanishedOf(coll) && gone.handle == h && gone.stamp > counter
  }

  /** Rows standing, wherever a delta from a counter is silent, for what the remote holds there. */
  ghost predicate RowsStandFor(rows: seq<Placement>, r: RemoteState, coll: CollectionId, counter: nat) {
    forall h :: !Stamped(r, coll, counter, h) ==>
      Untold(RowAt(rows, h)) == if h in r.MembersOf(coll) then Some(Row(r, h, r.MembersOf(coll)[h])) else None
  }

  lemma DeltaIsFaithful(r: RemoteState, coll: CollectionId, counter: nat, rows: seq<Placement>, delta: Snapshot,
                        whole: Snapshot)
    requires RowsStandFor(rows, r, coll, counter)
    requires Enumerates(r, coll, Some(counter), delta) && Enumerates(r, coll, None, whole)
    ensures Faithful(rows, delta, whole)
  {
    forall h | ItemAt(delta.items, h).None? && h !in delta.vanished
      ensures ItemAt(whole.items, h) == Untold(RowAt(rows, h))
    {
      assert !Stamped(r, coll, counter, h);
    }
  }

  /** A run on a delta asks for and reports exactly what the run on everything would. */
  lemma IncrementalRunIsFullRun(coll: CollectionId, opts: Options, rows: seq<Placement>, cursor: Option<Checkpoint>,
                                r: RemoteState, counter: nat, delta: Snapshot, whole: Snapshot,
                                answers: seq<seq<PushResult>>)
    requires RowsStandFor(rows, r, coll, counter) && CleanAgrees(rows)
    requires Enumerates(r, coll, Some(counter), delta) && Enumerates(r, coll, None, whole)
    ensures RunOf(coll, opts, rows, cursor, delta, answers) == RunOf(coll, opts, rows, cursor, whole, answers)
  {
    hide CleanAgrees, RunOf, Enumerates;
    DeltaIsFaithful(r, coll, counter, rows, delta, whole);
    DeltaRunIsFullRun(coll, opts, rows, cursor, delta, whole, answers);
  }

  /** The reference remote as the server of a run. */
  function ServerOf(r: RemoteState, coll: CollectionId): Server {
    map h | h in r.MembersOf(coll) ::
      var item := r.MembersOf(coll)[h]; Member(item.flags, r.RevisionOf(item.rev), Some(item.body))
  }

  lemma EnumerationShows(r: RemoteState, coll: CollectionId, whole: Snapshot)
    requires Enumerates(r, coll, None, whole)
    ensures Shows(whole, ServerOf(r, coll))
  {
  }

  /** What a stamp made since a counter tells, it tells for good. */
  lemma StaysStamped(r: RemoteState, edits: seq<Edit>, coll: CollectionId, counter: nat, past: Members, h: Handle)
    requires Since(r, coll, counter, past) && Stamped(r, coll, counter, h)
    ensures Stamped(EditedAll(r, edits), coll, counter, h)
  {
    var one := ServerItem(LinkId([]), Unknown, Hash([]), 0, 0);
    var other := one.(rev := 1);
    assert Since(r, coll, counter, past[h := one]) && Since(r, coll, counter, past[h := other]);
    HistoryKeepsSince(r, edits, coll, counter, past[h := one]);
    HistoryKeepsSince(r, edits, coll, counter, past[h := other]);
    hide EditedAll;
  }

  lemma {:induction false} EditedSplits(r: RemoteState, edits: seq<Edit>, j: nat)
    requires j < |edits|
    ensures EditedAll(r, edits) == EditedAll(EditedOnce(EditedAll(r, edits[..j]), edits[j]), edits[j + 1..])
    decreases j
  {
    if j == 0 {
      assert edits[..0] == [];
    } else {
      hide EditedOnce;
      assert edits[..j][0] == edits[0] && edits[..j][1..] == edits[1..][..j - 1]
             && edits[1..][j - 1 + 1..] == edits[j + 1..];
      EditedSplits(EditedOnce(r, edits[0]), edits[1..], j - 1);
    }
  }

  /** A change serviced and accepted stamps the handles it touches. */
  lemma ServiceStamps(r: RemoteState, coll: CollectionId, k: ChangeKind, counter: nat, past: Members, mint: Mint,
                      h: Handle)
    requires Since(r, coll, counter, past) && ServeKind(r, coll, k).1 == ResultOf(k, mint)
    requires h in Reach(k, mint) && (h == k.handle ==> !k.Add? && h in past)
    ensures Stamped(ServeKind(r, coll, k).0, coll, counter, h)
  {
    match k {
      case SetFlags(_, _) =>
      case Update(_, _, _) =>
      case Remove(_, to, link, ifMatch) => RemoveStamps(r, coll, h, to, link, ifMatch, counter, past);
      case Add(_, _, _, _, _) =>
        assert ServeKind(r, coll, k).1.assignedHandle == Some(h);
        hide Since, Decimal;
    }
  }

  lemma RemoveStamps(r: RemoteState, coll: CollectionId, h: Handle, to: Option<CollectionId>, link: Option<LinkId>,
                     ifMatch: Option<Revision>, counter: nat, past: Members)
    requires Since(r, coll, counter, past) && h in past
             && ServeRemove(r, coll, h, to, link, ifMatch).1.outcome == Accepted
    ensures Stamped(ServeRemove(r, coll, h, to, link, ifMatch).0, coll, counter, h)
  {
    var b := r.Bumped();
    if h in r.MembersOf(coll) {
      var gone := Gone(b.counter, h);
      var left := b.Taken(coll, h, b.counter);
      assert gone in left.VanishedOf(coll);
      hide Since, HolderIn, Decimal;
      var moved := ServeRemove(r, coll, h, to, link, ifMatch).0;
      assert gone in moved.VanishedOf(coll);
      LongerThanItself(h);
      assert h !in moved.MembersOf(coll);
    }
  }

  lemma LongerThanItself(h: Handle)
    ensures MovedHandle(h) != h
  {
    assert |MovedHandle(h).text| > |h.text|;
  }

  /** A change of a run, serviced somewhere in a history with the outcome the run was told. */
  ghost predicate ServicedIn(start: RemoteState, edits: seq<Edit>, coll: CollectionId, k: ChangeKind, mint: Mint) {
    exists j :: 0 <= j < |edits| && edits[j] == Edit.Pushed(coll, k)
                && ServeKind(EditedAll(start, edits[..j]), coll, k).1 == ResultOf(k, mint)
  }

  lemma ServicedIsStamped(start: RemoteState, edits: seq<Edit>, coll: CollectionId, k: ChangeKind, mint: Mint,
                          h: Handle)
    requires ServicedIn(start, edits, coll, k, mint)
    requires h in Reach(k, mint) && (h == k.handle ==> !k.Add? && h in start.MembersOf(coll))
    ensures Stamped(EditedAll(start, edits), coll, start.counter, h)
  {
    var past := start.MembersOf(coll);
    var j :| 0 <= j < |edits| && edits[j] == Edit.Pushed(coll, k)
             && ServeKind(EditedAll(start, edits[..j]), coll, k).1 == ResultOf(k, mint);
    var before := EditedAll(start, edits[..j]);
    SinceNow(start, coll);
    HistoryKeepsSince(start, edits[..j], coll, start.counter, past);
    ServiceStamps(before, coll, k, start.counter, past, mint, h);
    ServeKeepsSince(before, coll, k, coll, start.counter, past);
    EditedSplits(start, edits, j);
    hide EditedAll, ServeKind, Since, Stamped;
    assert EditedOnce(before, edits[j]) == ServeKind(before, coll, k).0;
    StaysStamped(ServeKind(before, coll, k).0, edits[j + 1..], coll, start.counter, past, h);
  }

  /** A row a tracked storage holds: a clean one agrees with its base, only a conflict, or the delete of one,
    * tracks a revision, and a remote telling no revisions left none. */
  predicate Sound(row: Placement, mutable: bool) {
    && (row.status == Clean ==> row.base.Some? && row.flags == row.base.value.flags)
    && (row.conflictRevision.Some? ==> row.status == Conflict || row.status == Tombstone)
    && (!mutable ==> row.conflictRevision.None? && (row.base.Some? ==> row.base.value.revision.None?))
  }

  /** Sound rows, none that was never based under the handle of a member. */
  ghost predicate Tracks(store: Rows, r: RemoteState, coll: CollectionId) {
    forall h :: h in store ==>
      && store[h].handle == h && Sound(store[h], r.mutable)
      && (store[h].base.None? ==> h !in r.MembersOf(coll))
  }

  /** Whether a row no change is pushed of is brought up to its member: no flags of its own keep the
    * member's from its base, and if its delete is refused it was at the member's flags all along. */
  predicate CatchesUp(opts: Options, row: Placement, m: Member)
    requires row.base.Some?
  {
    var base := row.base.value;
    if row.status != Tombstone then
      opts.MayFlags() || base.flags == m.flags || MergeFlags(base.flags, row.flags, m.flags) == m.flags
    else
      TakenBack(row, m.revision)
      || (&& base.flags == m.flags && (row.conflictRevision.Some? ==> row.conflictRevision == m.revision)
          && (opts.delete == Revert ==> row.flags == m.flags && row.conflictRevision.None?))
  }

  /** A listed handle no change is pushed of ends standing for what was listed, and sound, exactly where it
    * catches up. */
  lemma UnpushedStandsFor(coll: CollectionId, opts: Options, h: Handle, local: Option<Placement>, m: Member,
                          mutable: bool, stamp: Option<Revision>)
    requires m.revision.Some? <==> mutable
    requires local.Some? ==> local.value.handle == h && Sound(local.value, mutable) && local.value.base.Some?
    requires MergeOne(coll, opts, Candidate(h, local, Listing(h, Some(m)))).push.None?
    ensures var end := EndRow(coll, opts, h, local, Some(m), stamp);
            (local.Some? ==> CatchesUp(opts, local.value, m))
            <==> (&& Untold(end) == Some(RemoteItem(h, m.flags, m.revision))
                  && (end.Some? ==> end.value.handle == h && Sound(end.value, mutable)))
  {
    if local.Some? && local.value.status != Tombstone {
      UnpushedBoth(coll, opts, local.value, m, mutable, stamp);
      hide MergeBoth, FlagsRow, CatchesUp;
    } else if local.Some? {
      UnpushedTombstone(coll, opts, local.value, m, mutable, stamp);
      hide MergeBoth, CatchesUp;
    } else {
      hide MergeBoth, CatchesUp;
    }
  }

  lemma UnpushedBoth(coll: CollectionId, opts: Options, row: Placement, m: Member, mutable: bool,
                     stamp: Option<Revision>)
    requires (m.revision.Some? <==> mutable) && Sound(row, mutable) && row.base.Some? && row.status != Tombstone
    requires MergeBoth(coll, opts, row, RemoteItem(row.handle, m.flags, m.revision)).push.None?
    ensures var item := RemoteItem(row.handle, m.flags, m.revision);
            var end := BothRow(coll, opts, row, item, stamp);
            CatchesUp(opts, row, m)
            <==> end.base.Some? && StandIn(end) == item && end.handle == row.handle && Sound(end, mutable)
  {
    var item := RemoteItem(row.handle, m.flags, m.revision);
    BothEnd(coll, opts, row, m, stamp);
    UnpushedContent(coll, opts, row, item, mutable);
    UnpushedFlags(coll, opts, row, item);
    SoundContent(coll, opts, row, item, mutable);
    SoundFlags(opts, ContentRow(coll, opts, row, item), item, mutable);
    hide MergeBoth, ReconcileContent, ReconcileFlags, ContentRow, FlagsRow, FlagsLeft, PushesBody, ServedMember,
         MergeFlags, Sound, EffectOps;
  }

  lemma UnpushedTombstone(coll: CollectionId, opts: Options, row: Placement, m: Member, mutable: bool,
                          stamp: Option<Revision>)
    requires (m.revision.Some? <==> mutable) && Sound(row, mutable) && row.base.Some? && row.status == Tombstone
    requires MergeOne(coll, opts, Candidate(row.handle, Some(row), Listing(row.handle, Some(m)))).push.None?
    ensures var end := TombstoneRow(coll, opts, row, m, stamp);
            CatchesUp(opts, row, m)
            <==> (&& end.Some? && Untold(end) == Some(RemoteItem(row.handle, m.flags, m.revision))
                  && end.value.handle == row.handle && Sound(end.value, mutable))
  {
    TombstoneEnd(coll, opts, row, m, stamp);
    hide MergeBoth, EffectOps;
  }

  /** Every listed row no change is pushed of catches up. */
  ghost predicate AllCatchUp(coll: CollectionId, opts: Options, store: Rows, start: RemoteState) {
    var server := ServerOf(start, coll);
    forall h :: h in store && h in server && store[h].base.Some? ==>
      EffectOf(coll, opts, store, server, h).push.Some? || CatchesUp(opts, store[h], server[h])
  }

  lemma UnpushedContent(coll: CollectionId, opts: Options, row: Placement, item: RemoteItem, mutable: bool)
    requires Sound(row, mutable) && row.base.Some? && (item.revision.Some? <==> mutable) && row.status != Tombstone
    requires !PushesBody(coll, opts, row, item)
    ensures var left := ContentRow(coll, opts, row, item);
            && left.base.Some? && left.handle == row.handle && left.flags == row.flags
            && left.base.value.flags == row.base.value.flags
            && (if left.conflictRevision.Some? then left.conflictRevision else left.base.value.revision)
               == item.revision
  {
  }

  lemma UnpushedFlags(coll: CollectionId, opts: Options, row: Placement, item: RemoteItem)
    requires !PushesBody(coll, opts, row, item) && ContentRow(coll, opts, row, item).base.Some?
    requires MergeBoth(coll, opts, row, item).push.None?
    ensures var left := ContentRow(coll, opts, row, item);
            var end := FlagsRow(opts, left, item);
            && end.base.Some? && end.handle == left.handle
            && (end.base.value.flags == item.flags
                <==> opts.MayFlags() || left.base.value.flags == item.flags
                     || MergeFlags(left.base.value.flags, left.flags, item.flags) == item.flags)
            && end.base.value.revision == left.base.value.revision && end.conflictRevision == left.conflictRevision
  {
    var (content, outcome) := ReconcileContent(coll, opts, row, item);
    var left := ContentRow(coll, opts, row, item);
    var flags := ReconcileFlags(opts, left, item, Derive);
    assert MergeBoth(coll, opts, row, item) == content.Then(flags);
    hide MergeBoth, ReconcileContent, ContentRow;
    assert flags.push.None?;
    hide MergeFlags;
  }

  /** With every right all do: no flags are withheld and no delete is refused. */
  lemma PermittedCatchUp(coll: CollectionId, opts: Options, store: Rows, start: RemoteState)
    requires opts.MayFlags() && opts.MayContent() && opts.MayRemove() && Tracks(store, start, coll)
    ensures AllCatchUp(coll, opts, store, start)
  {
    var server := ServerOf(start, coll);
    forall h | h in store && h in server && store[h].base.Some?
               && EffectOf(coll, opts, store, server, h).push.None?
      ensures CatchesUp(opts, store[h], server[h])
    {
      if store[h].status == Tombstone { TombstoneEnd(coll, opts, store[h], server[h], None); }
      hide MergeBoth, ServerOf;
    }
  }

  /** One that does not: a delete refused and given back, of a member another client has marked. The row is
    * left clean at its old flags, the delta from the checkpoint just taken is silent about it, and the next
    * run derives nothing, where the run on everything pulls the marker. */
  lemma RevertedDeleteGoesStale(coll: CollectionId, opts: Options, item: RemoteItem, body: Hash)
    requires !opts.MayRemove() && opts.delete == Revert && item.flags.Known? && item.flags != NO_FLAGS
    ensures var clean := PulledRow(coll, item.(flags := NO_FLAGS));
            var gone, m := clean.(status := Tombstone), Member(item.flags, item.revision, Some(body));
            && !CatchesUp(opts, gone, m)
            && EndRow(coll, opts, item.handle, Some(gone), Some(m), None) == Some(clean)
            && MergeOne(coll, opts, Candidate(item.handle, Some(clean), Some(StandIn(clean)))) == NOTHING
            && MergeOne(coll, opts, Candidate(item.handle, Some(clean), Some(item))) == PullFlags(clean, item.flags)
  {
    var clean := PulledRow(coll, item.(flags := NO_FLAGS));
    MarkIsPulled(coll, opts, clean, item);
    CleanIsIdle(coll, opts, clean);
    hide MergeBoth, MergeTombstone, MergeFlags, PullFlags;
  }

  lemma MarkIsPulled(coll: CollectionId, opts: Options, row: Placement, item: RemoteItem)
    requires row == PulledRow(coll, item.(flags := NO_FLAGS)) && item.flags.Known? && item.flags != NO_FLAGS
    ensures MergeBoth(coll, opts, row, item) == PullFlags(row, item.flags)
  {
    var pulled := PullFlags(row, item.flags);
    FlagLaws.UnchangedSideYields(NO_FLAGS, item.flags);
    assert ReconcileContent(coll, opts, row, item) == (NOTHING, Untouched);
    hide ReconcileContent, MergeFlags;
    assert ReconcileFlags(opts, row, item, Derive) == pulled;
    hide PullFlags;
    NothingFirst(pulled);
  }

  /** What an accepted run depends on of the remote it ran against, whatever else happens there: what it
    * was shown, the changes it pushed serviced with the outcomes it was told, and new names for creates. */
  ghost predicate Tracked(coll: CollectionId, opts: Options, listing: seq<Placement>, store: Rows,
                          cursor: Option<Checkpoint>, start: RemoteState, whole: Snapshot, mint: Mint,
                          answers: seq<seq<PushResult>>, edits: seq<Edit>)
  {
    && Lists(listing, store) && Enumerates(start, coll, None, whole) && Tracks(store, start, coll)
    && answers == Accepting(RunOf(coll, opts, listing, cursor, whole, answers).asked, mint)
    && FreshNames(coll, opts, store, ServerOf(start, coll), mint)
    && FreshForks(coll, opts, store, ServerOf(start, coll), mint)
    && (!start.mutable ==> forall h :: mint.stamp(h).None?)
    && (forall k :: k in Sent(RunOf(coll, opts, listing, cursor, whole, answers).asked) ==>
          ServicedIn(start, edits, coll, k, mint))
  }

  lemma RowsAreOwn(listing: seq<Placement>, store: Rows)
    requires Lists(listing, store)
    ensures forall h :: h in store ==> store[h].handle == h
  {
    forall h | h in store ensures store[h].handle == h {
      RowIsOwn(listing, store, h);
    }
  }

  /** The change a handle's merge derives is pushed, and serviced. */
  lemma OwnIsServiced(coll: CollectionId, opts: Options, listing: seq<Placement>, store: Rows,
                      cursor: Option<Checkpoint>, start: RemoteState, whole: Snapshot, mint: Mint,
                      answers: seq<seq<PushResult>>, edits: seq<Edit>, g: Handle)
    requires Tracked(coll, opts, listing, store, cursor, start, whole, mint, answers, edits)
            
    requires EffectOf(coll, opts, store, ServerOf(start, coll), g).push.Some?
    ensures var k := EffectOf(coll, opts, store, ServerOf(start, coll), g).push.value.kind;
            k.handle == g && ServicedIn(start, edits, coll, k, mint)
  {
    var server := ServerOf(start, coll);
    EnumerationShows(start, coll, whole);
    RowsAreOwn(listing, store);
    hide EffectOf, RunOf, Enumerates, Tracks, FreshNames, FreshForks, ServicedIn, Accepting, Sent;
    AcceptedRun(coll, opts, listing, cursor, whole, answers, mint);
    MergedOwes(coll, opts, listing, store, cursor, whole, server, g);
    FoundIsIn(Merged(coll, opts, listing, cursor, whole).pushes, g,
              EffectOf(coll, opts, store, server, g).push.value.kind);
  }

  /** A handle the delta is silent about is no create's new name, and no listed one is pushed a change. */
  lemma SilentIsUnpushed(coll: CollectionId, opts: Options, listing: seq<Placement>, store: Rows,
                         cursor: Option<Checkpoint>, start: RemoteState, whole: Snapshot, mint: Mint,
                         answers: seq<seq<PushResult>>, edits: seq<Edit>, h: Handle)
    requires Tracked(coll, opts, listing, store, cursor, start, whole, mint, answers, edits)
            
    requires !Stamped(EditedAll(start, edits), coll, start.counter, h)
    ensures Unminted(coll, opts, store, ServerOf(start, coll), mint, h)
    ensures h in start.MembersOf(coll) ==> EffectOf(coll, opts, store, ServerOf(start, coll), h).push.None?
  {
    var server := ServerOf(start, coll);
    forall g | AddsAt(coll, opts, store, server, g) ensures !mint.Names(g, h) {
      OwnIsServiced(coll, opts, listing, store, cursor, start, whole, mint, answers, edits, g);
      var k := EffectOf(coll, opts, store, server, g).push.value.kind;
      hide Tracked, EffectOf, Stamped, EditedAll, ServicedIn;
      if mint.Names(g, h) {
        PushIsHeld(coll, opts, store, server, g);
        NamesAreNew(coll, opts, listing, store, cursor, start, whole, mint, answers, edits, g, h);
        ServicedIsStamped(start, edits, coll, k, mint, h);
      }
    }
    if h in start.MembersOf(coll) && EffectOf(coll, opts, store, server, h).push.Some? {
      OwnIsServiced(coll, opts, listing, store, cursor, start, whole, mint, answers, edits, h);
      ListedAddsNothing(coll, opts, store, server, h);
      hide Tracked, EffectOf, Stamped, EditedAll, ServicedIn;
      ServicedIsStamped(start, edits, coll, EffectOf(coll, opts, store, server, h).push.value.kind, mint, h);
    }
  }

  lemma NamesAreNew(coll: CollectionId, opts: Options, listing: seq<Placement>, store: Rows, cursor: Option<Checkpoint>,
                    start: RemoteState, whole: Snapshot, mint: Mint, answers: seq<seq<PushResult>>, edits: seq<Edit>,
                    g: Handle, h: Handle)
    requires Tracked(coll, opts, listing, store, cursor, start, whole, mint, answers, edits)
    requires AddsAt(coll, opts, store, ServerOf(start, coll), g) && mint.Names(g, h)
    ensures h !in store && h !in start.MembersOf(coll)
  {
    assert h !in ServerOf(start, coll);
    hide AddsAt;
  }

  lemma ListedAddsNothing(coll: CollectionId, opts: Options, store: Rows, server: Server, h: Handle)
    requires h in server
    ensures !AddsAt(coll, opts, store, server, h)
  {
    if h in store && store[h].status != Tombstone {
      BothEnd(coll, opts, store[h].(handle := h), server[h], None);
      ListedPush(coll, opts, store[h], RemoteItem(h, server[h].flags, server[h].revision));
    }
    hide MergeBoth;
  }

  lemma ListedPush(coll: CollectionId, opts: Options, row: Placement, item: RemoteItem)
    ensures var e := MergeBoth(coll, opts, row, item); e.push.Some? ==> !e.push.value.kind.Add?
  {
    var (content, outcome) := ReconcileContent(coll, opts, row, item);
    assert content.push.Some? ==> content.push.value.kind.Update?;
    hide ReconcileContent, MergeFlags;
  }

  /** After an accepted run, whatever else has happened to the remote since, its rows stand for what a
    * delta from the checkpoint it took is silent about. */
  lemma RunRecords(coll: CollectionId, opts: Options, listing: seq<Placement>, store: Rows, cursor: Option<Checkpoint>,
                   start: RemoteState, whole: Snapshot, mint: Mint, answers: seq<seq<PushResult>>, edits: seq<Edit>,
                   relisting: seq<Placement>)
    requires Tracked(coll, opts, listing, store, cursor, start, whole, mint, answers, edits)
    requires AllCatchUp(coll, opts, store, start)
    requires Lists(relisting, Apply(store, Ops(RunOf(coll, opts, listing, cursor, whole, answers).asked)))
    ensures RowsStandFor(relisting, EditedAll(start, edits), coll, start.counter)
  {
    var after := Apply(store, Ops(RunOf(coll, opts, listing, cursor, whole, answers).asked));
    var r := EditedAll(start, edits);
    hide Tracked, Apply, RunOf, Ops, EditedAll, Stamped;
    forall h | !Stamped(r, coll, start.counter, h)
      ensures Untold(RowAt(relisting, h))
              == if h in r.MembersOf(coll) then Some(Row(r, h, r.MembersOf(coll)[h])) else None
    {
      assert RowAt(relisting, h) == At(after, h);
      SilentStandsFor(coll, opts, listing, store, cursor, start, whole, mint, answers, edits, h);
    }
  }

  lemma SilentStandsFor(coll: CollectionId, opts: Options, listing: seq<Placement>, store: Rows,
                        cursor: Option<Checkpoint>, start: RemoteState, whole: Snapshot, mint: Mint,
                        answers: seq<seq<PushResult>>, edits: seq<Edit>, h: Handle)
    requires Tracked(coll, opts, listing, store, cursor, start, whole, mint, answers, edits)
    requires AllCatchUp(coll, opts, store, start)
    requires !Stamped(EditedAll(start, edits), coll, start.counter, h)
    ensures var r := EditedAll(start, edits);
            Untold(At(Apply(store, Ops(RunOf(coll, opts, listing, cursor, whole, answers).asked)), h))
            == if h in r.MembersOf(coll) then Some(Row(r, h, r.MembersOf(coll)[h])) else None
  {
    var server := ServerOf(start, coll);
    var past := start.MembersOf(coll);
    EnumerationShows(start, coll, whole);
    RowsAreOwn(listing, store);
    ForkedIsFresh(coll, opts, store, server, mint, h);
    SinceNow(start, coll);
    HistoryKeepsSince(start, edits, coll, start.counter, past);
    HistoryKeepsMutable(start, edits);
    SilentIsUnpushed(coll, opts, listing, store, cursor, start, whole, mint, answers, edits, h);
    StandsFor(coll, opts, store, start, h, mint.stamp(h));
    hide EffectOf, EditedAll, Enumerates, RunOf, Apply, Ops, Accepting, Alone, Unminted, EndRow, EndMember, Tracks,
         FreshNames, FreshForks, ServicedIn, Shows, Decimal;
    SilentIsUnchanged(EditedAll(start, edits), coll, start.counter, past, h);
    if Alone(coll, opts, store, server, h) {
      RunEnds(coll, opts, listing, store, cursor, whole, server, mint, answers, h);
    } else {
      ForkedEndsLoose(coll, opts, listing, store, cursor, whole, server, mint, answers, h);
    }
  }

  /** A member the delta is silent about is as it was. */
  lemma SilentIsUnchanged(r: RemoteState, coll: CollectionId, counter: nat, past: Members, h: Handle)
    requires Since(r, coll, counter, past) && !Stamped(r, coll, counter, h)
    ensures h in r.MembersOf(coll) <==> h in past
    ensures h in past ==> r.MembersOf(coll)[h] == past[h]
  {
  }

  /** An unpushed handle's row ends standing for its member, or for none. */
  lemma StandsFor(coll: CollectionId, opts: Options, store: Rows, start: RemoteState, h: Handle,
                  stamp: Option<Revision>)
    requires Tracks(store, start, coll) && AllCatchUp(coll, opts, store, start)
    requires h in start.MembersOf(coll) ==> EffectOf(coll, opts, store, ServerOf(start, coll), h).push.None?
    ensures var server := ServerOf(start, coll);
            Untold(EndRow(coll, opts, h, At(store, h), MemberAt(server, h), stamp))
            == if h in start.MembersOf(coll) then Some(Row(start, h, start.MembersOf(coll)[h])) else None
  {
    var server := ServerOf(start, coll);
    if h in start.MembersOf(coll) {
      assert server[h].revision.Some? <==> start.mutable;
      assert At(store, h).Some? ==> CatchesUp(opts, store[h], server[h]);
      hide Decimal, Sound, AllCatchUp, CatchesUp;
      UnpushedStandsFor(coll, opts, h, At(store, h), server[h], start.mutable, stamp);
      hide MergeOne, EndRow;
    } else {
      assert h !in server;
    }
  }

  /** No round makes a sound row unsound, but of a row that does not catch up. */
  lemma SoundEnds(coll: CollectionId, opts: Options, h: Handle, local: Option<Placement>, m: Option<Member>,
                  mutable: bool, stamp: Option<Revision>)
    requires local.Some? ==> local.value.handle == h && Sound(local.value, mutable)
    requires local.Some? && m.Some? && local.value.base.Some?
             && MergeOne(coll, opts, Candidate(h, local, Listing(h, m))).push.None? ==>
               CatchesUp(opts, local.value, m.value)
    requires (m.Some? ==> (m.value.revision.Some? <==> mutable)) && (!mutable ==> stamp.None?)
    ensures var end := EndRow(coll, opts, h, local, m, stamp);
            end.Some? ==> end.value.handle == h && Sound(end.value, mutable)
  {
    if local.Some? && m.Some? && local.value.status != Tombstone {
      var item := RemoteItem(h, m.value.flags, m.value.revision);
      if PushesBody(coll, opts, local.value, item) {
        SoundBody(coll, opts, local.value, item, stamp);
      } else {
        SoundContent(coll, opts, local.value, item, mutable);
        SoundFlags(opts, ContentRow(coll, opts, local.value, item), item, mutable);
      }
      hide PushesBody, ContentRow, FlagsRow, ContentRebasedRow;
    } else {
      hide BothRow;
    }
  }

  lemma SoundBody(coll: CollectionId, opts: Options, row: Placement, item: RemoteItem, stamp: Option<Revision>)
    requires PushesBody(coll, opts, row, item)
    ensures forall mutable :: Sound(row, mutable) && (!mutable ==> stamp.None?) ==>
              Sound(ContentRebasedRow(row, stamp), mutable) && ContentRebasedRow(row, stamp).handle == row.handle
  {
  }

  lemma SoundContent(coll: CollectionId, opts: Options, row: Placement, item: RemoteItem, mutable: bool)
    requires Sound(row, mutable) && (item.revision.Some? <==> mutable) && row.status != Tombstone
    ensures var left := ContentRow(coll, opts, row, item);
            Sound(left, mutable) && left.handle == row.handle && left.status != Tombstone
  {
  }

  lemma SoundFlags(opts: Options, row: Placement, item: RemoteItem, mutable: bool)
    requires Sound(row, mutable) && row.status != Tombstone
    ensures var end := FlagsRow(opts, row, item); Sound(end, mutable) && end.handle == row.handle
  {
    if row.base.Some? {
      FlagLaws.UnchangedSideYields(row.base.value.flags, item.flags);
      FlagLaws.UnknownHasNoOpinion(row.base.value.flags, row.flags);
    }
    hide MergeFlags;
  }

  /** So the rows of an accepted run are sound. */
  lemma RunKeepsSound(coll: CollectionId, opts: Options, listing: seq<Placement>, store: Rows,
                      cursor: Option<Checkpoint>, start: RemoteState, whole: Snapshot, mint: Mint,
                      answers: seq<seq<PushResult>>, edits: seq<Edit>, h: Handle)
    requires Tracked(coll, opts, listing, store, cursor, start, whole, mint, answers, edits)
    requires AllCatchUp(coll, opts, store, start)
    ensures var row := At(Apply(store, Ops(RunOf(coll, opts, listing, cursor, whole, answers).asked)), h);
            row.Some? ==> row.value.handle == h && Sound(row.value, start.mutable)
  {
    var server := ServerOf(start, coll);
    EnumerationShows(start, coll, whole);
    RowsAreOwn(listing, store);
    ForkedIsFresh(coll, opts, store, server, mint, h);
    if g :| AddsAt(coll, opts, store, server, g) && mint.Names(g, h) {
      SoundCreate(coll, opts, store, start, g, h, mint);
      hide EffectOf, AddsAt, Enumerates, RunOf, Apply, Ops, Accepting, Alone, Tracks, FreshNames, FreshForks,
           ServicedIn,
           Shows, ServerOf, Touching, PlacedRow, Sound;
      CreateTouches(coll, opts, listing, store, cursor, whole, server, mint, answers, g, h);
      ApplyEnds(store, Ops(RunOf(coll, opts, listing, cursor, whole, answers).asked), h);
    } else if Alone(coll, opts, store, server, h) {
      SoundOwn(coll, opts, store, start, h, mint);
      assert Unminted(coll, opts, store, server, mint, h);
      hide *;
      RunEnds(coll, opts, listing, store, cursor, whole, server, mint, answers, h);
    } else {
      assert h !in server && Unminted(coll, opts, store, server, mint, h);
      hide Tracked, EffectOf, AddsAt, Enumerates, RunOf, Apply, Ops, Accepting, Alone, Unminted, Shows, ServerOf;
      ForkedEndsLoose(coll, opts, listing, store, cursor, whole, server, mint, answers, h);
    }
  }

  /** What a handle's own round leaves is sound. */
  lemma SoundOwn(coll: CollectionId, opts: Options, store: Rows, start: RemoteState, h: Handle, mint: Mint)
    requires Tracks(store, start, coll) && AllCatchUp(coll, opts, store, start)
    requires !start.mutable ==> mint.stamp(h).None?
    ensures var end := EndRow(coll, opts, h, At(store, h), MemberAt(ServerOf(start, coll), h), mint.stamp(h));
            end.Some? ==> end.value.handle == h && Sound(end.value, start.mutable)
  {
    var server := ServerOf(start, coll);
    assert h in server ==> (server[h].revision.Some? <==> start.mutable);
    assert h in store && h in server && store[h].base.Some? ==>
             EffectOf(coll, opts, store, server, h).push.Some? || CatchesUp(opts, store[h], server[h]);
    hide ServerOf, AllCatchUp, CatchesUp, EndRow, Sound, MergeOne;
    SoundEnds(coll, opts, h, At(store, h), MemberAt(server, h), start.mutable, mint.stamp(h));
  }

  lemma SoundCreate(coll: CollectionId, opts: Options, store: Rows, start: RemoteState, g: Handle, h: Handle,
                    mint: Mint)
    requires Tracks(store, start, coll) && AddsAt(coll, opts, store, ServerOf(start, coll), g)
    requires !start.mutable ==> mint.stamp(g).None?
    ensures var created := EffectOf(coll, opts, store, ServerOf(start, coll), g).push.value;
            created.pending.CreatePush? ==>
              var placed := PlacedRow(created.pending.row, h, mint.stamp(g));
              placed.handle == h && Sound(placed, start.mutable)
  {
    var server := ServerOf(start, coll);
    if g in server { ListedAddsNothing(coll, opts, store, server, g); }
    hide MergeBoth, MergeTombstone;
  }

  /** A run shown a delta, or everything in another order, is the run on everything. */
  lemma ShownIsWhole(coll: CollectionId, opts: Options, listing: seq<Placement>, cursor: Option<Checkpoint>,
                     start: RemoteState, since: Option<nat>, shown: Snapshot, whole: Snapshot,
                     answers: seq<seq<PushResult>>)
    requires CleanAgrees(listing) && Enumerates(start, coll, None, whole)
    requires Enumerates(start, coll, since, shown) && (since.Some? ==> RowsStandFor(listing, start, coll, since.value))
    ensures RunOf(coll, opts, listing, cursor, shown, answers) == RunOf(coll, opts, listing, cursor, whole, answers)
  {
    if since.Some? {
      IncrementalRunIsFullRun(coll, opts, listing, cursor, start, since.value, shown, whole, answers);
    } else {
      NoneListed(shown.vanished);
      NoneListed(whole.vanished);
      assert forall h :: ItemAt(shown.items, h) == ItemAt(whole.items, h);
      assert shown == whole.(items := shown.items);
      hide RunOf, Enumerates;
      SnapshotOrder.RunsTheSame(coll, opts, listing, cursor, whole, shown.items, answers);
    }
  }

  lemma NoneListed(hs: seq<Handle>)
    ensures (forall h :: h !in hs) <==> hs == []
  {
    if |hs| > 0 { assert hs[0] in hs; }
  }

  /** Run after run, each may be told only what changed since the one before took its checkpoint: shown
    * such a delta, or everything, an accepted run leaves rows standing for all the next delta will be
    * silent about, so the next run on it is the run on everything, however the remote was edited in
    * between, by others or by this run's own pushes. */
  lemma NextRunIsFullRun(coll: CollectionId, opts: Options, listing: seq<Placement>, store: Rows,
                         cursor: Option<Checkpoint>, start: RemoteState, since: Option<nat>, shown: Snapshot,
                         whole: Snapshot, mint: Mint, answers: seq<seq<PushResult>>, edits: seq<Edit>,
                         relisting: seq<Placement>, recursor: Option<Checkpoint>, delta: Snapshot, rewhole: Snapshot,
                         reanswers: seq<seq<PushResult>>)
    requires AllCatchUp(coll, opts, store, start)
    requires Enumerates(start, coll, since, shown) && (since.Some? ==> RowsStandFor(listing, start, coll, since.value))
    requires Tracked(coll, opts, listing, store, cursor, start, whole, mint, answers, edits)
    requires Lists(relisting, Apply(store, Ops(RunOf(coll, opts, listing, cursor, shown, answers).asked)))
    requires var r := EditedAll(start, edits);
             Enumerates(r, coll, Some(start.counter), delta) && Enumerates(r, coll, None, rewhole)
    ensures RunOf(coll, opts, listing, cursor, shown, answers) == RunOf(coll, opts, listing, cursor, whole, answers)
    ensures RowsStandFor(relisting, EditedAll(start, edits), coll, start.counter)
    ensures RunOf(coll, opts, relisting, recursor, delta, reanswers)
            == RunOf(coll, opts, relisting, recursor, rewhole, reanswers)
  {
    TrackedAgrees(coll, listing, store, start);
    ShownIsWhole(coll, opts, listing, cursor, start, since, shown, whole, answers);
    hide RunOf, Apply, Ops, Enumerates, EditedAll, RowsStandFor, Sound;
    RunRecords(coll, opts, listing, store, cursor, start, whole, mint, answers, edits, relisting);
    var after := Apply(store, Ops(RunOf(coll, opts, listing, cursor, whole, answers).asked));
    forall h ensures At(after, h).Some? ==> Sound(At(after, h).value, start.mutable) {
      RunKeepsSound(coll, opts, listing, store, cursor, start, whole, mint, answers, edits, h);
    }
    SoundAgrees(relisting, after, start.mutable);
    hide Tracked;
    IncrementalRunIsFullRun(coll, opts, relisting, recursor, EditedAll(start, edits), start.counter, delta, rewhole,
                            reanswers);
  }

  lemma SoundAgrees(listing: seq<Placement>, store: Rows, mutable: bool)
    requires Lists(listing, store) && forall h :: At(store, h).Some? ==> Sound(At(store, h).value, mutable)
    ensures CleanAgrees(listing)
  {
    assert forall h :: RowAt(listing, h) == At(store, h);
  }

  lemma TrackedAgrees(coll: CollectionId, listing: seq<Placement>, store: Rows, start: RemoteState)
    requires Lists(listing, store) && Tracks(store, start, coll)
    ensures CleanAgrees(listing)
  {
    assert forall h :: RowAt(listing, h) == At(store, h);
  }
}

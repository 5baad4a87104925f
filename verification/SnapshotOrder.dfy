/** The order a remote lists its members in plays no part in a run. */
module SnapshotOrder {
  import opened Wrappers
  import opened Placement
  import opened Change
  import opened Remote
  import opened Join
  import opened JoinLaws
  import opened MergeRules
  import opened SyncMachine
  import opened SyncRuns

  /** Each handle listed at most once. */
  ghost predicate DuplicateFree(items: seq<RemoteItem>) {
    forall i, j :: 0 <= i < j < |items| ==> items[i].handle != items[j].handle
  }

  /** What matters of a listing: the item it lists first for each handle. */
  lemma SameListingSameWalk(a: seq<RemoteItem>, b: seq<RemoteItem>)
    requires forall h :: ItemAt(a, h) == ItemAt(b, h)
    ensures Normalise(a) == Normalise(b)
  {
    forall h ensures ItemAt(Normalise(a), h) == ItemAt(Normalise(b), h) {
      NormaliseIsOrderedMap(a, h);
      NormaliseIsOrderedMap(b, h);
    }
    NormaliseIsOrderedMap(a, Handle([]));
    NormaliseIsOrderedMap(b, Handle([]));
    AscendingIsDetermined(Normalise(a), Normalise(b));
  }

  lemma {:induction false} ListedOnce(items: seq<RemoteItem>, item: RemoteItem)
    requires DuplicateFree(items) && item in items
    ensures ItemAt(items, item.handle) == Some(item)
  {
    var found := ItemAt(items, item.handle).value;
    var i :| 0 <= i < |items| && items[i] == item;
    var j :| 0 <= j < |items| && items[j] == found;
  }

  lemma {:induction false} PermutationListsTheSame(a: seq<RemoteItem>, b: seq<RemoteItem>, h: Handle)
    requires multiset(a) == multiset(b) && DuplicateFree(a) && DuplicateFree(b)
    ensures ItemAt(a, h) == ItemAt(b, h)
  {
    forall item ensures item in a <==> item in b {
      assert item in multiset(a) <==> item in multiset(b);
    }
    if ItemAt(a, h).Some? { ListedOnce(b, ItemAt(a, h).value); }
    if ItemAt(b, h).Some? { ListedOnce(a, ItemAt(b, h).value); }
  }

  /** Any permutation of a duplicate-free snapshot gives an identical run. */
  lemma PermutationRunsTheSame(coll: CollectionId, opts: Options, rows: seq<Placement>, cursor: Option<Checkpoint>,
                               snapshot: Snapshot, items: seq<RemoteItem>, answers: seq<seq<PushResult>>)
    requires multiset(items) == multiset(snapshot.items) && DuplicateFree(items) && DuplicateFree(snapshot.items)
    ensures RunOf(coll, opts, rows, cursor, snapshot.(items := items), answers)
            == RunOf(coll, opts, rows, cursor, snapshot, answers)
  {
    forall h ensures ItemAt(items, h) == ItemAt(snapshot.items, h) {
      PermutationListsTheSame(items, snapshot.items, h);
    }
    RunsTheSame(coll, opts, rows, cursor, snapshot, items, answers);
  }

  /** Even with repeats: a listing answering each handle the same gives an identical run. */
  lemma RunsTheSame(coll: CollectionId, opts: Options, rows: seq<Placement>, cursor: Option<Checkpoint>,
                    snapshot: Snapshot, items: seq<RemoteItem>, answers: seq<seq<PushResult>>)
    requires forall h :: ItemAt(items, h) == ItemAt(snapshot.items, h)
    ensures RunOf(coll, opts, rows, cursor, snapshot.(items := items), answers)
            == RunOf(coll, opts, rows, cursor, snapshot, answers)
  {
    SameListingSameWalk(items, snapshot.items);
    var other := snapshot.(items := items);
    OpeningIsValid(coll, opts, rows, cursor, snapshot);
    OpeningIsValid(coll, opts, rows, cursor, other);
    assert Opened(coll, opts, rows, cursor, other) == Opened(coll, opts, rows, cursor, snapshot);
    hide Opened, MergeOn, Follow;
  }
}

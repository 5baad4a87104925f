/** An item's presence in one collection, and the flag algebra under the merge. */
module Placement {
  import opened Wrappers
  import opened Text

  datatype Handle = Handle(text: Text)
  datatype LinkId = LinkId(text: Text)
  datatype Hash = Hash(text: Text)
  datatype CollectionId = CollectionId(text: Text)
  datatype Revision = Revision(text: Text)
  datatype Meta = Meta(text: Text)
  datatype SortKey = SortKey(text: Text) {
    predicate IsUnknown() { text == [] }
  }

  const UNSORTED := SortKey([])

  predicate Less(a: Handle, b: Handle) {
    LexLess(a.text, b.text)
  }

  lemma LessIrreflexive(a: Handle)
    ensures !Less(a, a)
  {
    LexIrreflexive(a.text);
  }

  lemma LessTransitive(a: Handle, b: Handle, c: Handle)
    requires Less(a, b) && Less(b, c)
    ensures Less(a, c)
  {
    LexTransitive(a.text, b.text, c.text);
  }

  lemma LessTotal(a: Handle, b: Handle)
    ensures a == b || Less(a, b) || Less(b, a)
  {
    LexTotal(a.text, b.text);
  }

  /** A set of state markers; `Unknown` is a set nobody has read yet. */
  datatype Flags = Unknown | Known(markers: set<Text>) {
    predicate Contains(marker: Text) {
      Known? && marker in markers
    }
  }

  const NO_FLAGS := Known({})

  /** Three-way merge of flag sets, element by element. */
  function MergeFlags(base: Flags, local: Flags, remote: Flags): Flags {
    if local.Known? && remote.Known? then
      var was := if base.Known? then base.markers else {};
      Known(local.markers * remote.markers + (local.markers - was) + (remote.markers - was))
    else if local.Unknown? then remote
    else local
  }

  datatype Level = Probed | MetaLevel | Full {
    predicate Below(other: Level) {
      Rank() < other.Rank()
    }

    function Rank(): nat {
      match this
      case Probed => 0
      case MetaLevel => 1
      case Full => 2
    }

    function Max(other: Level): Level {
      if Below(other) then other else this
    }

    function Min(other: Level): Level {
      if other.Below(this) then other else this
    }
  }

  datatype Status = Clean | Dirty | Tombstone | Conflict | Created

  datatype Origin = Origin(collection: CollectionId, handle: Handle)

  datatype Base = Base(flags: Flags, revision: Option<Revision>, body: Option<Hash>)

  datatype Placement = Placement(
    collection: CollectionId,
    handle: Handle,
    linkId: Option<LinkId>,
    body: Option<Hash>,
    level: Level,
    meta: Option<Meta>,
    sortKey: SortKey,
    flags: Flags,
    status: Status,
    conflictRevision: Option<Revision>,
    conflictObject: Option<Hash>,
    base: Option<Base>,
    origin: Option<Origin>
  ) {
    /** The body staged locally and never synced. */
    function StagedEdit(): (r: Option<Hash>)
      ensures r.Some? ==> body.Some?
    {
      if body.Some? && !(base.Some? && base.value.body == body) then body else None
    }

    function BaseRevision(): Option<Revision> {
      if base.Some? then base.value.revision else None
    }

    function BaseBody(): Option<Hash> {
      if base.Some? then base.value.body else None
    }

    function BaseFlags(): Flags {
      if base.Some? then base.value.flags else NO_FLAGS
    }
  }
}

/** What the element-wise merge guarantees, read off its set algebra. */
module FlagLaws {
  import opened Wrappers
  import opened Text
  import opened Placement

  /** Whoever changed a marker's presence since the base wins for it. */
  lemma ChangedSideWins(base: Flags, local: Flags, remote: Flags, marker: Text)
    requires local.Known? && remote.Known?
    ensures MergeFlags(base, local, remote).Known?
    ensures var merged := MergeFlags(base, local, remote).Contains(marker);
            var was := base.Contains(marker);
            && (local.Contains(marker) != was ==> merged == local.Contains(marker))
            && (remote.Contains(marker) != was ==> merged == remote.Contains(marker))
            && (local.Contains(marker) == was && remote.Contains(marker) == was ==> merged == was)
  {
  }

  /** Folding the merge in on either side, or on both, does not move it: what a
    * replayed or half-recorded push relies on. */
  lemma MergeIsStable(base: Flags, local: Flags, remote: Flags)
    ensures var merged := MergeFlags(base, local, remote);
            && MergeFlags(base, merged, remote) == merged
            && MergeFlags(base, local, merged) == merged
            && MergeFlags(base, merged, merged) == merged
  {
  }

  /** Against a base equal to one side, the other side's set is the answer. */
  lemma UnchangedSideYields(base: Flags, other: Flags)
    ensures other.Known? ==> MergeFlags(base, other, base) == other
    ensures other.Known? ==> MergeFlags(base, base, other) == other
    ensures MergeFlags(base, base, base) == base
  {
  }

  /** A set never read has no opinion. */
  lemma UnknownHasNoOpinion(base: Flags, other: Flags)
    ensures MergeFlags(base, Unknown, other) == other
    ensures MergeFlags(base, other, Unknown) == other
  {
  }
}

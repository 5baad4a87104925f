/** What one candidate's three-way merge decides: the writes, the counted events and
  * the change to push, as a function of the options and of the candidate alone.
  */
module MergeRules {
  import opened Wrappers
  import opened Text
  import opened Placement
  import opened Change
  import opened Remote
  import opened Join

  datatype PushRights = PushRights(flags: bool, content: bool, add: bool, remove: bool)

  datatype ConflictPolicy = Manual | PreferLocal | PreferRemote | KeepBoth

  datatype DeletePolicy = Revert | Keep

  datatype Options = Options(
    push: bool,
    rights: PushRights,
    delete: DeletePolicy,
    conflict: ConflictPolicy,
    full: bool
  ) {
    predicate MayFlags() { push && rights.flags }
    predicate MayContent() { push && rights.content }
    predicate MayAdd() { push && rights.add }
    predicate MayRemove() { push && rights.remove }
  }

  datatype Event =
    | AddedEvent(handle: Handle)
    | FlagsChanged(handle: Handle)
    | ContentChanged(handle: Handle)
    | Vanished(handle: Handle)
    | Conflicted(handle: Handle)
    | CreatedEvent(handle: Handle)

  /** What a derived push waits on: the row to rebase, drop or rekey once it is accepted. */
  datatype Pending =
    | FlagPush(row: Placement)
    | ContentPush(row: Placement)
    | DropPush
    | CreatePush(row: Placement)

  datatype Derived = Derived(kind: ChangeKind, pending: Pending)

  /** Everything one candidate's merge does. */
  datatype Effect = Effect(
    writes: seq<WriteOp>,
    pulled: nat,
    conflicts: nat,
    refreshed: nat,
    events: seq<Event>,
    push: Option<Derived>
  ) {
    /** This effect, then another deriving a push only when this one derived none. */
    function Then(next: Effect): Effect {
      Effect(writes + next.writes, pulled + next.pulled, conflicts + next.conflicts,
             refreshed + next.refreshed, events + next.events, if push.Some? then push else next.push)
    }
  }

  const NOTHING := Effect([], 0, 0, 0, [], None)

  lemma NothingFirst(e: Effect)
    ensures NOTHING.Then(e) == e
    ensures e.Then(NOTHING) == e
  {
    assert NOTHING.writes + e.writes == e.writes && NOTHING.events + e.events == e.events;
    assert e.writes + NOTHING.writes == e.writes && e.events + NOTHING.events == e.events;
  }

  function Writing(row: Placement): Effect {
    NOTHING.(writes := [UpsertPlacement(row)])
  }

  function Pushing(kind: ChangeKind, pending: Pending): Effect {
    NOTHING.(push := Some(Derived(kind, pending)))
  }

  function Dropping(coll: CollectionId, h: Handle): Effect {
    NOTHING.(writes := [DropPlacement(coll, h, Deleted)])
  }

  /** What the content axis decided for a placement present on both sides. */
  datatype ContentOutcome = Untouched | Rewritten(row: Placement) | Pushed

  /** Whether the flag axis may derive a push of its own. */
  datatype PushFlags = Derive | Withhold

  /** A member appearing upstream: probed, clean, based on what was listed. */
  function PulledRow(coll: CollectionId, item: RemoteItem): Placement {
    Placement(coll, item.handle, None, None, Probed, None, UNSORTED, item.flags, Clean, None, None,
              Some(Base(item.flags, item.revision, None)), None)
  }

  function PullAdd(coll: CollectionId, item: RemoteItem): Effect {
    Effect([UpsertPlacement(PulledRow(coll, item))], 1, 0, 0, [AddedEvent(item.handle)], None)
  }

  /** A remote content change: the stale body goes, the base adopts the new revision. */
  function RefreshedRow(local: Placement, item: RemoteItem): Placement {
    var base := if local.base.Some? then Some(local.base.value.(revision := item.revision, body := None)) else None;
    local.(body := None, level := Probed, base := base)
  }

  function PullContent(local: Placement, item: RemoteItem): (Effect, ContentOutcome) {
    var row := RefreshedRow(local, item);
    (Effect([UpsertPlacement(row)], 0, 0, 1, [ContentChanged(local.handle)], None), Rewritten(row))
  }

  function ConflictedRow(local: Placement, item: RemoteItem): Placement {
    local.(status := Conflict, conflictRevision := item.revision, conflictObject := None)
  }

  function MarkConflict(local: Placement, item: RemoteItem): (Effect, ContentOutcome) {
    var row := ConflictedRow(local, item);
    (Effect([UpsertPlacement(row)], 0, 1, 0, [Conflicted(local.handle)], None), Rewritten(row))
  }

  const KEEP_BOTH: Text := [0x6b, 0x65, 0x65, 0x70, 0x62, 0x6f, 0x74, 0x68, 0x01]

  /** The provisional handle of a forked body: the handle, a separator, the body's hash. */
  function DupHandle(h: Handle, body: Hash): Handle {
    Handle(h.text + [0x01] + body.text)
  }

  /** The forked body as a fresh member, whose identity is its content. */
  function DupRow(coll: CollectionId, local: Placement, body: Hash): Placement {
    Placement(coll, DupHandle(local.handle, body), Some(LinkId(KEEP_BOTH + body.text)), Some(body), Full,
              local.meta, local.sortKey, local.flags, Created, None, None, None, None)
  }

  function PushUpdate(local: Placement, ifMatch: Option<Revision>): Effect
    requires local.body.Some?
  {
    Pushing(Update(local.handle, local.body.value, ifMatch), ContentPush(local))
  }

  function ResolveConflict(coll: CollectionId, opts: Options, local: Placement, item: RemoteItem)
    : (Effect, ContentOutcome)
    requires local.body.Some?
  {
    match opts.conflict
    case Manual => MarkConflict(local, item)
    case PreferRemote => PullContent(local, item)
    case PreferLocal =>
      if opts.MayContent() then (PushUpdate(local, item.revision), Pushed) else MarkConflict(local, item)
    case KeepBoth =>
      var (pulled, outcome) := PullContent(local, item);
      (Writing(DupRow(coll, local, local.body.value)).Then(pulled), outcome)
  }

  function ReconcileContent(coll: CollectionId, opts: Options, local: Placement, item: RemoteItem)
    : (Effect, ContentOutcome)
  {
    if local.base.None? then
      if local.body.Some? && item.revision.Some? then MarkConflict(local, item) else (NOTHING, Untouched)
    else if local.status == Conflict then
      if item.revision.Some? && item.revision != local.conflictRevision then
        var row := local.(conflictRevision := item.revision, conflictObject := None);
        (Writing(row), Rewritten(row))
      else (NOTHING, Untouched)
    else
      var base := local.base.value;
      var localChanged := local.status == Dirty && local.body.Some? && local.body != base.body;
      var remoteChanged := item.revision.Some? && item.revision != base.revision;
      if localChanged && remoteChanged then ResolveConflict(coll, opts, local, item)
      else if remoteChanged then PullContent(local, item)
      else if localChanged && opts.MayContent() then (PushUpdate(local, base.revision), Pushed)
      else (NOTHING, Untouched)
  }

  /** A row rebased onto a flag set both sides now hold; an unresolved conflict stays one. */
  function RebasedRow(local: Placement, flags: Flags): Placement {
    local.(status := if local.status == Conflict then Conflict else Clean,
           base := Some(Base(flags, local.BaseRevision(), local.BaseBody())))
  }

  function FlagsPulledRow(local: Placement, flags: Flags): Placement {
    RebasedRow(local.(flags := flags), flags)
  }

  function PullFlags(local: Placement, flags: Flags): Effect {
    Effect([UpsertPlacement(FlagsPulledRow(local, flags))], 1, 0, 0, [FlagsChanged(local.handle)], None)
  }

  function ReconcileFlags(opts: Options, local: Placement, item: RemoteItem, allow: PushFlags): Effect {
    if local.base.None? then PullFlags(local, item.flags)
    else
      var base := local.base.value;
      var merged := MergeFlags(base.flags, local.flags, item.flags);
      if merged == item.flags then
        if merged != local.flags then PullFlags(local, merged)
        else
          var contentEdit := local.body.Some? && base.body != local.body;
          if local.flags != base.flags || (local.status == Dirty && !contentEdit)
          then Writing(RebasedRow(local, merged))
          else NOTHING
      else
        var row := local.(flags := merged);
        var pulling := if merged == local.flags then NOTHING
                       else Effect([UpsertPlacement(row)], 1, 0, 0, [FlagsChanged(local.handle)], None);
        if allow == Withhold || !opts.MayFlags() then pulling
        else pulling.Then(Pushing(SetFlags(local.handle, merged), FlagPush(row)))
  }

  function RefuseDelete(opts: Options, local: Placement): Effect {
    match opts.delete
    case Revert => Writing(local.(status := Clean))
    case Keep => NOTHING
  }

  /** A tombstone both sides knew. */
  function MergeTombstone(coll: CollectionId, opts: Options, local: Placement, item: RemoteItem): Effect {
    if item.revision.Some? && item.revision != local.BaseRevision() then PullAdd(coll, item)
    else if local.StagedEdit().Some? && local.origin.Some? then
      if opts.MayContent() then PushUpdate(local, local.BaseRevision()) else RefuseDelete(opts, local)
    else if !opts.MayRemove() then RefuseDelete(opts, local)
    else
      var to := if local.origin.Some? then Some(local.origin.value.collection) else None;
      Pushing(Remove(local.handle, to, local.linkId, local.BaseRevision()), DropPush)
  }

  /** Whether a row holds a local edit the remote deleting its side must not lose. */
  predicate Edited(local: Placement) {
    && (local.status == Dirty || local.status == Conflict)
    && local.body.Some?
    && local.base.Some?
    && local.body != local.base.value.body
  }

  function ResurrectedRow(local: Placement): Placement {
    local.(status := Created, conflictRevision := None, conflictObject := None, base := None, origin := None)
  }

  function PushAdd(row: Placement): Effect {
    Pushing(Add(row.handle, row.linkId, row.flags, row.origin, row.body), CreatePush(row))
  }

  /** A based row the remote no longer lists. */
  function MergeRemoteDelete(coll: CollectionId, opts: Options, local: Placement): Effect {
    if Edited(local) then
      var row := ResurrectedRow(local);
      if opts.MayAdd() then Writing(row).Then(PushAdd(row)) else Writing(row)
    else
      Effect([DropPlacement(coll, local.handle, Deleted)], 1, 0, 0, [Vanished(local.handle)], None)
  }

  function MergeLocalCreate(opts: Options, local: Placement): Effect {
    if opts.MayAdd() && local.status == Created then PushAdd(local) else NOTHING
  }

  /** A placement present on both sides: content, then flags on whatever content left. */
  function MergeBoth(coll: CollectionId, opts: Options, local: Placement, item: RemoteItem): Effect {
    var (content, outcome) := ReconcileContent(coll, opts, local, item);
    match outcome
    case Pushed => content.Then(ReconcileFlags(opts, local, item, Withhold))
    case Rewritten(row) => content.Then(ReconcileFlags(opts, row, item, Derive))
    case Untouched => content.Then(ReconcileFlags(opts, local, item, Derive))
  }

  function MergeOne(coll: CollectionId, opts: Options, c: Candidate): Effect {
    match c.local
    case None => if c.remote.Some? then PullAdd(coll, c.remote.value) else NOTHING
    case Some(local) =>
      match c.remote
      case None =>
        if local.status == Tombstone then Dropping(coll, c.handle)
        else if local.base.Some? then MergeRemoteDelete(coll, opts, local)
        else MergeLocalCreate(opts, local)
      case Some(item) =>
        if local.status != Tombstone then MergeBoth(coll, opts, local, item)
        else if local.base.Some? then MergeTombstone(coll, opts, local, item)
        else PullAdd(coll, item)
  }
}

/** Raising placements to a higher detail level, and settling identity as it is read. */
module Upgrade {
  import opened Wrappers
  import opened Text
  import opened Placement
  import opened Change
  import opened Storage

  datatype Tier = MetaTier | FullTier

  datatype FetchedBody = Inline(hash: Hash, bytes: seq<Byte>) | Persisted(hash: Hash, size: nat)

  datatype FetchedItem = FetchedItem(
    handle: Handle,
    link: LinkId,
    meta: Meta,
    sortKey: SortKey,
    body: Option<FetchedBody>,
    revision: Option<Revision>
  )

  datatype UpgradeReport = UpgradeReport(upgraded: nat, fetched: nat, deduped: nat)

  type Placements = map<Handle, Placement>

  /** Whether the row holds the local side of a divergence. */
  predicate IsConflicted(row: Placement) {
    row.status == Conflict
  }

  /** Whether its source rewrites bodies in place. */
  predicate IsMutable(row: Placement) {
    row.base.Some? && row.base.value.revision.Some?
  }

  /** Whether a row still needs work for the tier. */
  predicate Pends(tier: Tier, row: Placement) {
    match tier
    case MetaTier => row.level.Below(MetaLevel) || row.meta.None?
    case FullTier =>
      if IsConflicted(row) then row.conflictObject.None? else row.level.Below(Full) || row.body.None?
  }

  function PendingHandles(tier: Tier, placements: Placements, handles: seq<Handle>): seq<Handle> {
    if handles == [] then []
    else
      var last := handles[|handles| - 1];
      PendingHandles(tier, placements, handles[..|handles| - 1]) +
      (if last in placements && Pends(tier, placements[last]) then [last] else [])
  }

  /** Whether a body stored under the same link id may stand for this row's. */
  predicate Linkable(row: Placement) {
    !IsMutable(row) && !IsConflicted(row)
  }

  /** The link ids worth asking the object store for. */
  function LookupLinks(placements: Placements, pending: seq<Handle>): seq<LinkId> {
    if pending == [] then []
    else
      var last := pending[|pending| - 1];
      LookupLinks(placements, pending[..|pending| - 1]) +
      (if last in placements && Linkable(placements[last]) && placements[last].linkId.Some?
       then [placements[last].linkId.value] else [])
  }

  /** The body the store already holds for a row, if it may be linked. */
  function Hit(row: Placement, known: map<LinkId, Hash>): Option<Hash> {
    if Linkable(row) && row.linkId.Some? && row.linkId.value in known then Some(known[row.linkId.value]) else None
  }

  /** A row linked to a stored body, the base moving with it. */
  function LinkedRow(row: Placement, hash: Hash): Placement {
    row.(body := Some(hash), level := Full,
         base := if row.base.Some? then Some(row.base.value.(body := Some(hash))) else None)
  }

  function LinkedOps(placements: Placements, pending: seq<Handle>, known: map<LinkId, Hash>): seq<WriteOp> {
    if pending == [] then []
    else
      var last := pending[|pending| - 1];
      LinkedOps(placements, pending[..|pending| - 1], known) +
      (if last in placements && Hit(placements[last], known).Some?
       then [UpsertPlacement(LinkedRow(placements[last], Hit(placements[last], known).value))] else [])
  }

  function Unlinked(placements: Placements, pending: seq<Handle>, known: map<LinkId, Hash>): seq<Handle> {
    if pending == [] then []
    else
      var last := pending[|pending| - 1];
      Unlinked(placements, pending[..|pending| - 1], known) +
      (if last in placements && Hit(placements[last], known).None? then [last] else [])
  }

  /** The identities a fetch would newly establish. */
  function FreshLinks(placements: Placements, items: seq<FetchedItem>): seq<LinkId> {
    if items == [] then []
    else
      var last := items[|items| - 1];
      FreshLinks(placements, items[..|items| - 1]) +
      (if last.handle in placements && placements[last.handle].linkId.None? then [last.link] else [])
  }

  function StoredBody(body: FetchedBody): (StoredObject, Option<seq<Byte>>) {
    match body
    case Inline(hash, bytes) => (StoredObject(hash, |bytes|), Some(bytes))
    case Persisted(hash, size) => (StoredObject(hash, size), None)
  }

  const DUP: Text := [0x64, 0x75, 0x70, 0x3a]
  const SHARP: Byte := 0x23

  /** The link id of a second copy: the hint and the handle, both verbatim. */
  function MintLink(hint: LinkId, h: Handle): LinkId {
    LinkId(DUP + hint.text + [SHARP] + h.text)
  }

  /** The identity a row ends with: its own, the hint, or a minted one where the hint is taken. */
  function Identity(row: Placement, item: FetchedItem, claimed: set<LinkId>): LinkId {
    if row.linkId.Some? then row.linkId.value
    else if item.link in claimed then MintLink(item.link, item.handle)
    else item.link
  }

  /** A row as a fetch leaves it. */
  function FetchedRow(tier: Tier, row: Placement, item: FetchedItem, link: LinkId): Placement {
    var known := row.(linkId := Some(link), meta := Some(item.meta), sortKey := item.sortKey);
    if tier == FullTier && item.body.Some? then
      var hash := item.body.value.hash;
      known.(body := Some(hash), level := Full,
             base := if row.base.Some? then Some(row.base.value.(revision := item.revision, body := Some(hash)))
                     else None)
    else known.(level := MetaLevel)
  }

  function StoreOps(tier: Tier, item: FetchedItem): seq<WriteOp> {
    if tier == FullTier && item.body.Some? then
      var (stored, bytes) := StoredBody(item.body.value);
      [StoreObject(stored, bytes)]
    else []
  }

  /** Whether a fetched item is applied: to a known row, and to a conflicted one only with a body. */
  predicate Applies(tier: Tier, placements: Placements, item: FetchedItem) {
    item.handle in placements && (tier == FullTier && IsConflicted(placements[item.handle]) ==> item.body.Some?)
  }

  /** The row one applied item leaves. */
  function ItemRow(tier: Tier, placements: Placements, item: FetchedItem, claimed: set<LinkId>): Placement
    requires Applies(tier, placements, item)
  {
    var row := placements[item.handle];
    if tier == FullTier && IsConflicted(row) then row.(conflictObject := Some(item.body.value.hash))
    else FetchedRow(tier, row, item, Identity(row, item, claimed))
  }

  /** Whether one item gives its row an identity: a row without one, and not a conflicted one. */
  predicate Establishes(tier: Tier, placements: Placements, item: FetchedItem) {
    && Applies(tier, placements, item)
    && !(tier == FullTier && IsConflicted(placements[item.handle]))
    && placements[item.handle].linkId.None?
  }

  /** The identities taken once one item is in. */
  function Claiming(tier: Tier, placements: Placements, item: FetchedItem, claimed: set<LinkId>): set<LinkId> {
    if Establishes(tier, placements, item) then claimed + {Identity(placements[item.handle], item, claimed)}
    else claimed
  }

  function ItemOps(tier: Tier, placements: Placements, item: FetchedItem, claimed: set<LinkId>): seq<WriteOp> {
    if Applies(tier, placements, item)
    then StoreOps(tier, item) + [UpsertPlacement(ItemRow(tier, placements, item, claimed))]
    else []
  }

  /** What fetched items write, taken in turn. */
  function FetchedOps(tier: Tier, placements: Placements, items: seq<FetchedItem>, claimed: set<LinkId>): seq<WriteOp> {
    if items == [] then []
    else ItemOps(tier, placements, items[0], claimed)
         + FetchedOps(tier, placements, items[1..], Claiming(tier, placements, items[0], claimed))
  }

  function AppliedCount(tier: Tier, placements: Placements, items: seq<FetchedItem>): nat {
    if items == [] then 0
    else (if Applies(tier, placements, items[0]) then 1 else 0) + AppliedCount(tier, placements, items[1..])
  }

  function SortFetchIn(item: FetchedItem, items: seq<FetchedItem>): seq<FetchedItem> {
    if items == [] || !Less(items[0].handle, item.handle) then [item] + items
    else [items[0]] + SortFetchIn(item, items[1..])
  }

  /** A stable sort by handle. */
  function SortedFetch(items: seq<FetchedItem>): seq<FetchedItem> {
    if items == [] then [] else SortFetchIn(items[0], SortedFetch(items[1..]))
  }

  /** The identities the collection already holds. */
  function HeldLinks(placements: Placements): set<LinkId> {
    set h | h in placements && placements[h].linkId.Some? :: placements[h].linkId.value
  }

  /** Everything a fetch writes: its items in handle order, against the identities held. */
  function WriteFetchedOps(tier: Tier, placements: Placements, items: seq<FetchedItem>): seq<WriteOp> {
    FetchedOps(tier, placements, SortedFetch(items), HeldLinks(placements))
  }

  /** The holders a link check adds, none replacing a row already loaded. */
  function Overlaid(placements: Placements, rows: seq<Placement>): Placements {
    if rows == [] then placements
    else
      var before := Overlaid(placements, rows[..|rows| - 1]);
      var last := rows[|rows| - 1];
      if last.handle in before then before else before[last.handle := last]
  }

  datatype UpgradePhase = Start | PendingLoad | PendingLookup | PendingFetch | PendingLinkCheck | PendingWrite | Done

  datatype UpgradeYield =
    | LoadHandles(handles: seq<Handle>)
    | LoadLinks(links: seq<LinkId>)
    | LookupObjects(links: seq<LinkId>)
    | Fetch(handles: seq<Handle>, tier: Tier)
    | Write(ops: seq<WriteOp>)

  datatype UpgradeArg =
    | Loaded(rows: seq<Placement>)
    | Looked(known: map<LinkId, Hash>)
    | Fetched(items: seq<FetchedItem>)
    | Wrote

  datatype UpgradeStep = Yielded(request: UpgradeYield) | Complete(report: UpgradeReport) | Failed

  /** Whether the argument answers what the phase asked for. */
  predicate Expects(phase: UpgradePhase, arg: Option<UpgradeArg>) {
    match phase
    case Start => arg.None?
    case PendingLoad => arg.Some? && arg.value.Loaded?
    case PendingLookup => arg.Some? && arg.value.Looked?
    case PendingFetch => arg.Some? && arg.value.Fetched?
    case PendingLinkCheck => arg.Some? && arg.value.Loaded?
    case PendingWrite => arg == Some(Wrote)
    case Done => false
  }

  class ReplicaUpgrade {
    const collection: CollectionId
    const handles: seq<Handle>
    const tier: Tier
    var placements: Placements
    var fetched: seq<FetchedItem>
    var ops: seq<WriteOp>
    var report: UpgradeReport
    var phase: UpgradePhase

    constructor (collection: CollectionId, handles: seq<Handle>, tier: Tier)
      ensures phase == Start && this.collection == collection && this.handles == handles && this.tier == tier
      ensures placements == map[] && fetched == [] && ops == [] && report == UpgradeReport(0, 0, 0)
    {
      this.collection, this.handles, this.tier := collection, handles, tier;
      placements, fetched, ops, report, phase := map[], [], [], UpgradeReport(0, 0, 0), Start;
    }

    /** Links what the object store holds, and says what is left to fetch. */
    method LinkStored(known: map<LinkId, Hash>) returns (toFetch: seq<Handle>)
      modifies this`ops, this`report
      ensures var pending := PendingHandles(tier, placements, handles);
              var linked := LinkedOps(placements, pending, known);
              && ops == old(ops) + linked
              && report == old(report).(upgraded := old(report).upgraded + |linked|,
                                        deduped := old(report).deduped + |linked|)
              && toFetch == Unlinked(placements, pending, known)
    {
      var pending := PendingHandles(tier, placements, handles);
      toFetch := [];
      var i := 0;
      while i < |pending|
        invariant 0 <= i <= |pending|
        invariant toFetch == Unlinked(placements, pending[..i], known)
        invariant ops == old(ops) + LinkedOps(placements, pending[..i], known)
        invariant var n := |LinkedOps(placements, pending[..i], known)|;
                  report == old(report).(upgraded := old(report).upgraded + n, deduped := old(report).deduped + n)
      {
        var h := pending[i];
        assert pending[..i + 1][..i] == pending[..i];
        if h in placements {
          var row := placements[h];
          var hit := Hit(row, known);
          if hit.Some? {
            var patched := row;
            if patched.base.Some? {
              patched := patched.(base := Some(patched.base.value.(body := hit)));
            }
            patched := patched.(body := hit);
            patched := patched.(level := Full);
            ops := ops + [UpsertPlacement(patched)];
            report := report.(upgraded := report.upgraded + 1);
            report := report.(deduped := report.deduped + 1);
          } else {
            toFetch := toFetch + [h];
          }
        }
        i := i + 1;
      }
      assert pending[..|pending|] == pending;
    }

    /** Applies one fetched item: the identities taken so far decide the one it gets. */
    method ApplyItem(item: FetchedItem, before: set<LinkId>) returns (claimed: set<LinkId>)
      modifies this`ops, this`report
      ensures ops == old(ops) + ItemOps(tier, placements, item, before)
      ensures claimed == Claiming(tier, placements, item, before)
      ensures var n := if Applies(tier, placements, item) then 1 else 0;
              report == old(report).(upgraded := old(report).upgraded + n, fetched := old(report).fetched + n)
    {
      claimed := before;
      if item.handle !in placements { return; }
      var patched := placements[item.handle];
      if tier == FullTier && IsConflicted(patched) {
        if item.body.None? { return; }
        var (stored, bytes) := StoredBody(item.body.value);
        patched := patched.(conflictObject := Some(stored.hash));
        ops := ops + [StoreObject(stored, bytes), UpsertPlacement(patched)];
        report := report.(fetched := report.fetched + 1);
        report := report.(upgraded := report.upgraded + 1);
        return;
      }
      if patched.linkId.None? {
        var link := if item.link in claimed then MintLink(item.link, item.handle) else item.link;
        claimed := claimed + {link};
        patched := patched.(linkId := Some(link));
      }
      patched := patched.(meta := Some(item.meta));
      patched := patched.(sortKey := item.sortKey);
      var stores: seq<WriteOp> := [];
      if tier == FullTier && item.body.Some? {
        var (stored, bytes) := StoredBody(item.body.value);
        stores := [StoreObject(stored, bytes)];
        if patched.base.Some? {
          patched := patched.(base := Some(patched.base.value.(revision := item.revision, body := Some(stored.hash))));
        }
        patched := patched.(body := Some(stored.hash));
        patched := patched.(level := Full);
      } else {
        patched := patched.(level := MetaLevel);
      }
      report := report.(fetched := report.fetched + 1);
      ops := ops + (stores + [UpsertPlacement(patched)]);
      report := report.(upgraded := report.upgraded + 1);
    }

    /** Applies the fetched items, in handle order, and hands the batch over. */
    method WriteFetched() returns (batch: seq<WriteOp>)
      modifies this
      ensures batch == old(ops) + WriteFetchedOps(tier, old(placements), old(fetched))
      ensures var n := AppliedCount(tier, old(placements), SortedFetch(old(fetched)));
              report == old(report).(upgraded := old(report).upgraded + n, fetched := old(report).fetched + n)
      ensures placements == old(placements) && fetched == [] && ops == [] && phase == PendingWrite
    {
      var claimed := HeldLinks(placements);
      var items := SortedFetch(fetched);
      hide ItemOps, Claiming, Applies, SortedFetch, HeldLinks;
      fetched := [];
      ghost var target := ops + FetchedOps(tier, placements, items, claimed);
      ghost var total := AppliedCount(tier, placements, items);
      ghost var start := report;
      var i := 0;
      while i < |items|
        invariant 0 <= i <= |items|
        invariant ops + FetchedOps(tier, placements, items[i..], claimed) == target
        invariant report.upgraded + AppliedCount(tier, placements, items[i..]) == start.upgraded + total
        invariant report.fetched + AppliedCount(tier, placements, items[i..]) == start.fetched + total
        invariant report.deduped == start.deduped
        modifies this`ops, this`report
      {
        assert items[i..][1..] == items[i + 1..];
        ghost var before := ops;
        ghost var own := ItemOps(tier, placements, items[i], claimed);
        claimed := ApplyItem(items[i], claimed);
        ghost var rest := FetchedOps(tier, placements, items[i + 1..], claimed);
        assert before + (own + rest) == (before + own) + rest;
        i := i + 1;
      }
      assert ops + [] == ops;
      phase := PendingWrite;
      batch := ops;
      ops := [];
    }

    /** One resumption. Nothing to raise completes at once; at the full tier the object store is
      * asked before the remote; an identity newly read is checked against its holders before
      * anything is written. An argument nothing asked for fails and changes nothing. */
    method Resume(arg: Option<UpgradeArg>) returns (step: UpgradeStep)
      modifies this
      ensures !Expects(old(phase), arg) ==> step == Failed && unchanged(this)
      ensures old(phase) == Start && arg == None ==> step == Yielded(LoadHandles(handles)) && phase == PendingLoad
      ensures old(phase) == PendingLoad && arg.Some? && arg.value.Loaded? ==>
                var pending := PendingHandles(tier, placements, handles);
                var links := LookupLinks(placements, pending);
                && placements == Indexed(arg.value.rows) && ops == old(ops) && report == old(report)
                && (if pending == [] then step == Complete(report) && phase == Done
                    else if tier == MetaTier || links == []
                    then step == Yielded(Fetch(pending, tier)) && phase == PendingFetch
                    else step == Yielded(LookupObjects(links)) && phase == PendingLookup)
      ensures old(phase) == PendingLookup && arg.Some? && arg.value.Looked? ==>
                var pending := PendingHandles(tier, old(placements), handles);
                var linked := LinkedOps(old(placements), pending, arg.value.known);
                var left := Unlinked(old(placements), pending, arg.value.known);
                && placements == old(placements)
                && (if left == [] then step == Yielded(Write(old(ops) + linked)) && ops == [] && phase == PendingWrite
                    else step == Yielded(Fetch(left, FullTier)) && ops == old(ops) + linked && phase == PendingFetch)
      ensures old(phase) == PendingFetch && arg.Some? && arg.value.Fetched? ==>
                var links := FreshLinks(old(placements), arg.value.items);
                && placements == old(placements)
                && (if links == []
                    then step == Yielded(Write(old(ops) + WriteFetchedOps(tier, placements, arg.value.items)))
                         && phase == PendingWrite
                    else step == Yielded(LoadLinks(links)) && fetched == arg.value.items && ops == old(ops)
                         && phase == PendingLinkCheck)
      ensures old(phase) == PendingLinkCheck && arg.Some? && arg.value.Loaded? ==>
                && placements == Overlaid(old(placements), arg.value.rows)
                && step == Yielded(Write(old(ops) + WriteFetchedOps(tier, placements, old(fetched))))
                && phase == PendingWrite
      ensures old(phase) == PendingWrite && arg == Some(Wrote) ==> step == Complete(old(report)) && phase == Done
    {
      if !Expects(phase, arg) { return Failed; }
      match phase {
        case Start =>
          phase, step := PendingLoad, Yielded(LoadHandles(handles));
        case PendingLoad =>
          placements := Indexed(arg.value.rows);
          var pending := PendingHandles(tier, placements, handles);
          var links := LookupLinks(placements, pending);
          if pending == [] {
            phase, step := Done, Complete(report);
          } else if tier == MetaTier || links == [] {
            phase, step := PendingFetch, Yielded(Fetch(pending, tier));
          } else {
            phase, step := PendingLookup, Yielded(LookupObjects(links));
          }
        case PendingLookup =>
          var toFetch := LinkStored(arg.value.known);
          if toFetch == [] {
            phase, step := PendingWrite, Yielded(Write(ops));
            ops := [];
          } else {
            phase, step := PendingFetch, Yielded(Fetch(toFetch, FullTier));
          }
        case PendingFetch =>
          var links := FreshLinks(placements, arg.value.items);
          fetched := arg.value.items;
          if links == [] {
            var batch := WriteFetched();
            step := Yielded(Write(batch));
          } else {
            phase, step := PendingLinkCheck, Yielded(LoadLinks(links));
          }
        case PendingLinkCheck =>
          placements := Overlaid(placements, arg.value.rows);
          var batch := WriteFetched();
          step := Yielded(Write(batch));
        case PendingWrite =>
          phase, step := Done, Complete(report);
      }
    }
  }
}

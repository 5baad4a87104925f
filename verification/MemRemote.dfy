/** The reference remote: members under revisions and change counters, served in deltas. */
module MemRemote {
  import opened Wrappers
  import opened Text
  import opened Placement
  import opened Change
  import opened Remote
  import opened JoinLaws

  datatype ServerItem = ServerItem(link: LinkId, flags: Flags, body: Hash, changed: nat, rev: nat)

  type Members = map<Handle, ServerItem>

  predicate HolderIn(members: Members, link: Option<LinkId>, except: Handle) {
    exists h :: h in members && h != except && Some(members[h].link) == link
  }

  /** A removal, stamped with the counter. */
  datatype Gone = Gone(stamp: nat, handle: Handle)

  datatype RemoteState = RemoteState(
    items: map<CollectionId, Members>,
    vanished: map<CollectionId, seq<Gone>>,
    counter: nat,
    appended: nat,
    mutable: bool,
    refused: set<LinkId>
  ) {
    function MembersOf(coll: CollectionId): Members {
      if coll in items then items[coll] else map[]
    }

    function VanishedOf(coll: CollectionId): seq<Gone> {
      if coll in vanished then vanished[coll] else []
    }

    /** The revision a member reports: none where content is immutable. */
    function RevisionOf(rev: nat): Option<Revision> {
      if mutable then Some(Revision(Decimal(rev))) else None
    }

    function Bumped(): RemoteState {
      this.(counter := counter + 1)
    }

    function Put(coll: CollectionId, h: Handle, item: ServerItem): RemoteState {
      this.(items := items[coll := MembersOf(coll)[h := item]])
    }

    function Taken(coll: CollectionId, h: Handle, stamp: nat): RemoteState {
      this.(items := items[coll := MembersOf(coll) - {h}],
            vanished := vanished[coll := VanishedOf(coll) + [Gone(stamp, h)]])
    }

    /** Whether another member of the collection holds the identity. */
    predicate HoldsLink(coll: CollectionId, link: Option<LinkId>, except: Handle) {
      HolderIn(MembersOf(coll), link, except)
    }

    /** Whether a precondition is stale against a member. */
    predicate Stale(coll: CollectionId, h: Handle, ifMatch: Option<Revision>) {
      mutable && h in MembersOf(coll) && ifMatch != Some(Revision(Decimal(MembersOf(coll)[h].rev)))
    }
  }

  function Decimal(n: nat): Text {
    if n < 10 then [(0x30 + n) as Byte] else Decimal(n / 10) + [(0x30 + n % 10) as Byte]
  }

  const MOVED: Text := [0x2d, 0x6d, 0x6f, 0x76, 0x65, 0x64]
  const COPIED: Text := [0x2d, 0x63, 0x6f, 0x70, 0x79]
  const APPENDED: Text := [0x61, 0x70, 0x70, 0x2d]

  function MovedHandle(h: Handle): Handle {
    Handle(h.text + MOVED)
  }

  function CopiedHandle(h: Handle): Handle {
    Handle(h.text + COPIED)
  }

  function AppendedHandle(n: nat): Handle {
    Handle(APPENDED + Decimal(n))
  }

  function AcceptedAs(h: Handle, named: Option<Handle>, revision: Option<Revision>): PushResult {
    PushResult(h, Accepted, named, revision)
  }

  function RejectedOf(h: Handle): PushResult {
    PushResult(h, Rejected, None, None)
  }

  function ServeFlags(r: RemoteState, coll: CollectionId, h: Handle, flags: Flags): (RemoteState, PushResult) {
    var b := r.Bumped();
    (if h in r.MembersOf(coll) then b.Put(coll, h, r.MembersOf(coll)[h].(flags := flags, changed := b.counter)) else b,
     AcceptedAs(h, None, None))
  }

  /** A remove relocates while the destination does not hold the item, and deletes otherwise; a
    * member already gone is one already removed. */
  function ServeRemove(r: RemoteState, coll: CollectionId, h: Handle, to: Option<CollectionId>, link: Option<LinkId>,
                       ifMatch: Option<Revision>): (RemoteState, PushResult)
  {
    if r.Stale(coll, h, ifMatch) then (r, RejectedOf(h))
    else
      var b := r.Bumped();
      if h !in r.MembersOf(coll) then (b, AcceptedAs(h, None, None))
      else
        var left := b.Taken(coll, h, b.counter);
        var item := r.MembersOf(coll)[h].(changed := b.counter);
        (if to.Some? && !r.HoldsLink(to.value, link, h) then left.Put(to.value, MovedHandle(h), item) else left,
         AcceptedAs(h, None, None))
  }

  function ServeUpdate(r: RemoteState, coll: CollectionId, h: Handle, hash: Hash, ifMatch: Option<Revision>)
    : (RemoteState, PushResult)
  {
    if h !in r.MembersOf(coll) || r.Stale(coll, h, ifMatch) then (r, RejectedOf(h))
    else
      var b := r.Bumped();
      var item := r.MembersOf(coll)[h];
      (b.Put(coll, h, item.(body := hash, rev := item.rev + 1, changed := b.counter)),
       AcceptedAs(h, None, r.RevisionOf(item.rev + 1)))
  }

  /** An add copies its origin, or appends its body under a fresh handle; one whose origin is gone,
    * or whose identity the collection refuses, is rejected. */
  function ServeAdd(r: RemoteState, coll: CollectionId, h: Handle, link: Option<LinkId>, flags: Flags,
                    origin: Option<Origin>, body: Option<Hash>): (RemoteState, PushResult)
  {
    if link.Some? && link.value in r.refused then (r, RejectedOf(h))
    else match origin
      case Some(o) =>
        if o.handle !in r.MembersOf(o.collection) then (r, RejectedOf(h))
        else
          var b := r.Bumped();
          var item := r.MembersOf(o.collection)[o.handle].(changed := b.counter);
          (b.Put(coll, CopiedHandle(o.handle), item),
           AcceptedAs(h, Some(CopiedHandle(o.handle)), r.RevisionOf(item.rev)))
      case None =>
        if body.None? then (r, AcceptedAs(h, None, None))
        else
          var b := r.Bumped().(appended := r.appended + 1);
          var named := AppendedHandle(b.appended);
          var item := ServerItem(if link.Some? then link.value else LinkId(named.text), flags, body.value, b.counter,
                                 0);
          (b.Put(coll, named, item), AcceptedAs(h, Some(named), r.RevisionOf(0)))
  }

  function ServeKind(r: RemoteState, coll: CollectionId, kind: ChangeKind): (RemoteState, PushResult) {
    match kind
    case SetFlags(h, flags) => ServeFlags(r, coll, h, flags)
    case Remove(h, to, link, ifMatch) => ServeRemove(r, coll, h, to, link, ifMatch)
    case Update(h, hash, ifMatch) => ServeUpdate(r, coll, h, hash, ifMatch)
    case Add(h, link, flags, origin, body) => ServeAdd(r, coll, h, link, flags, origin, body)
  }

  function ServePush(r: RemoteState, coll: CollectionId, kinds: seq<ChangeKind>): (RemoteState, seq<PushResult>)
    decreases |kinds|
  {
    if kinds == [] then (r, [])
    else
      var (next, first) := ServeKind(r, coll, kinds[0]);
      var (last, rest) := ServePush(next, coll, kinds[1..]);
      (last, [first] + rest)
  }

  /** What another client of the server does to it. */
  datatype Edit =
    | Seeded(coll: CollectionId, handle: Handle, link: LinkId, flags: Flags, body: Hash)
    | Flagged(coll: CollectionId, handle: Handle, flags: Flags)
    | Rewritten(coll: CollectionId, handle: Handle, body: Hash)
    | Removed(coll: CollectionId, handle: Handle)
    | Pushed(coll: CollectionId, kind: ChangeKind)

  function EditedOnce(r: RemoteState, edit: Edit): RemoteState {
    var b := r.Bumped();
    var members := r.MembersOf(edit.coll);
    match edit
    case Seeded(coll, h, link, flags, body) =>
      b.Put(coll, h, ServerItem(link, flags, body, b.counter, if h in members then members[h].rev + 1 else 0))
    case Flagged(coll, h, flags) =>
      if h in members then b.Put(coll, h, members[h].(flags := flags, changed := b.counter)) else b
    case Rewritten(coll, h, body) =>
      if h in members then b.Put(coll, h, members[h].(body := body, changed := b.counter, rev := members[h].rev + 1))
      else b
    case Removed(coll, h) =>
      if h in members then b.Taken(coll, h, b.counter) else b
    case Pushed(coll, kind) => ServeKind(r, coll, kind).0
  }

  function EditedAll(r: RemoteState, edits: seq<Edit>): RemoteState
    decreases |edits|
  {
    if edits == [] then r else EditedAll(EditedOnce(r, edits[0]), edits[1..])
  }

  /** A member as an enumeration reports it. */
  function Row(r: RemoteState, h: Handle, item: ServerItem): RemoteItem {
    RemoteItem(h, item.flags, r.RevisionOf(item.rev))
  }

  /** What an enumeration from a cursor tells: everything changed since, and what is gone since; from
    * none, everything. */
  ghost predicate Enumerates(r: RemoteState, coll: CollectionId, since: Option<nat>, snapshot: Snapshot) {
    && snapshot.complete == since.None?
    && snapshot.checkpoint == Checkpoint(Decimal(r.counter))
    && (forall h :: ItemAt(snapshot.items, h) ==
                    if h in r.MembersOf(coll) && (since.None? || r.MembersOf(coll)[h].changed > since.value)
                    then Some(Row(r, h, r.MembersOf(coll)[h])) else None)
    && (forall h :: h in snapshot.vanished <==>
          since.Some? && h !in r.MembersOf(coll)
          && exists gone :: gone in r.VanishedOf(coll) && gone.handle == h && gone.stamp > since.value)
  }

  /** What a collection has been through since it held `past` at a counter: a member unstamped since
    * is as it was, and a past member no longer there is stamped gone. */
  ghost predicate Since(r: RemoteState, coll: CollectionId, counter: nat, past: Members) {
    && counter <= r.counter
    && (forall h :: h in r.MembersOf(coll) && r.MembersOf(coll)[h].changed <= counter ==>
          h in past && past[h] == r.MembersOf(coll)[h])
    && (forall h :: h in past && h !in r.MembersOf(coll) ==>
          exists gone :: gone in r.VanishedOf(coll) && gone.handle == h && gone.stamp > counter)
  }

  lemma PutKeepsSince(r: RemoteState, at: CollectionId, h: Handle, item: ServerItem, coll: CollectionId, counter: nat,
                      past: Members)
    requires Since(r, coll, counter, past) && item.changed > counter
    ensures Since(r.Put(at, h, item), coll, counter, past)
  {
  }

  lemma TakenKeepsSince(r: RemoteState, at: CollectionId, h: Handle, stamp: nat, coll: CollectionId, counter: nat,
                        past: Members)
    requires Since(r, coll, counter, past) && stamp > counter
    ensures Since(r.Taken(at, h, stamp), coll, counter, past)
  {
    var t := r.Taken(at, h, stamp);
    forall g | g in past && g !in t.MembersOf(coll)
      ensures exists gone :: gone in t.VanishedOf(coll) && gone.handle == g && gone.stamp > counter
    {
      if g in r.MembersOf(coll) {
        assert Gone(stamp, h) in t.VanishedOf(coll);
      } else {
        var gone :| gone in r.VanishedOf(coll) && gone.handle == g && gone.stamp > counter;
        assert gone in t.VanishedOf(coll);
      }
    }
  }

  lemma BumpKeepsSince(r: RemoteState, coll: CollectionId, counter: nat, past: Members)
    requires Since(r, coll, counter, past)
    ensures Since(r.Bumped(), coll, counter, past)
    ensures Since(r.Bumped().(appended := r.appended + 1), coll, counter, past)
  {
  }

  lemma FlagsKeepSince(r: RemoteState, at: CollectionId, h: Handle, flags: Flags, coll: CollectionId, counter: nat,
                       past: Members)
    requires Since(r, coll, counter, past)
    ensures Since(ServeFlags(r, at, h, flags).0, coll, counter, past)
  {
    BumpKeepsSince(r, coll, counter, past);
    var b, members := r.Bumped(), r.MembersOf(at);
    assert b.counter > counter;
    hide Since;
    if h in members { PutKeepsSince(b, at, h, members[h].(flags := flags, changed := b.counter), coll, counter, past); }
  }

  lemma RemoveKeepsSince(r: RemoteState, at: CollectionId, h: Handle, to: Option<CollectionId>, link: Option<LinkId>,
                         ifMatch: Option<Revision>, coll: CollectionId, counter: nat, past: Members)
    requires Since(r, coll, counter, past)
    ensures Since(ServeRemove(r, at, h, to, link, ifMatch).0, coll, counter, past)
  {
    BumpKeepsSince(r, coll, counter, past);
    var b, members := r.Bumped(), r.MembersOf(at);
    assert b.counter > counter;
    hide Since, HolderIn, Decimal;
    if h in members && !r.Stale(at, h, ifMatch) {
      TakenKeepsSince(b, at, h, b.counter, coll, counter, past);
      if to.Some? {
        PutKeepsSince(b.Taken(at, h, b.counter), to.value, MovedHandle(h), members[h].(changed := b.counter), coll,
                      counter, past);
      }
    }
  }

  lemma UpdateKeepsSince(r: RemoteState, at: CollectionId, h: Handle, hash: Hash, ifMatch: Option<Revision>,
                         coll: CollectionId, counter: nat, past: Members)
    requires Since(r, coll, counter, past)
    ensures Since(ServeUpdate(r, at, h, hash, ifMatch).0, coll, counter, past)
  {
    BumpKeepsSince(r, coll, counter, past);
    var b, members := r.Bumped(), r.MembersOf(at);
    assert b.counter > counter;
    if h in members && !r.Stale(at, h, ifMatch) {
      var item := members[h].(body := hash, rev := members[h].rev + 1, changed := b.counter);
      assert ServeUpdate(r, at, h, hash, ifMatch).0 == b.Put(at, h, item);
      hide *;
      PutKeepsSince(b, at, h, item, coll, counter, past);
    }
  }

  lemma AddKeepsSince(r: RemoteState, at: CollectionId, h: Handle, link: Option<LinkId>, flags: Flags,
                      origin: Option<Origin>, body: Option<Hash>, coll: CollectionId, counter: nat, past: Members)
    requires Since(r, coll, counter, past)
    ensures Since(ServeAdd(r, at, h, link, flags, origin, body).0, coll, counter, past)
  {
    match origin {
      case Some(o) =>
        if o.handle in r.MembersOf(o.collection) { CopyKeepsSince(r, at, o, coll, counter, past); }
      case None =>
        if body.Some? {
          var named := AppendedHandle(r.appended + 1);
          AppendKeepsSince(r, at, named,
                           ServerItem(if link.Some? then link.value else LinkId(named.text), flags, body.value,
                                      r.Bumped().counter, 0), coll, counter, past);
        }
    }
    hide Since, Decimal, AppendedHandle;
  }

  lemma CopyKeepsSince(r: RemoteState, at: CollectionId, o: Origin, coll: CollectionId, counter: nat, past: Members)
    requires Since(r, coll, counter, past) && o.handle in r.MembersOf(o.collection)
    ensures var item := r.MembersOf(o.collection)[o.handle].(changed := r.Bumped().counter);
            Since(r.Bumped().Put(at, CopiedHandle(o.handle), item), coll, counter, past)
  {
    BumpKeepsSince(r, coll, counter, past);
    assert r.Bumped().counter > counter;
    hide Since;
    PutKeepsSince(r.Bumped(), at, CopiedHandle(o.handle),
                  r.MembersOf(o.collection)[o.handle].(changed := r.Bumped().counter), coll, counter, past);
  }

  lemma AppendKeepsSince(r: RemoteState, at: CollectionId, named: Handle, item: ServerItem, coll: CollectionId,
                         counter: nat, past: Members)
    requires Since(r, coll, counter, past) && item.changed == r.Bumped().counter
    ensures Since(r.Bumped().(appended := r.appended + 1).Put(at, named, item), coll, counter, past)
  {
    BumpKeepsSince(r, coll, counter, past);
    assert r.Bumped().counter > counter;
    hide Since;
    PutKeepsSince(r.Bumped().(appended := r.appended + 1), at, named, item, coll, counter, past);
  }

  lemma ServeKeepsSince(r: RemoteState, at: CollectionId, kind: ChangeKind, coll: CollectionId, counter: nat,
                        past: Members)
    requires Since(r, coll, counter, past)
    ensures Since(ServeKind(r, at, kind).0, coll, counter, past)
  {
    hide Since, ServeFlags, ServeRemove, ServeUpdate, ServeAdd;
    match kind {
      case SetFlags(h, flags) => FlagsKeepSince(r, at, h, flags, coll, counter, past);
      case Remove(h, to, link, ifMatch) => RemoveKeepsSince(r, at, h, to, link, ifMatch, coll, counter, past);
      case Update(h, hash, ifMatch) => UpdateKeepsSince(r, at, h, hash, ifMatch, coll, counter, past);
      case Add(h, link, flags, origin, body) => AddKeepsSince(r, at, h, link, flags, origin, body, coll, counter, past);
    }
  }

  lemma EditKeepsSince(r: RemoteState, edit: Edit, coll: CollectionId, counter: nat, past: Members)
    requires Since(r, coll, counter, past)
    ensures Since(EditedOnce(r, edit), coll, counter, past)
  {
    if edit.Pushed? {
      ServeKeepsSince(r, edit.coll, edit.kind, coll, counter, past);
      hide ServeKind, Since;
    } else if edit.Flagged? {
      FlagsKeepSince(r, edit.coll, edit.handle, edit.flags, coll, counter, past);
      hide Since;
    } else {
      BodyEditKeepsSince(r, edit, coll, counter, past);
    }
  }

  lemma BodyEditKeepsSince(r: RemoteState, edit: Edit, coll: CollectionId, counter: nat, past: Members)
    requires Since(r, coll, counter, past) && (edit.Seeded? || edit.Rewritten? || edit.Removed?)
    ensures Since(EditedOnce(r, edit), coll, counter, past)
  {
    BumpKeepsSince(r, coll, counter, past);
    var b, members, h := r.Bumped(), r.MembersOf(edit.coll), edit.handle;
    assert b.counter > counter;
    if edit.Seeded? {
      var item := ServerItem(edit.link, edit.flags, edit.body, b.counter,
                             if h in members then members[h].rev + 1 else 0);
      assert EditedOnce(r, edit) == b.Put(edit.coll, h, item);
      hide *;
      PutKeepsSince(b, edit.coll, h, item, coll, counter, past);
    } else if h !in members {
      assert EditedOnce(r, edit) == b;
    } else if edit.Rewritten? {
      var item := members[h].(body := edit.body, changed := b.counter, rev := members[h].rev + 1);
      assert EditedOnce(r, edit) == b.Put(edit.coll, h, item);
      hide *;
      PutKeepsSince(b, edit.coll, h, item, coll, counter, past);
    } else {
      assert EditedOnce(r, edit) == b.Taken(edit.coll, h, b.counter);
      hide *;
      TakenKeepsSince(b, edit.coll, h, b.counter, coll, counter, past);
    }
  }

  /** Whatever happens to the server from a point on, it knows what it has been through since. */
  lemma {:induction false} HistoryKeepsSince(r: RemoteState, edits: seq<Edit>, coll: CollectionId, counter: nat,
                                             past: Members)
    requires Since(r, coll, counter, past)
    ensures Since(EditedAll(r, edits), coll, counter, past)
    decreases |edits|
  {
    if edits != [] {
      EditKeepsSince(r, edits[0], coll, counter, past);
      hide Since, EditedOnce;
      HistoryKeepsSince(EditedOnce(r, edits[0]), edits[1..], coll, counter, past);
    }
  }

  lemma SinceNow(r: RemoteState, coll: CollectionId)
    ensures Since(r, coll, r.counter, r.MembersOf(coll))
  {
  }

  lemma {:induction false} HistoryKeepsMutable(r: RemoteState, edits: seq<Edit>)
    ensures EditedAll(r, edits).mutable == r.mutable
    decreases |edits|
  {
    if edits != [] {
      var next := EditedOnce(r, edits[0]);
      assert next.mutable == r.mutable;
      hide EditedOnce;
      HistoryKeepsMutable(next, edits[1..]);
    }
  }

  predicate IsLeastHandle(least: Handle, hs: set<Handle>) {
    least in hs && forall h :: h in hs ==> h == least || Less(least, h)
  }

  lemma LeastHandle(hs: set<Handle>)
    requires hs != {}
    ensures exists least :: IsLeastHandle(least, hs)
  {
    var texts := set h | h in hs :: h.text;
    var some :| some in hs;
    assert some.text in texts;
    LeastText(texts);
    var least :| IsLeast(least, texts);
    assert IsLeastHandle(Handle(least), hs);
  }

  class MemRemote {
    var items: map<CollectionId, Members>
    var vanished: map<CollectionId, seq<Gone>>
    var counter: nat
    var appended: nat
    const mutable: bool
    const refused: set<LinkId>

    ghost function State(): RemoteState
      reads this
    {
      RemoteState(items, vanished, counter, appended, mutable, refused)
    }

    constructor (mutable: bool, refused: set<LinkId>)
      ensures State() == RemoteState(map[], map[], 0, 0, mutable, refused)
    {
      this.mutable, this.refused := mutable, refused;
      items, vanished, counter, appended := map[], map[], 0, 0;
    }

    method Bump() returns (stamp: nat)
      modifies this`counter
      ensures State() == old(State()).Bumped() && stamp == counter
    {
      counter := counter + 1;
      stamp := counter;
    }

    method Insert(coll: CollectionId, h: Handle, item: ServerItem)
      modifies this`items
      ensures State() == old(State()).Put(coll, h, item)
    {
      var members := if coll in items then items[coll] else map[];
      items := items[coll := members[h := item]];
    }

    /** Services one change, in place. */
    method Service(coll: CollectionId, kind: ChangeKind) returns (result: PushResult)
      modifies this
      ensures (State(), result) == ServeKind(old(State()), coll, kind)
    {
      var members := if coll in items then items[coll] else map[];
      match kind {
        case SetFlags(h, flags) =>
          var stamp := Bump();
          if h in members { Insert(coll, h, members[h].(flags := flags, changed := stamp)); }
          result := AcceptedAs(h, None, None);
        case Remove(h, to, link, ifMatch) =>
          result := ServiceRemove(coll, h, to, link, ifMatch);
        case Update(h, hash, ifMatch) =>
          if h !in members { return RejectedOf(h); }
          var item := members[h];
          if mutable && ifMatch != Some(Revision(Decimal(item.rev))) { return RejectedOf(h); }
          item := item.(body := hash);
          item := item.(rev := item.rev + 1);
          var stamp := Bump();
          item := item.(changed := stamp);
          Insert(coll, h, item);
          result := AcceptedAs(h, None, if mutable then Some(Revision(Decimal(item.rev))) else None);
        case Add(h, link, flags, origin, body) =>
          if link.Some? && link.value in refused { return RejectedOf(h); }
          result := ServiceAdd(coll, h, link, flags, origin, body);
      }
    }

    method ServiceRemove(coll: CollectionId, h: Handle, to: Option<CollectionId>, link: Option<LinkId>,
                         ifMatch: Option<Revision>) returns (result: PushResult)
      modifies this
      ensures (State(), result) == ServeRemove(old(State()), coll, h, to, link, ifMatch)
    {
      var members := if coll in items then items[coll] else map[];
      var held := to.Some? && HolderIn(if to.value in items then items[to.value] else map[], link, h);
      if mutable && h in members && ifMatch != Some(Revision(Decimal(members[h].rev))) { return RejectedOf(h); }
      var stamp := Bump();
      if h in members {
        var item := members[h];
        items := items[coll := members - {h}];
        var gone := if coll in vanished then vanished[coll] else [];
        vanished := vanished[coll := gone + [Gone(stamp, h)]];
        if to.Some? && !held {
          item := item.(changed := stamp);
          Insert(to.value, MovedHandle(h), item);
        }
      }
      result := AcceptedAs(h, None, None);
    }

    method ServiceAdd(coll: CollectionId, h: Handle, link: Option<LinkId>, flags: Flags, origin: Option<Origin>,
                      body: Option<Hash>) returns (result: PushResult)
      requires link.Some? ==> link.value !in refused
      modifies this
      ensures (State(), result) == ServeAdd(old(State()), coll, h, link, flags, origin, body)
    {
      match origin {
        case Some(o) =>
          var holders := if o.collection in items then items[o.collection] else map[];
          if o.handle !in holders { return RejectedOf(h); }
          var stamp := Bump();
          var item := holders[o.handle].(changed := stamp);
          Insert(coll, CopiedHandle(o.handle), item);
          result := AcceptedAs(h, Some(CopiedHandle(o.handle)),
                               if mutable then Some(Revision(Decimal(item.rev))) else None);
        case None =>
          if body.None? { return AcceptedAs(h, None, None); }
          var stamp := Bump();
          appended := appended + 1;
          var named := AppendedHandle(appended);
          Insert(coll, named,
                 ServerItem(if link.Some? then link.value else LinkId(named.text), flags, body.value, stamp, 0));
          result := AcceptedAs(h, Some(named), if mutable then Some(Revision(Decimal(0))) else None);
      }
    }

    /** Services changes in the order they were handed. */
    method Push(coll: CollectionId, kinds: seq<ChangeKind>) returns (results: seq<PushResult>)
      modifies this
      ensures (State(), results) == ServePush(old(State()), coll, kinds)
    {
      hide ServeKind;
      ghost var (last, all) := ServePush(State(), coll, kinds);
      results := [];
      var i := 0;
      assert kinds[0..] == kinds && [] + all == all;
      while i < |kinds|
        invariant 0 <= i <= |kinds|
        invariant ServePush(State(), coll, kinds[i..]).0 == last
        invariant results + ServePush(State(), coll, kinds[i..]).1 == all
      {
        assert kinds[i..][1..] == kinds[i + 1..];
        ghost var before := results;
        var result := Service(coll, kinds[i]);
        results := results + [result];
        ghost var rest := ServePush(State(), coll, kinds[i + 1..]).1;
        assert before + ([result] + rest) == (before + [result]) + rest;
        i := i + 1;
      }
      assert results + [] == results;
    }

    /** Lists what changed since a cursor, or everything, in handle order. */
    method Enumerate(coll: CollectionId, since: Option<nat>) returns (snapshot: Snapshot)
      ensures Enumerates(State(), coll, since, snapshot)
    {
      var members := if coll in items then items[coll] else map[];
      var listed: seq<RemoteItem> := [];
      var todo := members.Keys;
      while todo != {}
        invariant todo <= members.Keys
        invariant forall item :: item in listed ==> item.handle in members && item.handle !in todo
        invariant forall h :: ItemAt(listed, h) ==
                              if h in members && h !in todo && (since.None? || members[h].changed > since.value)
                              then Some(Row(State(), h, members[h])) else None
        decreases todo
      {
        LeastHandle(todo);
        var h :| IsLeastHandle(h, todo);
        if since.None? || members[h].changed > since.value {
          ghost var before := listed;
          listed := listed
            + [RemoteItem(h, members[h].flags, if mutable then Some(Revision(Decimal(members[h].rev))) else None)];
          forall g ensures ItemAt(listed, g) == if ItemAt(before, g).Some? then ItemAt(before, g)
                                                else if g == h then Some(listed[|listed| - 1]) else None {
            ItemAtAppend(before, listed[|listed| - 1], g);
          }
        }
        todo := todo - {h};
      }
      var gone: seq<Handle> := [];
      if since.Some? { gone := GoneSince(coll, since.value); }
      snapshot := Snapshot(listed, gone, since.None?, Checkpoint(Decimal(counter)));
    }

    /** The handles removed since a cursor and not there again. */
    method GoneSince(coll: CollectionId, since: nat) returns (gone: seq<Handle>)
      ensures forall h :: h in gone <==>
                h !in State().MembersOf(coll)
                && exists g :: g in State().VanishedOf(coll) && g.handle == h && g.stamp > since
    {
      var members := if coll in items then items[coll] else map[];
      var stamped := if coll in vanished then vanished[coll] else [];
      gone := [];
      var i := 0;
      while i < |stamped|
        invariant 0 <= i <= |stamped|
        invariant forall h :: h in gone <==>
                    h !in members && exists g :: g in stamped[..i] && g.handle == h && g.stamp > since
      {
        ghost var before := gone;
        if stamped[i].stamp > since && stamped[i].handle !in members { gone := gone + [stamped[i].handle]; }
        GoneStep(members, stamped, since, i, before, gone);
        i := i + 1;
      }
      assert stamped[..|stamped|] == stamped;
    }
  }

  lemma {:induction false} ItemAtAppend(items: seq<RemoteItem>, item: RemoteItem, h: Handle)
    ensures ItemAt(items + [item], h) == if ItemAt(items, h).Some? then ItemAt(items, h)
                                         else if item.handle == h then Some(item) else None
  {
    if items == [] {
      assert items + [item] == [item];
    } else {
      assert (items + [item])[1..] == items[1..] + [item];
      ItemAtAppend(items[1..], item, h);
    }
  }

  lemma GoneStep(members: Members, stamped: seq<Gone>, since: nat, i: nat, before: seq<Handle>, after: seq<Handle>)
    requires i < |stamped|
    requires forall h :: h in before <==>
               h !in members && exists g :: g in stamped[..i] && g.handle == h && g.stamp > since
    requires after == if stamped[i].stamp > since && stamped[i].handle !in members then before + [stamped[i].handle]
                      else before
    ensures forall h :: h in after <==>
              h !in members && exists g :: g in stamped[..i + 1] && g.handle == h && g.stamp > since
  {
    assert stamped[..i + 1] == stamped[..i] + [stamped[i]];
    forall h
      ensures h in after <==>
                h !in members && exists g :: g in stamped[..i + 1] && g.handle == h && g.stamp > since
    {
      if h !in members && exists g :: g in stamped[..i + 1] && g.handle == h && g.stamp > since {
        var g :| g in stamped[..i + 1] && g.handle == h && g.stamp > since;
        assert g in stamped[..i] || g == stamped[i];
      }
      if h in before {
        var g :| g in stamped[..i] && g.handle == h && g.stamp > since;
        assert g in stamped[..i + 1];
      } else if h in after {
        assert stamped[i] in stamped[..i + 1];
      }
    }
  }
}

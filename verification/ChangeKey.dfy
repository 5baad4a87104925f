/** The idempotency key of a change: a field encoding that decodes one way, folded by FNV-1a. */
module ChangeKey {
  import opened Wrappers
  import opened Text
  import opened Placement
  import opened Change

  const NUL: Byte := 0
  const ADD: Text := [0x61, 0x64, 0x64]
  const REMOVE: Text := [0x72, 0x65, 0x6d, 0x6f, 0x76, 0x65]
  const SET_FLAGS: Text := [0x73, 0x65, 0x74, 0x2d, 0x66, 0x6c, 0x61, 0x67, 0x73]
  const UPDATE: Text := [0x75, 0x70, 0x64, 0x61, 0x74, 0x65]
  const KNOWN: Text := [0x6b, 0x6e, 0x6f, 0x77, 0x6e]
  const UNKNOWN: Text := [0x75, 0x6e, 0x6b, 0x6e, 0x6f, 0x77, 0x6e]
  const PRESENT: Text := [0x31]
  const ABSENT: Text := [0x30]

  predicate NulFree(text: Text) {
    NUL !in text
  }

  /** One field: its bytes, then the terminator. */
  function FieldBytes(bytes: Text): Text {
    bytes + [NUL]
  }

  function OptionBytes(bytes: Option<Text>): Text {
    if bytes.Some? then FieldBytes(PRESENT) + FieldBytes(bytes.value) else FieldBytes(ABSENT)
  }

  /** A count as `width` little-endian bytes. */
  function LittleEndian(n: nat, width: nat): (r: Text)
    ensures |r| == width
  {
    if width == 0 then [] else [(n % 256) as Byte] + LittleEndian(n / 256, width - 1)
  }

  /** How many bytes the count of a set takes. */
  const COUNT_WIDTH: nat := 8

  function Pow256(width: nat): nat {
    if width == 0 then 1 else 256 * Pow256(width - 1)
  }

  function FieldsBytes(fields: seq<Text>): Text {
    if fields == [] then [] else FieldBytes(fields[0]) + FieldsBytes(fields[1..])
  }

  predicate AscendingTexts(texts: seq<Text>) {
    forall i, j :: 0 <= i < j < |texts| ==> LexLess(texts[i], texts[j])
  }

  /** A marker set in order. */
  ghost function Sorted(markers: set<Text>): (r: seq<Text>)
    ensures |r| == |markers| && forall text :: text in r <==> text in markers
    ensures AscendingTexts(r)
    decreases markers
  {
    if markers == {} then []
    else
      LeastText(markers);
      var least :| IsLeast(least, markers);
      [least] + Sorted(markers - {least})
  }

  /** A set is counted before its markers, and one never read is not an empty one. */
  ghost function FlagsBytes(flags: Flags): Text {
    match flags
    case Unknown => FieldBytes(UNKNOWN)
    case Known(markers) =>
      FieldBytes(KNOWN) + (FieldBytes(LittleEndian(|markers|, COUNT_WIDTH)) + FieldsBytes(Sorted(markers)))
  }

  function OriginBytes(origin: Option<Origin>): Text {
    if origin.Some?
    then FieldBytes(PRESENT) + (FieldBytes(origin.value.collection.text) + FieldBytes(origin.value.handle.text))
    else FieldBytes(ABSENT)
  }

  function LinkText(link: Option<LinkId>): Option<Text> {
    if link.Some? then Some(link.value.text) else None
  }

  function BodyText(body: Option<Hash>): Option<Text> {
    if body.Some? then Some(body.value.text) else None
  }

  function CollectionText(coll: Option<CollectionId>): Option<Text> {
    if coll.Some? then Some(coll.value.text) else None
  }

  ghost function KindBytes(kind: ChangeKind): Text {
    match kind
    case Add(_, link, flags, origin, body) =>
      FieldBytes(ADD) +
      (OptionBytes(LinkText(link)) + (FlagsBytes(flags) + (OriginBytes(origin) + OptionBytes(BodyText(body)))))
    case Remove(_, to, _, _) => FieldBytes(REMOVE) + OptionBytes(CollectionText(to))
    case SetFlags(_, flags) => FieldBytes(SET_FLAGS) + FlagsBytes(flags)
    case Update(_, hash, _) => FieldBytes(UPDATE) + FieldBytes(hash.text)
  }

  /** Everything a key covers, as the bytes the digest folds in. */
  ghost function Preimage(coll: CollectionId, kind: ChangeKind): Text {
    FieldBytes(coll.text) + (FieldBytes(kind.handle.text) + KindBytes(kind))
  }

  /** The target state a change makes true: not what it was attempted against, nor the key a remote
    * recognises a delivery by. */
  datatype TargetState =
    | Adding(link: Option<LinkId>, flags: Flags, origin: Option<Origin>, body: Option<Hash>)
    | Removing(to: Option<CollectionId>)
    | Flagging(flags: Flags)
    | Updating(hash: Hash)

  function TargetOf(kind: ChangeKind): TargetState {
    match kind
    case Add(_, link, flags, origin, body) => Adding(link, flags, origin, body)
    case Remove(_, to, _, _) => Removing(to)
    case SetFlags(_, flags) => Flagging(flags)
    case Update(_, hash, _) => Updating(hash)
  }

  predicate NulFreeFlags(flags: Flags) {
    flags.Known? ==>
      |flags.markers| < Pow256(COUNT_WIDTH) && forall marker :: marker in flags.markers ==> NulFree(marker)
  }

  predicate NulFreeOption(text: Option<Text>) {
    text.Some? ==> NulFree(text.value)
  }

  /** Every string of a change is NUL-free, and a set counts what its width can. */
  predicate Encodable(kind: ChangeKind) {
    && NulFree(kind.handle.text)
    && match kind
       case Add(_, link, flags, origin, body) =>
         && NulFreeOption(LinkText(link)) && NulFreeFlags(flags) && NulFreeOption(BodyText(body))
         && (origin.Some? ==> NulFree(origin.value.collection.text) && NulFree(origin.value.handle.text))
       case Remove(_, to, _, _) => NulFreeOption(CollectionText(to))
       case SetFlags(_, flags) => NulFreeFlags(flags)
       case Update(_, hash, _) => NulFree(hash.text)
  }

  /** A terminated field ends where its terminator is. */
  lemma {:induction false} FieldSplits(a: Text, x: Text, b: Text, y: Text)
    requires NulFree(a) && NulFree(b) && FieldBytes(a) + x == FieldBytes(b) + y
    ensures a == b && x == y
    decreases |a|
  {
    var s, t := FieldBytes(a) + x, FieldBytes(b) + y;
    assert s[0] == (if a == [] then NUL else a[0]);
    assert t[0] == (if b == [] then NUL else b[0]);
    if a != [] && b != [] {
      assert s[1..] == FieldBytes(a[1..]) + x && t[1..] == FieldBytes(b[1..]) + y;
      FieldSplits(a[1..], x, b[1..], y);
      assert a == [a[0]] + a[1..] && b == [b[0]] + b[1..];
    } else {
      assert a == [] && b == [];
      assert s[1..] == x && t[1..] == y;
    }
  }

  lemma SameLengthSplits(a: Text, x: Text, b: Text, y: Text)
    requires |a| == |b| && a + x == b + y
    ensures a == b && x == y
  {
    assert a == (a + x)[..|a|] && x == (a + x)[|a|..];
    assert b == (b + y)[..|b|] && y == (b + y)[|b|..];
  }

  lemma {:induction false} LittleEndianIsInjective(m: nat, n: nat, width: nat)
    requires m < Pow256(width) && n < Pow256(width) && LittleEndian(m, width) == LittleEndian(n, width)
    ensures m == n
    decreases width
  {
    if width > 0 {
      var a, b := LittleEndian(m, width), LittleEndian(n, width);
      assert a[0] == b[0] && a[1..] == LittleEndian(m / 256, width - 1) && b[1..] == LittleEndian(n / 256, width - 1);
      LittleEndianIsInjective(m / 256, n / 256, width - 1);
    }
  }

  lemma OptionSplits(a: Option<Text>, x: Text, b: Option<Text>, y: Text)
    requires NulFreeOption(a) && NulFreeOption(b) && OptionBytes(a) + x == OptionBytes(b) + y
    ensures a == b && x == y
  {
    var p := if a.Some? then FieldBytes(a.value) + x else x;
    var q := if b.Some? then FieldBytes(b.value) + y else y;
    assert OptionBytes(a) + x == FieldBytes(if a.Some? then PRESENT else ABSENT) + p;
    assert OptionBytes(b) + y == FieldBytes(if b.Some? then PRESENT else ABSENT) + q;
    FieldSplits(if a.Some? then PRESENT else ABSENT, p, if b.Some? then PRESENT else ABSENT, q);
    if a.Some? { FieldSplits(a.value, x, b.value, y); }
  }

  lemma {:induction false} FieldsSplit(a: seq<Text>, x: Text, b: seq<Text>, y: Text)
    requires |a| == |b| && (forall t :: t in a ==> NulFree(t)) && (forall t :: t in b ==> NulFree(t))
    requires FieldsBytes(a) + x == FieldsBytes(b) + y
    ensures a == b && x == y
    decreases |a|
  {
    if a == [] {
      assert FieldsBytes(a) + x == x && FieldsBytes(b) + y == y;
    } else {
      assert FieldsBytes(a) + x == FieldBytes(a[0]) + (FieldsBytes(a[1..]) + x);
      assert FieldsBytes(b) + y == FieldBytes(b[0]) + (FieldsBytes(b[1..]) + y);
      FieldSplits(a[0], FieldsBytes(a[1..]) + x, b[0], FieldsBytes(b[1..]) + y);
      FieldsSplit(a[1..], x, b[1..], y);
      assert a == [a[0]] + a[1..] && b == [b[0]] + b[1..];
    }
  }

  function FlagsTag(flags: Flags): Text {
    if flags.Known? then KNOWN else UNKNOWN
  }

  ghost function FlagsRest(flags: Flags): Text {
    if flags.Known? then FieldBytes(LittleEndian(|flags.markers|, COUNT_WIDTH)) + FieldsBytes(Sorted(flags.markers))
    else []
  }

  lemma Associates(a: Text, b: Text, c: Text)
    ensures (a + b) + c == a + (b + c)
  {
  }

  lemma FlagsOpen(flags: Flags, x: Text)
    ensures FlagsBytes(flags) + x == FieldBytes(FlagsTag(flags)) + (FlagsRest(flags) + x)
  {
    assert FlagsBytes(flags) == FieldBytes(FlagsTag(flags)) + FlagsRest(flags) by {
      assert FieldBytes(UNKNOWN) + [] == FieldBytes(UNKNOWN);
    }
    hide FlagsBytes, FlagsRest, FieldBytes;
    Associates(FieldBytes(FlagsTag(flags)), FlagsRest(flags), x);
  }

  lemma FlagsSplit(a: Flags, x: Text, b: Flags, y: Text)
    requires NulFreeFlags(a) && NulFreeFlags(b) && FlagsBytes(a) + x == FlagsBytes(b) + y
    ensures a == b && x == y
  {
    FlagsOpen(a, x);
    FlagsOpen(b, y);
    assert NulFree(FlagsTag(a)) && NulFree(FlagsTag(b));
    assert FlagsTag(a) == FlagsTag(b) ==> (a.Known? <==> b.Known?) by { assert |KNOWN| != |UNKNOWN|; }
    assert a.Unknown? ==> FlagsRest(a) + x == x;
    assert b.Unknown? ==> FlagsRest(b) + y == y;
    hide FieldBytes, FlagsBytes, FlagsTag, FlagsRest, NulFreeFlags;
    FieldSplits(FlagsTag(a), FlagsRest(a) + x, FlagsTag(b), FlagsRest(b) + y);
    if a.Known? { MarkersSplit(a.markers, x, b.markers, y); }
  }

  lemma MarkersSplit(a: set<Text>, x: Text, b: set<Text>, y: Text)
    requires NulFreeFlags(Known(a)) && NulFreeFlags(Known(b))
    requires FlagsRest(Known(a)) + x == FlagsRest(Known(b)) + y
    ensures a == b && x == y
  {
    var i, j := LittleEndian(|a|, COUNT_WIDTH), LittleEndian(|b|, COUNT_WIDTH);
    assert (forall t :: t in Sorted(a) ==> NulFree(t)) && (forall t :: t in Sorted(b) ==> NulFree(t));
    MarkersOpen(a, x);
    MarkersOpen(b, y);
    hide FieldBytes, LittleEndian, Sorted, NulFree, FieldsBytes, FlagsRest;
    var u, v := FieldsBytes(Sorted(a)), FieldsBytes(Sorted(b));
    SameLengthSplits(i, [NUL] + (u + x), j, [NUL] + (v + y));
    SameLengthSplits([NUL], u + x, [NUL], v + y);
    LittleEndianIsInjective(|a|, |b|, COUNT_WIDTH);
    FieldsSplit(Sorted(a), x, Sorted(b), y);
    assert forall marker :: marker in a <==> marker in Sorted(a);
    assert forall marker :: marker in b <==> marker in Sorted(b);
  }

  lemma MarkersOpen(markers: set<Text>, x: Text)
    ensures FlagsRest(Known(markers)) + x
            == LittleEndian(|markers|, COUNT_WIDTH) + ([NUL] + (FieldsBytes(Sorted(markers)) + x))
  {
    var n, u := LittleEndian(|markers|, COUNT_WIDTH), FieldsBytes(Sorted(markers));
    assert FlagsRest(Known(markers)) == (n + [NUL]) + u;
    hide FlagsRest, LittleEndian, FieldsBytes, Sorted;
    Associates(n + [NUL], u, x);
    Associates(n, [NUL], u + x);
  }

  function PresenceTag(present: bool): (r: Text)
    ensures NulFree(r)
  {
    if present then PRESENT else ABSENT
  }

  function OriginRest(origin: Option<Origin>, x: Text): Text {
    if origin.Some?
    then FieldBytes(origin.value.collection.text) + (FieldBytes(origin.value.handle.text) + x)
    else x
  }

  lemma OriginOpens(origin: Option<Origin>, x: Text)
    ensures OriginBytes(origin) + x == FieldBytes(PresenceTag(origin.Some?)) + OriginRest(origin, x)
  {
    hide FieldBytes;
    if origin.Some? {
      var coll, h := FieldBytes(origin.value.collection.text), FieldBytes(origin.value.handle.text);
      Associates(FieldBytes(PRESENT), coll + h, x);
      Associates(coll, h, x);
    }
  }

  lemma OriginSplits(a: Option<Origin>, x: Text, b: Option<Origin>, y: Text)
    requires a.Some? ==> NulFree(a.value.collection.text) && NulFree(a.value.handle.text)
    requires b.Some? ==> NulFree(b.value.collection.text) && NulFree(b.value.handle.text)
    requires OriginBytes(a) + x == OriginBytes(b) + y
    ensures a == b && x == y
  {
    OriginOpens(a, x);
    OriginOpens(b, y);
    assert PresenceTag(a.Some?) == PresenceTag(b.Some?) ==> (a.Some? <==> b.Some?);
    hide FieldBytes, NulFree, OriginBytes, PresenceTag;
    FieldSplits(PresenceTag(a.Some?), OriginRest(a, x), PresenceTag(b.Some?), OriginRest(b, y));
    if a.Some? {
      FieldSplits(a.value.collection.text, FieldBytes(a.value.handle.text) + x,
                  b.value.collection.text, FieldBytes(b.value.handle.text) + y);
      FieldSplits(a.value.handle.text, x, b.value.handle.text, y);
    }
  }

  function TagOf(kind: ChangeKind): Text {
    match kind
    case Add(_, _, _, _, _) => ADD
    case Remove(_, _, _, _) => REMOVE
    case SetFlags(_, _) => SET_FLAGS
    case Update(_, _, _) => UPDATE
  }

  /** What follows the tag of a kind. */
  ghost function TargetBytes(target: TargetState): Text {
    match target
    case Adding(link, flags, origin, body) =>
      OptionBytes(LinkText(link)) + (FlagsBytes(flags) + (OriginBytes(origin) + OptionBytes(BodyText(body))))
    case Removing(to) => OptionBytes(CollectionText(to))
    case Flagging(flags) => FlagsBytes(flags)
    case Updating(hash) => FieldBytes(hash.text)
  }

  lemma TagsDiffer(a: ChangeKind, b: ChangeKind)
    requires TagOf(a) == TagOf(b)
    ensures (a.Add? <==> b.Add?) && (a.Remove? <==> b.Remove?) && (a.SetFlags? <==> b.SetFlags?)
            && (a.Update? <==> b.Update?)
  {
    assert |ADD| == 3 && |REMOVE| == 6 && |SET_FLAGS| == 9 && |UPDATE| == 6 && REMOVE[0] != UPDATE[0];
  }

  lemma TargetsSplit(a: ChangeKind, b: ChangeKind)
    requires Encodable(a) && Encodable(b) && TagOf(a) == TagOf(b)
             && TargetBytes(TargetOf(a)) == TargetBytes(TargetOf(b))
    ensures TargetOf(a) == TargetOf(b)
  {
    TagsDiffer(a, b);
    hide OptionBytes, FlagsBytes, OriginBytes, NulFreeFlags;
    match a {
      case Add(_, link, flags, origin, body) =>
        var rest := OriginBytes(origin) + OptionBytes(BodyText(body));
        var more := OriginBytes(b.origin) + OptionBytes(BodyText(b.body));
        OptionSplits(LinkText(link), FlagsBytes(flags) + rest, LinkText(b.linkId), FlagsBytes(b.flags) + more);
        FlagsSplit(flags, rest, b.flags, more);
        OriginSplits(origin, OptionBytes(BodyText(body)), b.origin, OptionBytes(BodyText(b.body)));
        assert OptionBytes(BodyText(body)) + [] == OptionBytes(BodyText(b.body)) + [];
        OptionSplits(BodyText(body), [], BodyText(b.body), []);
      case Remove(_, to, _, _) =>
        assert OptionBytes(CollectionText(to)) + [] == OptionBytes(CollectionText(b.to)) + [];
        OptionSplits(CollectionText(to), [], CollectionText(b.to), []);
      case SetFlags(_, flags) =>
        assert FlagsBytes(flags) + [] == FlagsBytes(b.flags) + [];
        FlagsSplit(flags, [], b.flags, []);
      case Update(_, hash, _) =>
        assert FieldBytes(hash.text) + [] == FieldBytes(b.hash.text) + [];
        FieldSplits(hash.text, [], b.hash.text, []);
    }
  }

  /** Two changes fold the same bytes exactly when they make the same state true of the same member:
    * the encoding decodes one way, and a precondition is no part of it. */
  lemma PreimageDecodes(coll: CollectionId, a: ChangeKind, other: CollectionId, b: ChangeKind)
    requires NulFree(coll.text) && NulFree(other.text) && Encodable(a) && Encodable(b)
    ensures Preimage(coll, a) == Preimage(other, b)
            <==> coll == other && a.handle == b.handle && TargetOf(a) == TargetOf(b)
  {
    KindOpens(a);
    KindOpens(b);
    hide FieldBytes, TargetBytes, KindBytes, Encodable, TagOf;
    if Preimage(coll, a) == Preimage(other, b) {
      FieldSplits(coll.text, FieldBytes(a.handle.text) + KindBytes(a), other.text,
                  FieldBytes(b.handle.text) + KindBytes(b));
      FieldSplits(a.handle.text, KindBytes(a), b.handle.text, KindBytes(b));
      FieldSplits(TagOf(a), TargetBytes(TargetOf(a)), TagOf(b), TargetBytes(TargetOf(b)));
      TargetsSplit(a, b);
    } else if TargetOf(a) == TargetOf(b) {
      SameTag(a, b);
    }
  }

  lemma KindOpens(kind: ChangeKind)
    ensures KindBytes(kind) == FieldBytes(TagOf(kind)) + TargetBytes(TargetOf(kind)) && NulFree(TagOf(kind))
    ensures Encodable(kind) ==> NulFree(kind.handle.text)
  {
    hide FieldBytes, OptionBytes, FlagsBytes, OriginBytes;
  }

  lemma SameTag(a: ChangeKind, b: ChangeKind)
    requires TargetOf(a) == TargetOf(b)
    ensures TagOf(a) == TagOf(b)
  {
  }

  const OFFSET: bv64 := 0xcbf29ce484222325
  const PRIME: bv64 := 0x100000001b3

  /** One FNV-1a step, the product wrapping at sixty-four bits. */
  function Fnv1a(state: bv64, byte: Byte): bv64 {
    (state ^ (byte as bv64)) * PRIME
  }

  function Digest(state: bv64, bytes: Text): bv64
    decreases |bytes|
  {
    if bytes == [] then state else Digest(Fnv1a(state, bytes[0]), bytes[1..])
  }

  lemma {:induction false} DigestConcat(state: bv64, a: Text, b: Text)
    ensures Digest(state, a + b) == Digest(Digest(state, a), b)
    decreases |a|
  {
    hide Fnv1a;
    if a == [] {
      assert a + b == b;
    } else {
      assert (a + b)[1..] == a[1..] + b;
      DigestConcat(Fnv1a(state, a[0]), a[1..], b);
    }
  }

  /** The running digest, and the folds that drive it. */
  class ReplicaChangeDigest {
    var state: bv64

    constructor ()
      ensures state == OFFSET
    {
      state := OFFSET;
    }

    method Field(bytes: Text)
      modifies this
      ensures state == Digest(old(state), FieldBytes(bytes))
    {
      hide Fnv1a;
      var terminated := bytes + [NUL];
      var i := 0;
      while i < |terminated|
        invariant 0 <= i <= |terminated|
        invariant Digest(state, terminated[i..]) == Digest(old(state), terminated)
      {
        assert terminated[i..][1..] == terminated[i + 1..];
        state := Fnv1a(state, terminated[i]);
        i := i + 1;
      }
    }

    method FieldOption(bytes: Option<Text>)
      modifies this
      ensures state == Digest(old(state), OptionBytes(bytes))
    {
      hide Fnv1a, Digest;
      match bytes {
        case Some(present) =>
          DigestConcat(state, FieldBytes(PRESENT), FieldBytes(present));
          Field(PRESENT);
          Field(present);
        case None => Field(ABSENT);
      }
    }

    /** Folds a set in, its markers taken in order. */
    method FieldFlags(flags: Flags)
      modifies this
      ensures state == Digest(old(state), FlagsBytes(flags))
    {
      hide Fnv1a, Digest, Sorted;
      if flags.Unknown? { Field(UNKNOWN); return; }
      var count := LittleEndian(|flags.markers|, COUNT_WIDTH);
      ghost var all := FieldsBytes(Sorted(flags.markers));
      DigestConcat(state, FieldBytes(KNOWN), FieldBytes(count) + all);
      Field(KNOWN);
      DigestConcat(state, FieldBytes(count), all);
      Field(count);
      ghost var counted := state;
      var todo := flags.markers;
      while todo != {}
        invariant Digest(state, FieldsBytes(Sorted(todo))) == Digest(counted, all)
        decreases todo
      {
        LeastText(todo);
        var least :| IsLeast(least, todo);
        LeastMarkerFirst(todo, least);
        DigestConcat(state, FieldBytes(least), FieldsBytes(Sorted(todo - {least})));
        Field(least);
        todo := todo - {least};
      }
      NoFields(state);
    }

    method FieldOrigin(origin: Option<Origin>)
      modifies this
      ensures state == Digest(old(state), OriginBytes(origin))
    {
      hide Fnv1a, Digest;
      match origin {
        case Some(o) =>
          DigestConcat(state, FieldBytes(PRESENT), FieldBytes(o.collection.text) + FieldBytes(o.handle.text));
          Field(PRESENT);
          DigestConcat(state, FieldBytes(o.collection.text), FieldBytes(o.handle.text));
          Field(o.collection.text);
          Field(o.handle.text);
        case None => Field(ABSENT);
      }
    }

    method FieldKind(kind: ChangeKind)
      modifies this
      ensures state == Digest(old(state), KindBytes(kind))
    {
      hide Fnv1a, Digest, FieldBytes, OptionBytes, FlagsBytes, OriginBytes;
      match kind {
        case Add(_, link, flags, origin, body) =>
          ghost var last := OptionBytes(BodyText(body));
          DigestConcat(state, FieldBytes(ADD),
                       OptionBytes(LinkText(link)) + (FlagsBytes(flags) + (OriginBytes(origin) + last)));
          Field(ADD);
          DigestConcat(state, OptionBytes(LinkText(link)), FlagsBytes(flags) + (OriginBytes(origin) + last));
          FieldOption(LinkText(link));
          DigestConcat(state, FlagsBytes(flags), OriginBytes(origin) + last);
          FieldFlags(flags);
          DigestConcat(state, OriginBytes(origin), last);
          FieldOrigin(origin);
          FieldOption(BodyText(body));
        case Remove(_, to, _, _) =>
          DigestConcat(state, FieldBytes(REMOVE), OptionBytes(CollectionText(to)));
          Field(REMOVE);
          FieldOption(CollectionText(to));
        case SetFlags(_, flags) =>
          DigestConcat(state, FieldBytes(SET_FLAGS), FlagsBytes(flags));
          Field(SET_FLAGS);
          FieldFlags(flags);
        case Update(_, hash, _) =>
          DigestConcat(state, FieldBytes(UPDATE), FieldBytes(hash.text));
          Field(UPDATE);
          Field(hash.text);
      }
    }
  }

  lemma LeastMarkerFirst(markers: set<Text>, least: Text)
    requires IsLeast(least, markers)
    ensures Sorted(markers) == [least] + Sorted(markers - {least})
    ensures FieldsBytes(Sorted(markers)) == FieldBytes(least) + FieldsBytes(Sorted(markers - {least}))
  {
    var first := Sorted(markers)[0];
    if first != least {
      LexTransitive(first, least, first);
      LexIrreflexive(first);
    }
    assert ([least] + Sorted(markers - {least}))[1..] == Sorted(markers - {least});
  }

  lemma NoFields(state: bv64)
    ensures Digest(state, FieldsBytes(Sorted({}))) == state
  {
    assert Sorted({}) == [];
  }

  /** A hexadecimal digit, in lower case. */
  function HexDigit(d: nat): Byte
    requires d < 16
  {
    if d < 10 then 0x30 + d as Byte else 0x61 + (d - 10) as Byte
  }

  /** A number in `width` hexadecimal digits, zeros in front. */
  function Hex(n: nat, width: nat): (r: Text)
    ensures |r| == width
  {
    if width == 0 then [] else Hex(n / 16, width - 1) + [HexDigit(n % 16)]
  }

  function Pow16(width: nat): nat {
    if width == 0 then 1 else 16 * Pow16(width - 1)
  }

  /** Digits wide enough for a number tell it. */
  lemma {:induction false} HexTells(n: nat, m: nat, width: nat)
    requires n < Pow16(width) && m < Pow16(width) && Hex(n, width) == Hex(m, width)
    ensures n == m
  {
    if width > 0 {
      var a, b := Hex(n / 16, width - 1), Hex(m / 16, width - 1);
      assert (a + [HexDigit(n % 16)])[width - 1] == (b + [HexDigit(m % 16)])[width - 1];
      assert a == (a + [HexDigit(n % 16)])[..width - 1] == (b + [HexDigit(m % 16)])[..width - 1] == b;
      HexTells(n / 16, m / 16, width - 1);
    }
  }

  const KEY_WIDTH: nat := 16

  /** The digest as the sixteen characters it travels as. */
  function KeyText(digest: bv64): (r: Text)
    ensures |r| == KEY_WIDTH
  {
    Hex(digest as nat, KEY_WIDTH)
  }

  /** The key of a change: the FNV-1a digest of everything it covers, in hexadecimal. */
  method Key(coll: CollectionId, kind: ChangeKind) returns (key: Text)
    ensures key == KeyText(Digest(OFFSET, Preimage(coll, kind)))
  {
    hide Fnv1a, Digest, FieldBytes, KindBytes;
    var digest := new ReplicaChangeDigest();
    DigestConcat(digest.state, FieldBytes(coll.text), FieldBytes(kind.handle.text) + KindBytes(kind));
    digest.Field(coll.text);
    DigestConcat(digest.state, FieldBytes(kind.handle.text), KindBytes(kind));
    digest.Field(kind.handle.text);
    digest.FieldKind(kind);
    key := KeyText(digest.state);
  }

  /** A key is a digest written out: sixteen lower-case digits, the same for two digests only if the
    * digests are. */
  lemma KeyTells(a: bv64, b: bv64)
    ensures KeyText(a) == KeyText(b) <==> a == b
    ensures forall c :: c in KeyText(a) ==> 0x30 <= c <= 0x39 || 0x61 <= c <= 0x66
  {
    HexIsDigits(a as nat, KEY_WIDTH);
    hide Hex;
    if KeyText(a) == KeyText(b) { SixteenTell(a as nat, b as nat); NumberTells(a, b); }
  }

  lemma NumberTells(a: bv64, b: bv64)
    requires a as nat == b as nat
    ensures a == b
  {
    assert (a as nat) as bv64 == a && (b as nat) as bv64 == b;
  }

  lemma SixteenTell(n: nat, m: nat)
    requires n < 0x1_0000_0000_0000_0000 && m < 0x1_0000_0000_0000_0000 && Hex(n, KEY_WIDTH) == Hex(m, KEY_WIDTH)
    ensures n == m
  {
    assert Pow16(4) == 0x1_0000;
    assert Pow16(8) == 16 * 16 * 16 * 16 * Pow16(4) == 0x1_0000_0000;
    assert Pow16(12) == 16 * 16 * 16 * 16 * Pow16(8) == 0x1_0000_0000_0000;
    assert Pow16(16) == 16 * 16 * 16 * 16 * Pow16(12) == 0x1_0000_0000_0000_0000;
    hide Hex, Pow16;
    HexTells(n, m, KEY_WIDTH);
  }

  lemma {:induction false} HexIsDigits(n: nat, width: nat)
    ensures forall c :: c in Hex(n, width) ==> 0x30 <= c <= 0x39 || 0x61 <= c <= 0x66
  {
    if width > 0 { HexIsDigits(n / 16, width - 1); }
  }

  /** A retry is one operation: what it was attempted against, and how a delivery is recognised,
    * leave its key alone. */
  lemma RetryKeepsKey(coll: CollectionId, h: Handle, hash: Hash, to: Option<CollectionId>, link: Option<LinkId>,
                      other: Option<LinkId>, ifMatch: Option<Revision>, later: Option<Revision>)
    ensures Preimage(coll, Update(h, hash, ifMatch)) == Preimage(coll, Update(h, hash, later))
    ensures Preimage(coll, Remove(h, to, link, ifMatch)) == Preimage(coll, Remove(h, to, other, later))
  {
  }
}

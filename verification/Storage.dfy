/** A storage applying write batches in order. */
module Storage {
  import opened Wrappers
  import opened Text
  import opened Placement
  import opened Change
  import opened Join
  import opened JoinLaws

  type Rows = map<Handle, Placement>

  function ApplyOp(rows: Rows, op: WriteOp): Rows {
    match op
    case UpsertPlacement(row) => rows[row.handle := row]
    case DropPlacement(_, h, _) => rows - {h}
    case StoreObject(_, _) => rows
    case SetCheckpoint(_, _) => rows
  }

  function Apply(rows: Rows, ops: seq<WriteOp>): Rows
    decreases |ops|
  {
    if ops == [] then rows else Apply(ApplyOp(rows, ops[0]), ops[1..])
  }

  function At(rows: Rows, h: Handle): Option<Placement> {
    if h in rows then Some(rows[h]) else None
  }

  /** A load of the storage: every row, under its own handle, in any order. */
  ghost predicate Lists(listing: seq<Placement>, rows: Rows) {
    forall h :: RowAt(listing, h) == At(rows, h)
  }

  lemma {:induction false} ApplyConcat(rows: Rows, a: seq<WriteOp>, b: seq<WriteOp>)
    ensures Apply(rows, a + b) == Apply(Apply(rows, a), b)
    decreases |a|
  {
    if a == [] {
      assert a + b == b;
    } else {
      assert (a + b)[1..] == a[1..] + b;
      ApplyConcat(ApplyOp(rows, a[0]), a[1..], b);
    }
  }

  lemma ApplyOne(rows: Rows, op: WriteOp)
    ensures Apply(rows, [op]) == ApplyOp(rows, op)
  {
    assert [op][1..] == [];
  }

  lemma ApplyTwo(rows: Rows, a: WriteOp, b: WriteOp)
    ensures Apply(rows, [a, b]) == ApplyOp(ApplyOp(rows, a), b)
  {
    assert [a, b][1..] == [b] && [b][1..] == [];
    assert Apply(ApplyOp(rows, a), [b]) == ApplyOp(ApplyOp(rows, a), b);
  }

  lemma ApplyMark(rows: Rows, coll: CollectionId, checkpoint: Checkpoint)
    ensures Apply(rows, [SetCheckpoint(coll, checkpoint)]) == rows
  {
    assert [SetCheckpoint(coll, checkpoint)][1..] == [];
  }

  /** Ops writing or dropping none but these rows. */
  ghost predicate Within(ops: seq<WriteOp>, keys: set<Handle>) {
    forall op :: op in ops ==>
      && (op.UpsertPlacement? ==> op.placement.handle in keys)
      && (op.DropPlacement? ==> op.handle in keys)
  }

  lemma {:induction false} ApplyOutside(rows: Rows, ops: seq<WriteOp>, keys: set<Handle>, h: Handle)
    requires Within(ops, keys) && h !in keys
    ensures At(Apply(rows, ops), h) == At(rows, h)
    decreases |ops|
  {
    if ops != [] {
      assert ops[0] in ops;
      ApplyOutside(ApplyOp(rows, ops[0]), ops[1..], keys, h);
    }
  }

  /** The reference storage of one collection: rows, bodies and the checkpoint, written in place. */
  class MemStorage {
    var placements: Rows
    var objects: map<Hash, (StoredObject, seq<Byte>)>
    var checkpoint: Option<Checkpoint>

    constructor ()
      ensures placements == map[] && objects == map[] && checkpoint == None
    {
      placements, objects, checkpoint := map[], map[], None;
    }

    /** Applies a batch, op after op. */
    method Write(ops: seq<WriteOp>)
      modifies this
      ensures placements == Apply(old(placements), ops)
      ensures objects == old(objects) + StoredBodies(ops)
      ensures checkpoint == (if Marked(ops).Some? then Marked(ops) else old(checkpoint))
    {
      var i := 0;
      assert ops[0..] == ops;
      while i < |ops|
        invariant 0 <= i <= |ops|
        invariant Apply(placements, ops[i..]) == Apply(old(placements), ops)
        invariant objects == old(objects) + StoredBodies(ops[..i])
        invariant checkpoint == (if Marked(ops[..i]).Some? then Marked(ops[..i]) else old(checkpoint))
      {
        assert ops[i..][1..] == ops[i + 1..];
        StepStores(ops, i);
        WriteOne(ops[i]);
        i := i + 1;
      }
      assert ops[..|ops|] == ops;
    }

    method WriteOne(op: WriteOp)
      modifies this
      ensures placements == ApplyOp(old(placements), op)
      ensures objects == (if op.StoreObject? then old(objects)[op.stored.hash := op.AsStored()] else old(objects))
      ensures checkpoint == (if op.SetCheckpoint? then Some(op.checkpoint) else old(checkpoint))
    {
      match op {
        case UpsertPlacement(row) => placements := placements[row.handle := row];
        case DropPlacement(_, h, _) => placements := placements - {h};
        case StoreObject(stored, bytes) =>
          objects := objects[stored.hash := (stored, if bytes.Some? then bytes.value else [])];
        case SetCheckpoint(_, mark) => checkpoint := Some(mark);
      }
    }
  }

  /** The bodies a batch stores, the last one of each hash kept. */
  function StoredBodies(ops: seq<WriteOp>): map<Hash, (StoredObject, seq<Byte>)> {
    if ops == [] then map[]
    else
      var before, last := StoredBodies(ops[..|ops| - 1]), ops[|ops| - 1];
      if last.StoreObject?
      then before[last.stored.hash := last.AsStored()]
      else before
  }

  /** What one more op of a batch stores and marks. */
  lemma StepStores(ops: seq<WriteOp>, i: nat)
    requires i < |ops|
    ensures StoredBodies(ops[..i + 1])
            == if ops[i].StoreObject?
               then StoredBodies(ops[..i])[ops[i].stored.hash := ops[i].AsStored()]
               else StoredBodies(ops[..i])
    ensures Marked(ops[..i + 1]) == if ops[i].SetCheckpoint? then Some(ops[i].checkpoint) else Marked(ops[..i])
  {
    assert ops[..i + 1][..i] == ops[..i];
  }

  /** The last checkpoint a batch sets. */
  function Marked(ops: seq<WriteOp>): Option<Checkpoint> {
    if ops == [] then None
    else
      var last := ops[|ops| - 1];
      if last.SetCheckpoint? then Some(last.checkpoint) else Marked(ops[..|ops| - 1])
  }

  /** What a batch leaves under one handle depends on what was there and nothing else. */
  lemma {:induction false} ApplyIsLocal(a: Rows, b: Rows, ops: seq<WriteOp>, h: Handle)
    requires At(a, h) == At(b, h)
    ensures At(Apply(a, ops), h) == At(Apply(b, ops), h)
    decreases |ops|
  {
    if ops != [] {
      ApplyIsLocal(ApplyOp(a, ops[0]), ApplyOp(b, ops[0]), ops[1..], h);
    }
  }

  /** The row an op leaves under the handle it touches. */
  function Left(op: WriteOp): Option<Placement> {
    if op.UpsertPlacement? then Some(op.placement) else None
  }

  predicate Touches(op: WriteOp, h: Handle) {
    (op.UpsertPlacement? && op.placement.handle == h) || (op.DropPlacement? && op.handle == h)
  }

  /** The ops of a batch that touch one row, in order. */
  function Touching(ops: seq<WriteOp>, h: Handle): seq<WriteOp>
    decreases |ops|
  {
    if ops == [] then [] else (if Touches(ops[0], h) then [ops[0]] else []) + Touching(ops[1..], h)
  }

  lemma {:induction false} TouchingConcat(a: seq<WriteOp>, b: seq<WriteOp>, h: Handle)
    ensures Touching(a + b, h) == Touching(a, h) + Touching(b, h)
    decreases |a|
  {
    if a == [] {
      assert a + b == b;
    } else {
      assert (a + b)[1..] == a[1..] + b;
      TouchingConcat(a[1..], b, h);
    }
  }

  lemma {:induction false} TouchingHas(ops: seq<WriteOp>, h: Handle, op: WriteOp)
    ensures op in Touching(ops, h) <==> op in ops && Touches(op, h)
    decreases |ops|
  {
    if ops != [] {
      assert ops == [ops[0]] + ops[1..];
      TouchingHas(ops[1..], h, op);
    }
  }

  lemma {:induction false} TouchingNone(ops: seq<WriteOp>, keys: set<Handle>, h: Handle)
    requires Within(ops, keys) && h !in keys
    ensures Touching(ops, h) == []
    decreases |ops|
  {
    if ops != [] {
      assert ops[0] in ops;
      TouchingNone(ops[1..], keys, h);
    }
  }

  /** What a row becomes once ops touching it are applied. */
  function Ending(row: Option<Placement>, ops: seq<WriteOp>): Option<Placement> {
    if ops == [] then row else Left(ops[|ops| - 1])
  }

  /** A batch leaves a row on the last op touching it. */
  lemma {:induction false} ApplyEnds(rows: Rows, ops: seq<WriteOp>, h: Handle)
    ensures At(Apply(rows, ops), h) == Ending(At(rows, h), Touching(ops, h))
    decreases |ops|
  {
    if ops != [] {
      ApplyEnds(ApplyOp(rows, ops[0]), ops[1..], h);
    }
  }

  /** The rows a listing holds, the last one of each handle kept. */
  function Indexed(listing: seq<Placement>): Rows {
    if listing == [] then map[]
    else Indexed(listing[..|listing| - 1])[listing[|listing| - 1].handle := listing[|listing| - 1]]
  }

  lemma {:induction false} IndexedLists(listing: seq<Placement>)
    ensures Lists(listing, Indexed(listing))
    decreases |listing|
  {
    if listing != [] { IndexedLists(listing[..|listing| - 1]); }
  }

  /** A batch deciding each row it touches once: it reads as a set of ops. */
  ghost predicate Functional(ops: seq<WriteOp>) {
    forall a, b, h :: a in ops && b in ops && Touches(a, h) && Touches(b, h) ==> a == b
  }

  lemma {:induction false} LastTouch(rows: Rows, ops: seq<WriteOp>, h: Handle)
    ensures (forall op :: op in ops ==> !Touches(op, h)) ==> At(Apply(rows, ops), h) == At(rows, h)
    ensures forall op :: op in ops && Touches(op, h) ==>
              exists last :: last in ops && Touches(last, h) && At(Apply(rows, ops), h) == Left(last)
    decreases |ops|
  {
    if ops != [] {
      var next := ApplyOp(rows, ops[0]);
      LastTouch(next, ops[1..], h);
      assert ops[0] in ops;
      assert ops == [ops[0]] + ops[1..];
      if exists op :: op in ops[1..] && Touches(op, h) {
        var op :| op in ops[1..] && Touches(op, h);
        var last :| last in ops[1..] && Touches(last, h) && At(Apply(next, ops[1..]), h) == Left(last);
        assert last in ops;
      }
    }
  }

  lemma TouchedOnce(rows: Rows, ops: seq<WriteOp>, op: WriteOp, h: Handle)
    requires Functional(ops) && op in ops && Touches(op, h)
    ensures At(Apply(rows, ops), h) == Left(op)
  {
    LastTouch(rows, ops, h);
  }

  /** The order of such a batch, and how often it states an op, play no part. */
  lemma SetApplies(rows: Rows, a: seq<WriteOp>, b: seq<WriteOp>)
    requires Functional(a) && forall op :: op in a <==> op in b
    ensures Apply(rows, a) == Apply(rows, b)
  {
    forall h ensures At(Apply(rows, a), h) == At(Apply(rows, b), h) {
      LastTouch(rows, a, h);
      LastTouch(rows, b, h);
    }
    assert forall h :: h in Apply(rows, a) <==> At(Apply(rows, a), h).Some?;
    assert forall h :: h in Apply(rows, b) <==> At(Apply(rows, b), h).Some?;
  }
}

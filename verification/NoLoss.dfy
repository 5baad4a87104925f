/** No body staged locally is lost in a run, whatever the driver answers. */
module NoLoss {
  import opened Wrappers
  import opened Placement
  import opened Change
  import opened Remote
  import opened Join
  import opened JoinLaws
  import opened MergeRules
  import opened SyncMachine
  import opened SyncInvariants
  import opened SyncRuns
  import opened DeltaSync
  import opened Storage

  /** A live row pointing at a body its base does not hold: an edit, or a create never pushed. */
  predicate Stages(row: Placement, body: Hash) {
    && row.body == Some(body)
    && row.StagedEdit() == Some(body)
    && (row.status == Dirty || row.status == Conflict || (row.status == Created && row.base.None?))
  }

  /** The rows one candidate may write: its own, and the fork of its body. */
  function OwnKeys(opts: Options, c: Candidate): set<Handle> {
    {c.handle} + (if opts.conflict == KeepBoth && c.local.Some? && c.local.value.body.Some?
                  then {DupHandle(c.handle, c.local.value.body.value)} else {})
  }

  lemma ContentWithin(coll: CollectionId, opts: Options, row: Placement, item: RemoteItem, keys: set<Handle>)
    requires row.handle in keys
    requires opts.conflict == KeepBoth && row.body.Some? ==> DupHandle(row.handle, row.body.value) in keys
    ensures var (e, outcome) := ReconcileContent(coll, opts, row, item);
            Within(e.writes, keys) && (outcome.Rewritten? ==> outcome.row.handle == row.handle)
  {
  }

  lemma FlagsWithin(opts: Options, row: Placement, item: RemoteItem, allow: PushFlags, keys: set<Handle>)
    requires row.handle in keys
    ensures Within(ReconcileFlags(opts, row, item, allow).writes, keys)
  {
    hide MergeFlags;
  }

  lemma MergeOneWithin(coll: CollectionId, opts: Options, c: Candidate)
    requires Paired(c)
    ensures Within(MergeOne(coll, opts, c).writes, OwnKeys(opts, c))
  {
    if c.local.Some? && c.remote.Some? && c.local.value.status != Tombstone {
      var row, item := c.local.value, c.remote.value;
      var keys := OwnKeys(opts, c);
      ContentWithin(coll, opts, row, item, keys);
      var (content, outcome) := ReconcileContent(coll, opts, row, item);
      hide ReconcileContent;
      FlagsWithin(opts, if outcome.Rewritten? then outcome.row else row, item,
                  if outcome.Pushed? then Withhold else Derive, keys);
      hide ReconcileFlags, OwnKeys;
    }
  }

  /** Ops keeping one row on one body. */
  ghost predicate Keeping(ops: seq<WriteOp>, h: Handle, body: Hash) {
    forall op :: op in ops ==> op.UpsertPlacement? && op.placement.handle == h && op.placement.body == Some(body)
  }

  predicate PendingKeeps(pending: Pending, body: Hash) {
    match pending
    case FlagPush(row) => row.body == Some(body)
    case ContentPush(row) => row.body == Some(body)
    case DropPush => false
    case CreatePush(row) => row.body == Some(body)
  }

  ghost predicate EffectKeeps(e: Effect, h: Handle, body: Hash) {
    Keeping(e.writes, h, body) && (e.push.Some? ==> PendingKeeps(e.push.value.pending, body))
  }

  lemma ContentKeeps(coll: CollectionId, opts: Options, row: Placement, item: RemoteItem, body: Hash)
    requires Stages(row, body) && opts.conflict != PreferRemote
    ensures var (e, outcome) := ReconcileContent(coll, opts, row, item);
            || (EffectKeeps(e, row.handle, body)
                && (outcome.Rewritten? ==> (outcome.row.handle == row.handle && outcome.row.body == Some(body))))
            || (opts.conflict == KeepBoth && outcome.Rewritten? && outcome.row.handle == row.handle
                && e.writes == [UpsertPlacement(DupRow(coll, row, body)), UpsertPlacement(outcome.row)])
  {
  }

  lemma FlagsKeep(opts: Options, row: Placement, item: RemoteItem, allow: PushFlags, body: Hash)
    requires row.body == Some(body)
    ensures EffectKeeps(ReconcileFlags(opts, row, item, allow), row.handle, body)
  {
    hide MergeFlags;
  }

  lemma ThenKeeps(e: Effect, f: Effect, h: Handle, body: Hash)
    requires EffectKeeps(e, h, body) && EffectKeeps(f, h, body)
    ensures EffectKeeps(e.Then(f), h, body)
  {
  }

  lemma ThenForks(e: Effect, f: Effect, h: Handle)
    requires |e.writes| == 2 && Within(e.writes[1..], {h}) && Within(f.writes, {h})
    ensures var g := e.Then(f); g.writes != [] && g.writes[0] == e.writes[0] && Within(g.writes[1..], {h})
  {
    assert (e.writes + f.writes)[1..] == e.writes[1..] + f.writes;
  }

  /** The merge of a staging row either keeps it on its body, or forks the body first. */
  lemma MergeKeepsOrForks(coll: CollectionId, opts: Options, c: Candidate, body: Hash)
    requires Paired(c) && c.local.Some? && Stages(c.local.value, body) && opts.conflict != PreferRemote
    ensures var e := MergeOne(coll, opts, c);
            || EffectKeeps(e, c.handle, body)
            || (opts.conflict == KeepBoth && e.writes != []
                && e.writes[0] == UpsertPlacement(DupRow(coll, c.local.value, body))
                && Within(e.writes[1..], {c.handle}))
  {
    var row := c.local.value;
    if c.remote.Some? {
      var item := c.remote.value;
      ContentKeeps(coll, opts, row, item, body);
      var (content, outcome) := ReconcileContent(coll, opts, row, item);
      hide ReconcileContent;
      var next := if outcome.Rewritten? then outcome.row else row;
      var allow := if outcome.Pushed? then Withhold else Derive;
      if next.body == Some(body) { FlagsKeep(opts, next, item, allow, body); }
      FlagsWithin(opts, next, item, allow, {c.handle});
      var flags := ReconcileFlags(opts, next, item, allow);
      hide ReconcileFlags, DupRow, Stages;
      assert MergeOne(coll, opts, c) == content.Then(flags);
      hide MergeOne;
      if EffectKeeps(content, c.handle, body) && next.body == Some(body) {
        ThenKeeps(content, flags, c.handle, body);
      } else {
        ThenForks(content, flags, c.handle);
      }
    } else {
      hide MergeTombstone, MergeBoth;
    }
  }

  /** What is pending under a handle settles to a row on the body. */
  ghost predicate PendingOn(p: Pendings, h: Handle, body: Hash) {
    && (h in p.flags ==> p.flags[h].body == Some(body) && p.flags[h].handle == h)
    && (h in p.content ==> p.content[h].body == Some(body) && p.content[h].handle == h)
    && h !in p.drops
    && (h in p.creates ==> p.creates[h].body == Some(body) && p.creates[h].handle == h)
  }

  /** Some stored row holds the body, and nothing the run still has to record will move it:
    * the row itself, its fork, or the row a create was rekeyed to. */
  ghost predicate HeldAt(rows: Rows, p: Pendings, k: Handle, h: Handle, body: Hash, owner: map<Handle, Handle>) {
    && k in rows && rows[k].body == Some(body)
    && (if k == h then PendingOn(p, h, body) && h !in owner
        else k !in p.Domain() && (k in owner ==> owner[k] !in p.Domain()))
  }

  ghost predicate Held(rows: Rows, p: Pendings, h: Handle, body: Hash, owner: map<Handle, Handle>) {
    exists k :: HeldAt(rows, p, k, h, body, owner)
  }

  lemma {:induction false} KeepingApplies(rows: Rows, ops: seq<WriteOp>, h: Handle, body: Hash)
    requires Keeping(ops, h, body) && h in rows && rows[h].body == Some(body)
    ensures h in Apply(rows, ops) && Apply(rows, ops)[h].body == Some(body)
    decreases |ops|
  {
    if ops != [] {
      assert ops[0] in ops;
      KeepingApplies(ApplyOp(rows, ops[0]), ops[1..], h, body);
    }
  }

  lemma AddOnOwn(p: Pendings, d: Derived, body: Hash)
    requires d.kind.handle !in p.Domain() && Matched(d) && PendingKeeps(d.pending, body)
    ensures PendingOn(p.Add(d.kind.handle, d.pending), d.kind.handle, body)
  {
  }

  /** The staging row itself is merged: it, or its fork, now holds the body. */
  lemma OwnMergeHolds(coll: CollectionId, opts: Options, c: Candidate, body: Hash, rows: Rows, p: Pendings,
                      owner: map<Handle, Handle>)
    requires Paired(c) && c.local.Some? && Stages(c.local.value, body) && opts.conflict != PreferRemote
    requires At(rows, c.handle) == c.local && c.handle !in p.Domain() && c.handle !in owner
    requires forall k :: k in OwnKeys(opts, c) - {c.handle} ==> k !in p.Domain() && k !in owner
    ensures var e := MergeOne(coll, opts, c);
            var q := if e.push.Some? then p.Add(c.handle, e.push.value.pending) else p;
            exists k :: HeldAt(Apply(rows, e.writes), q, k, c.handle, body, owner)
                        && (k == c.handle || (opts.conflict == KeepBoth && k == DupHandle(c.handle, body)))
  {
    var h := c.handle;
    var e := MergeOne(coll, opts, c);
    EffectShape(coll, opts, c);
    MergeKeepsOrForks(coll, opts, c, body);
    hide MergeOne;
    var q := if e.push.Some? then p.Add(h, e.push.value.pending) else p;
    if EffectKeeps(e, h, body) {
      KeepingApplies(rows, e.writes, h, body);
      if e.push.Some? { AddOnOwn(p, e.push.value, body); }
      assert PendingOn(q, h, body);
      hide PendingOn;
      assert HeldAt(Apply(rows, e.writes), q, h, h, body, owner);
    } else {
      var dup := DupHandle(h, body);
      var forked := ApplyOp(rows, e.writes[0]);
      DupIsAnother(h, body);
      ApplyOutside(forked, e.writes[1..], {h}, dup);
      assert dup in OwnKeys(opts, c) - {h};
      if e.push.Some? { AddElsewhere(p, h, e.push.value.pending, dup, body); }
      hide PendingOn;
      assert HeldAt(Apply(rows, e.writes), q, dup, h, body, owner);
    }
  }

  lemma DupIsAnother(h: Handle, body: Hash)
    ensures DupHandle(h, body) != h
  {
    assert |DupHandle(h, body).text| > |h.text|;
  }

  lemma AddElsewhere(p: Pendings, g: Handle, pending: Pending, h: Handle, body: Hash)
    ensures p.Add(g, pending).Domain() == p.Domain() + {g}
    ensures g != h && PendingOn(p, h, body) ==> PendingOn(p.Add(g, pending), h, body)
  {
    match pending {
      case FlagPush(_) =>
      case ContentPush(_) =>
      case DropPush =>
      case CreatePush(_) =>
    }
  }

  /** Another candidate's merge leaves the holding row alone. */
  lemma OtherMergeHolds(e: Effect, keys: set<Handle>, g: Handle, rows: Rows, p: Pendings, k: Handle, h: Handle,
                        body: Hash, owner: map<Handle, Handle>)
    requires HeldAt(rows, p, k, h, body, owner)
    requires Within(e.writes, keys) && k !in keys && g != h && g != k
    requires k in owner ==> owner[k] != g
    ensures var q := if e.push.Some? then p.Add(g, e.push.value.pending) else p;
            HeldAt(Apply(rows, e.writes), q, k, h, body, owner)
  {
    ApplyOutside(rows, e.writes, keys, k);
    if e.push.Some? { AddElsewhere(p, g, e.push.value.pending, h, body); }
    hide PendingOn;
  }

  /** The other candidates' rows and forks are neither the staging row nor its fork. */
  ghost predicate Apart(opts: Options, cs: seq<Candidate>, h: Handle, body: Hash, owner: map<Handle, Handle>) {
    && h !in owner
    && (forall c :: c in cs && c.handle != h ==> h !in OwnKeys(opts, c))
    && (opts.conflict == KeepBoth ==>
          && DupHandle(h, body) !in owner
          && (forall c :: c in cs ==> c.handle != DupHandle(h, body))
          && (forall c :: c in cs && c.handle != h ==> DupHandle(h, body) !in OwnKeys(opts, c)))
  }

  /** Each pending row is kept under its own handle. */
  ghost predicate Keyed(p: Pendings) {
    && (forall g :: g in p.flags ==> p.flags[g].handle == g)
    && (forall g :: g in p.content ==> p.content[g].handle == g)
    && (forall g :: g in p.creates ==> p.creates[g].handle == g)
  }

  lemma AddKeepsKeyed(p: Pendings, d: Derived)
    requires Keyed(p) && Matched(d)
    ensures Keyed(p.Add(d.kind.handle, d.pending))
  {
  }

  /** What the merge leaves pending is keyed, and of candidates only. */
  lemma {:induction false} MergeKeepsKeyed(s: SyncState, cs: seq<Candidate>)
    requires Keyed(s.pendings) && forall c :: c in cs ==> Paired(c)
    ensures var t := AbsorbAll(s, cs);
            && Keyed(t.pendings)
            && (forall g :: g in t.pendings.Domain() ==>
                  g in s.pendings.Domain() || exists c :: c in cs && c.handle == g)
    decreases |cs|
  {
    if cs != [] {
      var e := MergeOne(s.collection, s.opts, cs[0]);
      EffectShape(s.collection, s.opts, cs[0]);
      hide MergeOne;
      var t := Absorb(s, e);
      if e.push.Some? {
        AddKeepsKeyed(s.pendings, e.push.value);
        AddElsewhere(s.pendings, cs[0].handle, e.push.value.pending, cs[0].handle, Hash([]));
      }
      hide Keyed, Matched;
      MergeKeepsKeyed(t, cs[1..]);
    }
  }

  lemma AbsorbApplies(s: SyncState, e: Effect, store: Rows)
    ensures Apply(store, Absorb(s, e).writes) == Apply(Apply(store, s.writes), e.writes)
  {
    ApplyConcat(store, s.writes, e.writes);
  }

  lemma {:induction false} MergeStaysSeparate(s: SyncState, cs: seq<Candidate>)
    requires Separate(s.pendings) && Ascending(cs)
    requires forall c :: c in cs ==> Paired(c) && c.handle !in s.pendings.Domain()
    ensures Separate(AbsorbAll(s, cs).pendings)
    decreases |cs|
  {
    if cs != [] {
      var c := cs[0];
      var e := MergeOne(s.collection, s.opts, c);
      assert c in cs;
      EffectShape(s.collection, s.opts, c);
      hide MergeOne, Matched;
      if e.push.Some? { AddKeeps(s.pendings, c.handle, e.push.value.pending); }
      forall d | d in cs[1..] ensures d.handle != c.handle {
        LessIrreflexive(c.handle);
      }
      hide Separate;
      MergeStaysSeparate(Absorb(s, e), cs[1..]);
    }
  }

  /** Every pending create has its add queued. */
  ghost predicate CreatesSent(p: Pendings, pushes: seq<ChangeKind>) {
    forall g :: g in p.creates ==> exists k :: k in pushes && k.Add? && k.handle == g && k.body == p.creates[g].body
  }

  lemma {:induction false} MergeSendsCreates(s: SyncState, cs: seq<Candidate>)
    requires CreatesSent(s.pendings, s.pushes) && forall c :: c in cs ==> Paired(c)
    ensures var t := AbsorbAll(s, cs); CreatesSent(t.pendings, t.pushes)
    decreases |cs|
  {
    if cs != [] {
      var c := cs[0];
      assert c in cs;
      var e := MergeOne(s.collection, s.opts, c);
      EffectShape(s.collection, s.opts, c);
      hide MergeOne;
      AbsorbSendsCreates(s, e);
      hide CreatesSent, Matched;
      MergeSendsCreates(Absorb(s, e), cs[1..]);
    }
  }

  lemma AbsorbSendsCreates(s: SyncState, e: Effect)
    requires CreatesSent(s.pendings, s.pushes) && (e.push.Some? ==> Matched(e.push.value))
    ensures var t := Absorb(s, e); CreatesSent(t.pendings, t.pushes)
  {
    var t := Absorb(s, e);
    forall g | g in t.pendings.creates
      ensures exists k :: k in t.pushes && k.Add? && k.handle == g && k.body == t.pendings.creates[g].body
    {
      if g in s.pendings.creates && t.pendings.creates[g] == s.pendings.creates[g] {
        var k :| k in s.pushes && k.Add? && k.handle == g && k.body == s.pendings.creates[g].body;
        assert k in t.pushes;
      } else {
        assert e.push.value.kind in t.pushes;
      }
    }
  }

  /** Once the body is held, the candidates left do not move it. */
  lemma {:induction false} MergeStillHolds(s: SyncState, cs: seq<Candidate>, store: Rows, k: Handle, h: Handle,
                                           body: Hash, owner: map<Handle, Handle>)
    requires HeldAt(Apply(store, s.writes), s.pendings, k, h, body, owner)
             && (k == h || (s.opts.conflict == KeepBoth && k == DupHandle(h, body)))
    requires Apart(s.opts, cs, h, body, owner)
    requires forall c :: c in cs ==> Paired(c) && c.handle != h
    ensures var t := AbsorbAll(s, cs); HeldAt(Apply(store, t.writes), t.pendings, k, h, body, owner)
    decreases |cs|
  {
    if cs != [] {
      var c := cs[0];
      var e := MergeOne(s.collection, s.opts, c);
      EffectShape(s.collection, s.opts, c);
      MergeOneWithin(s.collection, s.opts, c);
      hide MergeOne, Matched;
      assert c in cs;
      OtherMergeHolds(e, OwnKeys(s.opts, c), c.handle, Apply(store, s.writes), s.pendings, k, h, body, owner);
      AbsorbApplies(s, e, store);
      var t := Absorb(s, e);
      hide HeldAt, OwnKeys;
      MergeStillHolds(t, cs[1..], store, k, h, body, owner);
    }
  }

  /** The merge ends with the body held, whether it took the staging row or never reached it. */
  lemma {:induction false} MergeHolds(s: SyncState, cs: seq<Candidate>, store: Rows, row: Placement, body: Hash,
                                      owner: map<Handle, Handle>)
    requires Stages(row, body) && s.opts.conflict != PreferRemote
    requires At(Apply(store, s.writes), row.handle) == Some(row)
    requires row.handle !in s.pendings.Domain()
    requires s.opts.conflict == KeepBoth ==> DupHandle(row.handle, body) !in s.pendings.Domain()
    requires Apart(s.opts, cs, row.handle, body, owner) && Ascending(cs)
    requires forall c :: c in cs ==> Paired(c) && (c.handle == row.handle ==> c.local == Some(row))
    ensures var t := AbsorbAll(s, cs); Held(Apply(store, t.writes), t.pendings, row.handle, body, owner)
    decreases |cs|
  {
    var h := row.handle;
    if cs == [] {
      assert HeldAt(Apply(store, s.writes), s.pendings, h, h, body, owner);
    } else {
      var c := cs[0];
      assert c in cs;
      var e := MergeOne(s.collection, s.opts, c);
      EffectShape(s.collection, s.opts, c);
      AbsorbApplies(s, e, store);
      var t := Absorb(s, e);
      if c.handle == h {
        MergeTakesStaging(s, cs, store, row, body, owner);
      } else {
        MergeOneWithin(s.collection, s.opts, c);
        hide MergeOne, Matched;
        ApplyOutside(Apply(store, s.writes), e.writes, OwnKeys(s.opts, c), h);
        if e.push.Some? { AddElsewhere(s.pendings, c.handle, e.push.value.pending, h, body); }
        hide OwnKeys, Held;
        MergeHolds(t, cs[1..], store, row, body, owner);
      }
    }
  }

  lemma MergeTakesStaging(s: SyncState, cs: seq<Candidate>, store: Rows, row: Placement, body: Hash,
                          owner: map<Handle, Handle>)
    requires Stages(row, body) && s.opts.conflict != PreferRemote
    requires At(Apply(store, s.writes), row.handle) == Some(row)
    requires row.handle !in s.pendings.Domain()
    requires s.opts.conflict == KeepBoth ==> DupHandle(row.handle, body) !in s.pendings.Domain()
    requires Apart(s.opts, cs, row.handle, body, owner) && Ascending(cs)
    requires cs != [] && cs[0].handle == row.handle && cs[0].local == Some(row)
    requires forall c :: c in cs ==> Paired(c)
    ensures var t := AbsorbAll(s, cs); Held(Apply(store, t.writes), t.pendings, row.handle, body, owner)
  {
    var h, c := row.handle, cs[0];
    var e := MergeOne(s.collection, s.opts, c);
    EffectShape(s.collection, s.opts, c);
    OwnMergeHolds(s.collection, s.opts, c, body, Apply(store, s.writes), s.pendings, owner);
    hide MergeOne, Matched;
    AbsorbApplies(s, e, store);
    var t := Absorb(s, e);
    var k :| HeldAt(Apply(store, t.writes), t.pendings, k, h, body, owner)
            && (k == h || (s.opts.conflict == KeepBoth && k == DupHandle(h, body)));
    forall d | d in cs[1..] ensures d.handle != h {
      LessIrreflexive(h);
    }
    hide HeldAt;
    MergeStillHolds(t, cs[1..], store, k, h, body, owner);
  }

  /** Every handle a server assigns is new, and assigned to one create. */
  ghost predicate FreshlyAssigned(results: seq<PushResult>, owner: map<Handle, Handle>) {
    forall r :: r in results && r.assignedHandle.Some? ==>
      r.assignedHandle.value in owner && owner[r.assignedHandle.value] == r.handle
  }

  /** The create was accepted by a server that named no handle for it. */
  predicate Unnamed(r: PushResult, h: Handle) {
    r.handle == h && r.outcome == Accepted && r.assignedHandle.None?
  }

  /** A create still pending is the one that was. */
  ghost predicate Shrinks(q: Pendings, p: Pendings) {
    forall g :: g in q.creates ==> g in p.creates && q.creates[g] == p.creates[g]
  }

  /** The body rides on a pending create. */
  predicate Creating(p: Pendings, h: Handle, body: Hash) {
    h in p.creates && p.creates[h].body == Some(body)
  }

  /** Ops settling one handle write its own row, or the one it was assigned. */
  lemma RecordWithin(coll: CollectionId, p: Pendings, r: PushResult)
    requires Keyed(p) && Separate(p)
    ensures var one := RecordOne(coll, p, r);
            && (r.handle !in p.Domain() ==> one.writes == [] && one.pendings == p)
            && Within(one.writes, {r.handle} + (if r.assignedHandle.Some? then {r.assignedHandle.value} else {}))
            && one.pendings.Domain() <= p.Domain()
            && Keyed(one.pendings) && Separate(one.pendings) && Shrinks(one.pendings, p)
  {
    if r.outcome == Accepted {
      ForgetKeeps(p, {r.handle});
      RecordedWithin(coll, p, r);
      hide FlagOps, ContentOps, DropOps, CreateOps, Within, Keyed, Separate, Shrinks;
    }
  }

  lemma RecordedWithin(coll: CollectionId, p: Pendings, r: PushResult)
    requires Keyed(p)
    ensures var ops := FlagOps(p, r.handle) + ContentOps(p, r) + DropOps(coll, p, r.handle) + CreateOps(coll, p, r);
            && Within(ops, {r.handle} + (if r.assignedHandle.Some? then {r.assignedHandle.value} else {}))
            && (r.handle !in p.Domain() ==> ops == [] && p.Forget({r.handle}) == p)
  {
    var keys := {r.handle} + (if r.assignedHandle.Some? then {r.assignedHandle.value} else {});
    OpsWithin(coll, p, r, keys);
    NoneOwed(coll, p, r);
    hide FlagOps, ContentOps, DropOps, CreateOps, Keyed;
  }

  lemma OpsWithin(coll: CollectionId, p: Pendings, r: PushResult, keys: set<Handle>)
    requires Keyed(p) && r.handle in keys && (r.assignedHandle.Some? ==> r.assignedHandle.value in keys)
    ensures Within(FlagOps(p, r.handle), keys) && Within(ContentOps(p, r), keys)
    ensures Within(DropOps(coll, p, r.handle), keys) && Within(CreateOps(coll, p, r), keys)
  {
  }

  lemma NoneOwed(coll: CollectionId, p: Pendings, r: PushResult)
    ensures r.handle !in p.Domain() ==>
              && FlagOps(p, r.handle) == ContentOps(p, r) == DropOps(coll, p, r.handle) == CreateOps(coll, p, r) == []
              && p.Forget({r.handle}) == p
  {
  }

  /** A result about another handle leaves the holding row alone. */
  lemma RecordOtherHolds(coll: CollectionId, p: Pendings, r: PushResult, rows: Rows, k: Handle, h: Handle, body: Hash,
                         owner: map<Handle, Handle>)
    requires Keyed(p) && Separate(p) && HeldAt(rows, p, k, h, body, owner)
    requires FreshlyAssigned([r], owner) && (k == h ==> r.handle != h)
    ensures var one := RecordOne(coll, p, r);
            HeldAt(Apply(rows, one.writes), one.pendings, k, h, body, owner)
  {
    RecordWithin(coll, p, r);
    assert r in [r];
    if r.handle in p.Domain() {
      var keys := {r.handle} + (if r.assignedHandle.Some? then {r.assignedHandle.value} else {});
      assert k !in keys;
      ApplyOutside(rows, RecordOne(coll, p, r).writes, keys, k);
      if k == h { RecordKeepsOthers(coll, p, r, h, body); }
      hide RecordOne, Within, Keyed, PendingOn;
    }
  }

  lemma RecordKeepsOthers(coll: CollectionId, p: Pendings, r: PushResult, h: Handle, body: Hash)
    requires PendingOn(p, h, body)
    ensures PendingOn(RecordOne(coll, p, r).pendings, h, body)
  {
  }

  /** A result about the staging row itself settles it on the body, moves it to the handle its
    * create was assigned, or delivers it unnamed. */
  lemma RecordOwnHolds(coll: CollectionId, p: Pendings, r: PushResult, rows: Rows, h: Handle, body: Hash,
                       owner: map<Handle, Handle>)
    requires Keyed(p) && Separate(p) && HeldAt(rows, p, h, h, body, owner) && r.handle == h
    requires FreshlyAssigned([r], owner) && forall k :: k in owner ==> k !in p.Domain()
    ensures var one := RecordOne(coll, p, r);
            Held(Apply(rows, one.writes), one.pendings, h, body, owner) || (Unnamed(r, h) && Creating(p, h, body))
  {
    assert r in [r];
    var one := RecordOne(coll, p, r);
    if r.outcome == Accepted {
      ForgetKeeps(p, {h});
      assert h !in one.pendings.Domain();
      OwnSettles(coll, p, r, body);
      if h in p.creates {
        if r.assignedHandle.Some? {
          var a := r.assignedHandle.value;
          var drop := DropPlacement(coll, p.creates[h].handle, Superseded);
          var place := UpsertPlacement(PlacedRow(p.creates[h], a, r.revision));
          assert one.writes == [drop, place];
          ApplyTwo(rows, drop, place);
          assert HeldAt(Apply(rows, one.writes), one.pendings, a, h, body, owner);
        }
      } else {
        KeepingApplies(rows, one.writes, h, body);
        assert HeldAt(Apply(rows, one.writes), one.pendings, h, h, body, owner);
      }
    } else {
      assert HeldAt(Apply(rows, one.writes), one.pendings, h, h, body, owner);
    }
  }

  lemma OwnSettles(coll: CollectionId, p: Pendings, r: PushResult, body: Hash)
    requires Separate(p) && PendingOn(p, r.handle, body) && r.outcome == Accepted
    ensures var one := RecordOne(coll, p, r);
            && (r.handle !in p.creates ==> Keeping(one.writes, r.handle, body))
            && (r.handle in p.creates ==> one.writes == CreateWrites(coll, p.creates[r.handle], r))
  {
    var h := r.handle;
    if h in p.flags {
      assert RecordOne(coll, p, r).writes == FlagOps(p, h);
    } else if h in p.content {
      assert RecordOne(coll, p, r).writes == ContentOps(p, r);
    }
  }

  lemma RecordOneHolds(coll: CollectionId, p: Pendings, r: PushResult, rows: Rows, h: Handle, body: Hash,
                       owner: map<Handle, Handle>)
    requires Keyed(p) && Separate(p) && Held(rows, p, h, body, owner)
    requires FreshlyAssigned([r], owner) && forall k :: k in owner ==> k !in p.Domain()
    ensures var one := RecordOne(coll, p, r);
            Held(Apply(rows, one.writes), one.pendings, h, body, owner) || (Unnamed(r, h) && Creating(p, h, body))
  {
    var k :| HeldAt(rows, p, k, h, body, owner);
    hide RecordOne, HeldAt;
    if k == h && r.handle == h {
      RecordOwnHolds(coll, p, r, rows, h, body, owner);
    } else {
      RecordOtherHolds(coll, p, r, rows, k, h, body, owner);
    }
  }

  lemma {:induction false} RecordAllHolds(coll: CollectionId, p: Pendings, results: seq<PushResult>, rows: Rows,
                                          h: Handle, body: Hash, owner: map<Handle, Handle>)
    requires Keyed(p) && Separate(p) && Held(rows, p, h, body, owner)
    requires FreshlyAssigned(results, owner) && forall k :: k in owner ==> k !in p.Domain()
    ensures var all := RecordAll(coll, p, results);
            && Keyed(all.pendings) && Separate(all.pendings) && all.pendings.Domain() <= p.Domain()
            && Shrinks(all.pendings, p)
            && (|| Held(Apply(rows, all.writes), all.pendings, h, body, owner)
                || (Creating(p, h, body) && exists r :: r in results && Unnamed(r, h)))
    decreases |results|
  {
    if results != [] {
      var r := results[0];
      var one := RecordOne(coll, p, r);
      RecordWithin(coll, p, r);
      assert r in results;
      RecordOneHolds(coll, p, r, rows, h, body, owner);
      RecordAllUnfolds(coll, p, results);
      assert FreshlyAssigned(results[1..], owner);
      hide RecordOne, RecordAll, Held, Within, Keyed, Separate, FreshlyAssigned;
      var rest := RecordAll(coll, one.pendings, results[1..]);
      if Held(Apply(rows, one.writes), one.pendings, h, body, owner) {
        hide Shrinks, Creating, Unnamed;
        RecordAllHolds(coll, one.pendings, results[1..], Apply(rows, one.writes), h, body, owner);
        ApplyConcat(rows, one.writes, rest.writes);
        assert forall q :: q in results[1..] ==> q in results;
        ShrinksOn(rest.pendings, one.pendings, p, h, body);
      } else {
        RecordAllKeeps(coll, one.pendings, results[1..]);
      }
    }
  }

  lemma ShrinksOn(after: Pendings, between: Pendings, p: Pendings, h: Handle, body: Hash)
    requires Shrinks(after, between) && Shrinks(between, p)
    ensures Shrinks(after, p) && (Creating(between, h, body) ==> Creating(p, h, body))
  {
  }

  lemma {:induction false} RecordAllKeeps(coll: CollectionId, p: Pendings, results: seq<PushResult>)
    requires Keyed(p) && Separate(p)
    ensures var all := RecordAll(coll, p, results);
            Keyed(all.pendings) && Separate(all.pendings) && all.pendings.Domain() <= p.Domain()
            && Shrinks(all.pendings, p)
    decreases |results|
  {
    if results != [] {
      RecordWithin(coll, p, results[0]);
      RecordAllUnfolds(coll, p, results);
      hide RecordOne, RecordAll, Within, Keyed, Separate;
      RecordAllKeeps(coll, RecordOne(coll, p, results[0]).pendings, results[1..]);
    }
  }

  /** Some result of some chunk says the create landed with no handle named. */
  ghost predicate DeliveredUnnamed(answers: seq<seq<PushResult>>, h: Handle) {
    exists i, r :: 0 <= i < |answers| && r in answers[i] && Unnamed(r, h)
  }

  lemma LaterDelivers(answers: seq<seq<PushResult>>, h: Handle)
    ensures DeliveredUnnamed(Later(answers), h) ==> DeliveredUnnamed(answers, h)
  {
    if DeliveredUnnamed(Later(answers), h) {
      var i, r :| 0 <= i < |Later(answers)| && r in Later(answers)[i] && Unnamed(r, h);
      assert answers[i + 1] == Later(answers)[i];
    }
  }

  /** Some stored row points at the body. */
  ghost predicate Stored(rows: Rows, body: Hash) {
    exists k :: k in rows && rows[k].body == Some(body)
  }

  lemma HeldIsStored(rows: Rows, p: Pendings, h: Handle, body: Hash, owner: map<Handle, Handle>)
    ensures Held(rows, p, h, body, owner) ==> Stored(rows, body)
  {
    if Held(rows, p, h, body, owner) {
      var k :| HeldAt(rows, p, k, h, body, owner);
    }
  }

  /** Recording one chunk keeps the body held, or reports its create delivered unnamed. */
  lemma RecordChunkHolds(s: SyncState, results: seq<PushResult>, store: Rows, h: Handle, body: Hash,
                         owner: map<Handle, Handle>)
    requires Keyed(s.pendings) && Separate(s.pendings)
    requires Held(Apply(store, s.writes), s.pendings, h, body, owner)
    requires FreshlyAssigned(results, owner)
    requires forall k :: k in owner ==> k !in s.pendings.Domain()
    ensures var t := RecordChunk(s, results);
            && Keyed(t.pendings) && Separate(t.pendings)
            && t.pendings.Domain() <= s.pendings.Domain() && Shrinks(t.pendings, s.pendings)
            && (|| Held(Apply(store, t.writes), t.pendings, h, body, owner)
                || (Creating(s.pendings, h, body) && exists r :: r in results && Unnamed(r, h)))
  {
    var all := RecordAll(s.collection, s.pendings, results);
    RecordAllHolds(s.collection, s.pendings, results, Apply(store, s.writes), h, body, owner);
    ApplyConcat(store, s.writes, all.writes);
    var t := RecordChunk(s, results);
    assert t.writes == s.writes + all.writes;
    hide RecordAll;
    var flown := (set g | g in s.inFlight);
    ForgetKeeps(all.pendings, flown);
    if Held(Apply(store, t.writes), all.pendings, h, body, owner) {
      var k :| HeldAt(Apply(store, t.writes), all.pendings, k, h, body, owner);
      ForgetHolds(Apply(store, t.writes), all.pendings, flown, k, h, body, owner);
    }
  }

  lemma {:induction false} RecordRestHolds(s: SyncState, answers: seq<seq<PushResult>>, store: Rows, h: Handle,
                                           body: Hash, owner: map<Handle, Handle>)
    requires Keyed(s.pendings) && Separate(s.pendings)
    requires Held(Apply(store, s.writes), s.pendings, h, body, owner)
    requires forall i :: 0 <= i < |answers| ==> FreshlyAssigned(answers[i], owner)
    requires forall k :: k in owner ==> k !in s.pendings.Domain()
    ensures || Stored(Apply(store, RecordRest(s, answers).writes), body)
            || (Creating(s.pendings, h, body) && DeliveredUnnamed(answers, h))
    decreases |s.pushes|
  {
    if s.pushes == [] {
      HeldIsStored(Apply(store, s.writes), s.pendings, h, body, owner);
    } else {
      var results := Answer(answers);
      var t := RecordChunk(TakeChunk(s), results);
      RecordChunkHolds(TakeChunk(s), results, store, h, body, owner);
      assert |t.pushes| < |s.pushes|;
      assert RecordRest(s, answers) == RecordRest(t, Later(answers));
      hide RecordChunk;
      if Held(Apply(store, t.writes), t.pendings, h, body, owner) {
        LaterDelivers(answers, h);
        hide Held, DeliveredUnnamed, Keyed, Separate, Stored;
        RecordRestHolds(t, Later(answers), store, h, body, owner);
      } else {
        var r :| r in results && Unnamed(r, h);
        assert answers[0] == results;
      }
    }
  }

  lemma ForgetHolds(rows: Rows, p: Pendings, hs: set<Handle>, k: Handle, h: Handle, body: Hash,
                    owner: map<Handle, Handle>)
    requires Separate(p) && HeldAt(rows, p, k, h, body, owner) && Keyed(p)
    ensures HeldAt(rows, p.Forget(hs), k, h, body, owner) && Keyed(p.Forget(hs))
  {
    ForgetKeeps(p, hs);
  }

  /** The handles a run gives out are new: no server reassigns a handle of either side, and no
    * fork takes a stored, listed or assigned one, nor one another row's body would fork to. */
  ghost predicate FreshHandles(opts: Options, store: Rows, items: seq<RemoteItem>, answers: seq<seq<PushResult>>,
                               owner: map<Handle, Handle>)
  {
    && (forall i :: 0 <= i < |answers| ==> FreshlyAssigned(answers[i], owner))
    && (forall h :: h in store || ItemAt(items, h).Some? ==> h !in owner)
    && (opts.conflict == KeepBoth ==> forall h :: h in store && store[h].body.Some? ==> NewFork(store, items, owner, h))
  }

  ghost predicate NewFork(store: Rows, items: seq<RemoteItem>, owner: map<Handle, Handle>, h: Handle)
    requires h in store && store[h].body.Some?
  {
    var dup := DupHandle(h, store[h].body.value);
    && dup !in store && ItemAt(items, dup) == None && dup !in owner
    && forall g :: g in store && store[g].body.Some? && g != h ==> DupHandle(g, store[g].body.value) != dup
  }

  /** What the merge walks, seen from the storage it was loaded from. */
  lemma TodoFromStore(coll: CollectionId, opts: Options, listing: seq<Placement>, store: Rows,
                      cursor: Option<Checkpoint>, snapshot: Snapshot, c: Candidate)
    requires Lists(listing, store)
    ensures var cs := Todo(Opened(coll, opts, listing, cursor, snapshot).merging.value);
            && Ascending(cs)
            && (c in cs ==> Paired(c) && c.local == At(store, c.handle)
                            && (c.handle in store || ItemAt(snapshot.items, c.handle).Some?))
  {
    var merge := Opened(coll, opts, listing, cursor, snapshot).merging.value;
    assert merge.join == Join(Collect(listing), Normalise(snapshot.items));
    CollectIsOrderedMap(listing, c.handle);
    NormaliseIsOrderedMap(snapshot.items, c.handle);
    hide Opened, Collect, Normalise, Todo;
    TodoIsPaired(merge, c.handle);
    hide Walkable;
    assert RowAt(listing, c.handle) == At(store, c.handle);
    PairedFromStore(merge, c.handle);
    hide Pairing, Ascending, CandidateAt, Lists;
    if c in Todo(merge) {
      InAscending(Todo(merge), c);
    }
  }

  lemma PairedFromStore(merge: Merge, h: Handle)
    ensures Pairing(merge, h).Some? ==>
              && Paired(Pairing(merge, h).value) && Pairing(merge, h).value.local == RowAt(merge.join.local, h)
              && Pairing(merge, h).value.handle == h
              && (RowAt(merge.join.local, h).Some? || ItemAt(merge.join.remote, h).Some?)
  {
  }

  lemma InAscending(cs: seq<Candidate>, c: Candidate)
    requires Ascending(cs) && c in cs
    ensures CandidateAt(cs, c.handle) == Some(c)
  {
    var found := CandidateAt(cs, c.handle).value;
    var i :| 0 <= i < |cs| && cs[i] == c;
    var j :| 0 <= j < |cs| && cs[j] == found;
    LessIrreflexive(c.handle);
  }

  lemma StagingIsApart(coll: CollectionId, opts: Options, listing: seq<Placement>, store: Rows,
                       cursor: Option<Checkpoint>, snapshot: Snapshot, answers: seq<seq<PushResult>>,
                       owner: map<Handle, Handle>, h: Handle, body: Hash)
    requires Lists(listing, store) && FreshHandles(opts, store, snapshot.items, answers, owner)
    requires h in store && store[h].body == Some(body)
    ensures Apart(opts, Todo(Opened(coll, opts, listing, cursor, snapshot).merging.value), h, body, owner)
  {
    var cs := Todo(Opened(coll, opts, listing, cursor, snapshot).merging.value);
    forall c | c in cs
      ensures c.handle != h ==> h !in OwnKeys(opts, c)
      ensures opts.conflict == KeepBoth ==> c.handle != DupHandle(h, body)
      ensures opts.conflict == KeepBoth && c.handle != h ==> DupHandle(h, body) !in OwnKeys(opts, c)
    {
      TodoFromStore(coll, opts, listing, store, cursor, snapshot, c);
      hide Todo, Opened, FreshlyAssigned;
      if opts.conflict == KeepBoth {
        assert NewFork(store, snapshot.items, owner, h);
        if c.local.Some? && c.local.value.body.Some? {
          assert NewFork(store, snapshot.items, owner, c.handle);
        }
      }
    }
  }

  /** Where a merge opened from the storage leaves a staged body. */
  lemma MergedHolds(coll: CollectionId, opts: Options, listing: seq<Placement>, store: Rows, cursor: Option<Checkpoint>,
                    snapshot: Snapshot, answers: seq<seq<PushResult>>, owner: map<Handle, Handle>, h: Handle,
                    body: Hash)
    requires Lists(listing, store) && opts.conflict != PreferRemote
    requires FreshHandles(opts, store, snapshot.items, answers, owner)
    requires h in store && store[h].handle == h && Stages(store[h], body)
    ensures var s := Opened(coll, opts, listing, cursor, snapshot);
            var t := AbsorbAll(s, Todo(s.merging.value));
            && Keyed(t.pendings) && Separate(t.pendings) && CreatesSent(t.pendings, t.pushes)
            && Held(Apply(store, t.writes), t.pendings, h, body, owner)
            && (forall k :: k in owner ==> k !in t.pendings.Domain())
  {
    var s := Opened(coll, opts, listing, cursor, snapshot);
    var cs := Todo(s.merging.value);
    forall c | c in cs
      ensures Paired(c) && c.local == At(store, c.handle) && c.handle !in owner
    {
      TodoFromStore(coll, opts, listing, store, cursor, snapshot, c);
    }
    TodoFromStore(coll, opts, listing, store, cursor, snapshot, Candidate(h, None, None));
    StagingIsApart(coll, opts, listing, store, cursor, snapshot, answers, owner, h, body);
    assert s.writes == [] && s.pushes == [] && s.pendings == NO_PENDINGS && s.opts == opts;
    hide Todo, FreshHandles, Lists, Apart, Stages, Opened, AbsorbAll;
    MergeHolds(s, cs, store, store[h], body, owner);
    MergeKeepsKeyed(s, cs);
    MergeStaysSeparate(s, cs);
    MergeSendsCreates(s, cs);
  }

  /** Whatever a driver answers, a run under any policy but `PreferRemote` leaves every body staged
    * before it in some stored row, unless a create carrying it was accepted by a server that named
    * no handle for it. */
  lemma NoStagedBodyIsLost(coll: CollectionId, opts: Options, listing: seq<Placement>, store: Rows,
                           cursor: Option<Checkpoint>, snapshot: Snapshot, answers: seq<seq<PushResult>>,
                           owner: map<Handle, Handle>, h: Handle, body: Hash)
    requires Lists(listing, store) && opts.conflict != PreferRemote
    requires FreshHandles(opts, store, snapshot.items, answers, owner)
    requires h in store && store[h].handle == h && Stages(store[h], body)
    ensures var after := Apply(store, Ops(RunOf(coll, opts, listing, cursor, snapshot, answers).asked));
            || Stored(after, body)
            || (DeliveredUnnamed(answers, h)
                && exists k :: k in Sent(RunOf(coll, opts, listing, cursor, snapshot, answers).asked)
                               && k.Add? && k.handle == h && k.body == Some(body))
  {
    var s := Opened(coll, opts, listing, cursor, snapshot);
    var t := AbsorbAll(s, Todo(s.merging.value));
    RunIsUnbounded(coll, opts, listing, cursor, snapshot, answers);
    hide RunOf, Stages, FreshHandles, Lists, AbsorbAll, Opened, Todo;
    MergedHolds(coll, opts, listing, store, cursor, snapshot, answers, owner, h, body);
    RecordRestHolds(t, answers, store, h, body, owner);
    ApplyConcat(store, RecordRest(t, answers).writes, [SetCheckpoint(coll, snapshot.checkpoint)]);
    ApplyMark(Apply(store, RecordRest(t, answers).writes), coll, snapshot.checkpoint);
  }
}

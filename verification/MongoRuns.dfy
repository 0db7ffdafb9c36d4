/**
 Runs over the plain store of MongoSynk: one document per object, found by its `sub` field.

 Hypotheses, stated as `Enabled`: one process owns an object and resolves it only through Modify;
 an ID is not used again; a write and its publishes are one step.
 */
module MongoRuns {
  import opened Base
  import opened Objects
  import opened Mutations

  datatype Mongo = Mongo(
    owned: map<Id, Handle>,    // the objects in memory
    store: map<Id, Doc>,       // the collection
    retired: set<Id>,          // IDs of deleted objects
    published: seq<Wire>)

  const EMPTY := Mongo(map[], map[], {}, [])

  datatype Op =
    | Create(h: Handle, newId: Id, onCreate: seq<Edit>)
    | Change(id: Id, e: Edit)
    | Modify(id: Id)
    | Delete(id: Id)

  function CreatedId(h: Handle, newId: Id): Id {
    if h.tag.id == "" then newId else h.tag.id
  }

  predicate Enabled(m: Mongo, op: Op) {
    match op
    case Create(h, newId, onCreate) =>
      && Valid(h) && h.tag.typ in {"", TypeKey(h.kind)}
      && AllApplicable(h.kind, onCreate)
      && newId != ""
      && CreatedId(h, newId) !in m.store.Keys + m.retired
    case Change(id, e) => id in m.owned && Applicable(m.owned[id].kind, e) && !e.ResolveEdit?
    case Modify(id) => id in m.owned
    case Delete(id) => id in m.owned
  }

  function Target(op: Op): Id {
    match op
    case Create(h, newId, _) => CreatedId(h, newId)
    case Change(id, _) => id
    case Modify(id) => id
    case Delete(id) => id
  }

  /** What an operation publishes. */
  function Wires(m: Mongo, op: Op): seq<Wire>
    requires Enabled(m, op)
  {
    match op
    case Create(h, newId, onCreate) =>
      var r := CreateHandle(h, newId, onCreate);
      CreateWires(r, r.tag.sub)
    case Change(_, _) => []
    case Modify(id) => ModifyWires(m.owned[id])
    case Delete(id) => DeleteWires(m.owned[id])
  }

  function Put(m: Mongo, h: Handle): Mongo {
    m.(owned := m.owned[h.tag.id := h], store := m.store[h.tag.id := Stored(h)])
  }

  function Perform(m: Mongo, op: Op): Mongo
    requires Enabled(m, op)
  {
    var m' := match op
      case Create(h, newId, onCreate) => Put(m, CreateHandle(h, newId, onCreate))
      case Change(id, e) => m.(owned := m.owned[id := Do(m.owned[id], e)])
      case Modify(id) => Put(m, ModifyHandle(m.owned[id]))
      case Delete(id) => m.(owned := m.owned - {id}, store := m.store - {id}, retired := m.retired + {id});
    m'.(published := m.published + Wires(m, op))
  }

  ghost predicate EnabledRun(m: Mongo, ops: seq<Op>)
    decreases |ops|, 0
  {
    ops == [] || (EnabledRun(m, ops[..|ops| - 1]) && Enabled(PerformAll(m, ops[..|ops| - 1]), ops[|ops| - 1]))
  }

  ghost function PerformAll(m: Mongo, ops: seq<Op>): Mongo
    requires EnabledRun(m, ops)
    decreases |ops|, 1
  {
    if ops == [] then m else Perform(PerformAll(m, ops[..|ops| - 1]), ops[|ops| - 1])
  }

  // ----- The invariant -----

  /** Memory and store agree on the object, and its stored `sub` is its computed key. */
  ghost predicate ObjectInv(h: Handle, d: Doc, id: Id) {
    && Valid(h) && h.tag.id == id && h.tag.typ == TypeKey(h.kind)
    && d == Stored(h)
    && h.tag.sub == GetPrevSubKey(h)
  }

  ghost predicate Inv(m: Mongo) {
    && m.owned.Keys == m.store.Keys
    && m.retired !! m.store.Keys
    && forall id <- m.store :: ObjectInv(m.owned[id], m.store[id], id)
  }

  lemma {:induction false} DoAllTag(h: Handle, es: seq<Edit>)
    ensures DoAll(h, es).tag == h.tag.(v := DoAll(h, es).tag.v)
    ensures DoAll(h, es).kind == h.kind
  {
    if es != [] {
      DoAllTag(h, es[..|es| - 1]);
    }
  }

  lemma {:induction false} CreatedIsRight(h: Handle, newId: Id, onCreate: seq<Edit>)
    requires Valid(h) && h.tag.typ in {"", TypeKey(h.kind)} && AllApplicable(h.kind, onCreate)
    ensures var r := CreateHandle(h, newId, onCreate);
            && Valid(r) && r.kind == h.kind && r.pending == map[]
            && r.tag.id == CreatedId(h, newId) && r.tag.typ == TypeKey(h.kind)
            && r.tag.sub == GetPrevSubKey(r) == GetSubKey(r)
  {
    var t := TagInit(h, newId);
    DoAllTag(t, onCreate);
    DoAllValid(t, onCreate);
    ResolveValid(DoAll(t, onCreate));
  }

  lemma ModifiedIsRight(h: Handle)
    requires Valid(h) && h.tag.sub == GetPrevSubKey(h)
    ensures var r := ModifyHandle(h);
            && Valid(r) && r.kind == h.kind && r.pending == map[]
            && r.tag == h.tag.(v := h.tag.v + 1, sub := GetSubKey(h))
            && r.committed == Effective(h) && GetPrevSubKey(r) == GetSubKey(h)
  {
    ResolveValid(h);
  }

  lemma PutKeepsInv(m: Mongo, h: Handle)
    requires Inv(m) && h.tag.id !in m.retired && ObjectInv(h, Stored(h), h.tag.id)
    ensures Inv(Put(m, h))
  {}

  /** An edit short of Resolve changes nothing but the pending diff. */
  lemma UnresolvedKeepsStored(h: Handle, e: Edit)
    requires !e.ResolveEdit?
    ensures Do(h, e) == h.(pending := Do(h, e).pending)
    ensures Stored(Do(h, e)) == Stored(h) && GetPrevSubKey(Do(h, e)) == GetPrevSubKey(h)
  {}

  lemma ChangeKeepsInv(m: Mongo, id: Id, e: Edit)
    requires Inv(m) && Enabled(m, Change(id, e))
    ensures Inv(m.(owned := m.owned[id := Do(m.owned[id], e)]))
  {
    hide Valid, Do, KeyOf;
    assert ObjectInv(m.owned[id], m.store[id], id);
    DoValid(m.owned[id], e);
    UnresolvedKeepsStored(m.owned[id], e);
  }

  lemma {:induction false} PerformKeepsInv(m: Mongo, op: Op)
    requires Inv(m) && Enabled(m, op)
    ensures Inv(Perform(m, op))
  {
    match op
    case Create(h, newId, onCreate) =>
      CreatedIsRight(h, newId, onCreate);
      PutKeepsInv(m, CreateHandle(h, newId, onCreate));
    case Change(id, e) => ChangeKeepsInv(m, id, e);
    case Modify(id) =>
      assert ObjectInv(m.owned[id], m.store[id], id);
      ModifiedIsRight(m.owned[id]);
      PutKeepsInv(m, ModifyHandle(m.owned[id]));
    case Delete(id) =>
  }

  lemma {:induction false} RunKeepsInv(m: Mongo, ops: seq<Op>)
    requires Inv(m) && EnabledRun(m, ops)
    ensures Inv(PerformAll(m, ops))
  {
    if ops != [] {
      RunKeepsInv(m, ops[..|ops| - 1]);
      PerformKeepsInv(PerformAll(m, ops[..|ops| - 1]), ops[|ops| - 1]);
    }
  }

  // ----- Loading -----

  /** The documents whose `sub` field is among `keys`: the query of MongoSynk.Load. */
  function FoundBySub(store: map<Id, Doc>, keys: set<Key>): set<Id> {
    set id | id in store && store[id].tag.sub in keys
  }

  /** The documents whose fields put them under one of `keys`. */
  function FoundByKey(store: map<Id, Doc>, keys: set<Key>): set<Id> {
    set id | id in store && DocKey(store[id]) in keys
  }

  /** In every run, looking up the stored `sub` field finds exactly the objects with a matching key. */
  lemma {:induction false} StoredSubAgrees(ops: seq<Op>, keys: set<Key>)
    requires EnabledRun(EMPTY, ops)
    ensures var store := PerformAll(EMPTY, ops).store;
            FoundBySub(store, keys) == FoundByKey(store, keys)
  {
    RunKeepsInv(EMPTY, ops);
    var m := PerformAll(EMPTY, ops);
    assert forall id <- m.store :: ObjectInv(m.owned[id], m.store[id], id);
  }

  // ----- Versions -----

  /** Versions announced for an object, counting a move's two messages once. */
  function Versions(ws: seq<Wire>, id: Id): seq<nat> {
    if ws == [] then [] else
    var w := ws[|ws| - 1];
    Versions(ws[..|ws| - 1], id) +
    if w.msg.id == id && w.from.None? && !w.msg.Rem? then [w.msg.version] else []
  }

  ghost predicate Consecutive(s: seq<nat>) {
    forall i :: 0 < i < |s| ==> s[i] == s[i - 1] + 1
  }

  /** Announced versions never skip, and the last one is the stored object's. */
  ghost predicate VersionsRight(m: Mongo, id: Id) {
    var vs := Versions(m.published, id);
    && Consecutive(vs)
    && (id in m.store ==> vs != [] && vs[|vs| - 1] == m.store[id].tag.v)
    && (vs != [] ==> id in m.store.Keys + m.retired)
  }

  ghost predicate VersionInv(m: Mongo) {
    forall id :: VersionsRight(m, id)
  }

  lemma {:induction false} VersionsAppend(a: seq<Wire>, b: seq<Wire>, id: Id)
    ensures Versions(a + b, id) == Versions(a, id) + Versions(b, id)
  {
    if b == [] {
      assert a + b == a;
    } else {
      VersionsAppend(a, b[..|b| - 1], id);
      assert (a + b)[..|a + b| - 1] == a + b[..|b| - 1];
    }
  }

  lemma {:induction false} OneVersion(w: Wire, id: Id)
    ensures Versions([w], id) == if w.msg.id == id && w.from.None? && !w.msg.Rem? then [w.msg.version] else []
  {
    assert [w][..0] == [];
  }

  lemma {:induction false} ModifyVersions(h: Handle, id: Id)
    ensures Versions(ModifyWires(h), id) == if id == h.tag.id then [h.tag.v + 1] else []
  {
    hide KeyOf;
    var ws := ModifyWires(h);
    OneVersion(ws[0], id);
    if |ws| == 2 {
      OneVersion(ws[1], id);
      VersionsAppend([ws[0]], [ws[1]], id);
      assert ws == [ws[0]] + [ws[1]];
    } else {
      assert ws == [ws[0]];
    }
  }

  /** The version of the object after a Create or a Modify. */
  function Announced(m: Mongo, op: Op): nat
    requires Enabled(m, op) && (op.Create? || op.Modify?)
  {
    if op.Create? then CreateHandle(op.h, op.newId, op.onCreate).tag.v else m.owned[op.id].tag.v + 1
  }

  lemma {:induction false} WiresVersions(m: Mongo, op: Op, id: Id)
    requires Inv(m) && Enabled(m, op)
    ensures Versions(Wires(m, op), id) ==
            if id == Target(op) && (op.Create? || op.Modify?) then [Announced(m, op)] else []
  {
    hide KeyOf, DoAll, Versions, Valid;
    match op
    case Create(h, newId, onCreate) =>
      CreatedIsRight(h, newId, onCreate);
      OneVersion(Wires(m, op)[0], id);
    case Change(_, _) => NoVersions(id);
    case Modify(i) =>
      assert ObjectInv(m.owned[i], m.store[i], i);
      ModifyVersions(m.owned[i], id);
    case Delete(i) => OneVersion(Wires(m, op)[0], id);
  }

  lemma NoVersions(id: Id)
    ensures Versions([], id) == []
  {}

  lemma StoredVersion(m: Mongo, op: Op, id: Id)
    requires Inv(m) && Enabled(m, op)
    ensures var m' := Perform(m, op);
            && (id != Target(op) || op.Change? ==>
                  (id in m'.store <==> id in m.store) && (id in m.store ==> m'.store[id] == m.store[id]))
            && (id == Target(op) && op.Delete? ==> id !in m'.store)
            && (id == Target(op) && (op.Create? || op.Modify?) ==>
                  id in m'.store && m'.store[id].tag.v == Announced(m, op))
            && (id == Target(op) && op.Modify? ==>
                  id in m.store && Announced(m, op) == m.store[id].tag.v + 1)
            && (id == Target(op) && op.Create? ==> id !in m.store.Keys + m.retired)
            && m'.store.Keys + m'.retired == m.store.Keys + m.retired + if op.Create? then {Target(op)} else {}
  {
    match op
    case Create(h, newId, onCreate) => CreatedIsRight(h, newId, onCreate);
    case Change(_, _) =>
    case Modify(i) => assert ObjectInv(m.owned[i], m.store[i], i);
    case Delete(_) =>
  }

  lemma PublishedGrows(m: Mongo, op: Op)
    requires Enabled(m, op)
    ensures Perform(m, op).published == m.published + Wires(m, op)
  {}

  lemma {:induction false} PerformKeepsVersionsOf(m: Mongo, op: Op, id: Id)
    requires Inv(m) && VersionsRight(m, id) && Enabled(m, op)
    ensures VersionsRight(Perform(m, op), id)
  {
    hide Perform, Wires, Versions, Announced, Enabled, Inv;
    PublishedGrows(m, op);
    WiresVersions(m, op, id);
    VersionsAppend(m.published, Wires(m, op), id);
    StoredVersion(m, op, id);
  }

  lemma PerformKeepsVersions(m: Mongo, op: Op)
    requires Inv(m) && VersionInv(m) && Enabled(m, op)
    ensures VersionInv(Perform(m, op))
  {
    hide VersionsRight, Perform, Enabled, Inv;
    forall id
      ensures VersionsRight(Perform(m, op), id)
    {
      PerformKeepsVersionsOf(m, op, id);
    }
  }

  /** In every run, the versions announced for any one object are consecutive, up to the stored one. */
  lemma {:induction false} PublishedVersionsConsecutive(ops: seq<Op>)
    requires EnabledRun(EMPTY, ops)
    ensures VersionInv(PerformAll(EMPTY, ops))
  {
    if ops == [] {
      assert forall id :: VersionsRight(EMPTY, id);
    } else {
      var init := ops[..|ops| - 1];
      PublishedVersionsConsecutive(init);
      RunKeepsInv(EMPTY, init);
      PerformKeepsVersions(PerformAll(EMPTY, init), ops[|ops| - 1]);
    }
  }

  // ----- Addresses -----

  /**
   A message names the channel it is published on. After a move, the add follows the mod of the same
   object and version at once; the mod names the add's channel, and the add's header the mod's.
   */
  ghost predicate Addressed(ws: seq<Wire>, i: nat)
    requires i < |ws|
  {
    var w := ws[i];
    && w.channel == w.msg.sKey
    && (w.msg.Add? ==> w.msg.psKey == if w.from.Some? then OmitEmpty(w.from.value) else None)
    && (w.from.Some? ==>
          && w.msg.Add? && i > 0
          && var v := ws[i - 1];
          && v.msg.Mod? && v.from.None? && v.msg.id == w.msg.id && v.msg.version == w.msg.version
          && v.channel == w.from.value && v.msg.nsKey == OmitEmpty(w.channel))
  }

  lemma WiresAddressed(m: Mongo, op: Op, i: nat)
    requires Enabled(m, op) && i < |Wires(m, op)|
    ensures Addressed(Wires(m, op), i)
  {
    hide KeyOf, Valid, DoAll;
  }

  lemma {:induction false} PublishedAddressed(ops: seq<Op>, i: nat)
    requires EnabledRun(EMPTY, ops) && i < |PerformAll(EMPTY, ops).published|
    ensures Addressed(PerformAll(EMPTY, ops).published, i)
  {
    if ops != [] {
      hide Wires, Perform, Enabled;
      var m, op := PerformAll(EMPTY, ops[..|ops| - 1]), ops[|ops| - 1];
      PublishedGrows(m, op);
      if i < |m.published| {
        PublishedAddressed(ops[..|ops| - 1], i);
      } else {
        WiresAddressed(m, op, i - |m.published|);
      }
    }
  }

  // ----- What is announced, said of the documents -----

  /**
   What a step publishes is what its documents before and after it say, under their stored `sub` and with
   their stored type: a created or moved object in full, a modified one as a diff between its two states, a
   deleted one as it was stored. A key tagged `omitempty` is left out when it is "".
   */
  ghost predicate Announces(before: map<Id, Doc>, after: map<Id, Doc>, op: Op, ws: seq<Wire>) {
    var id := Target(op);
    match op
    case Create(_, _, _) =>
      id in after &&
      var b := after[id];
      ws == [Wire(b.tag.sub, None, Add(id, b.state, b.tag.sub, None, b.tag.v, b.tag.typ))]
    case Change(_, _) => ws == []
    case Modify(_) =>
      id in before && id in after &&
      var a, b := before[id], after[id];
      && |ws| >= 1 && ws[0].msg.Mod?
      && ws[0] == Wire(a.tag.sub, None, Mod(id, ws[0].msg.diff, a.tag.sub,
                                            if b.tag.sub in {a.tag.sub, ""} then None else Some(b.tag.sub), b.tag.v))
      && a.state + ws[0].msg.diff == b.state && b.tag.v == a.tag.v + 1
      && ws[1..] == if b.tag.sub == a.tag.sub then [] else
           [Wire(b.tag.sub, Some(a.tag.sub), Add(id, b.state, b.tag.sub,
                                                 if a.tag.sub == "" then None else Some(a.tag.sub), b.tag.v, b.tag.typ))]
    case Delete(_) =>
      id in before &&
      var a := before[id];
      ws == [Wire(a.tag.sub, None, Rem(id, a.tag.sub, a.tag.typ))]
  }

  lemma {:induction false} WiresAnnounce(m: Mongo, op: Op)
    requires Inv(m) && Enabled(m, op)
    ensures Announces(m.store, Perform(m, op).store, op, Wires(m, op))
  {
    hide KeyOf, Valid, DoAll, Do;
    match op
    case Create(h, newId, onCreate) => CreatedIsRight(h, newId, onCreate);
    case Change(_, _) =>
    case Modify(id) =>
      assert ObjectInv(m.owned[id], m.store[id], id);
      ModifiedIsRight(m.owned[id]);
    case Delete(id) => assert ObjectInv(m.owned[id], m.store[id], id);
  }

  /** In every run, each step appends to what is published exactly what its documents say. */
  lemma {:induction false} EveryStepAnnounces(ops: seq<Op>, op: Op)
    requires EnabledRun(EMPTY, ops) && Enabled(PerformAll(EMPTY, ops), op)
    ensures var m, m' := PerformAll(EMPTY, ops), Perform(PerformAll(EMPTY, ops), op);
            && m.published <= m'.published
            && Announces(m.store, m'.store, op, m'.published[|m.published|..])
  {
    RunKeepsInv(EMPTY, ops);
    WiresAnnounce(PerformAll(EMPTY, ops), op);
    PublishedGrows(PerformAll(EMPTY, ops), op);
  }

  /** Whether Init ran on the object since it was last created or modified. */
  predicate InitDue(ops: seq<Op>, id: Id) {
    ops != [] &&
    var op := ops[|ops| - 1];
    if Target(op) == id && op.Change? && op.e.InitEdit? then true
    else if Target(op) == id && (op.Create? || op.Modify?) then false
    else InitDue(ops[..|ops| - 1], id)
  }

  lemma {:induction false} StepStaysMinimal(m: Mongo, op: Op, id: Id)
    requires Inv(m) && Enabled(m, op) && id in Perform(m, op).owned
    requires !(Target(op) == id && op.Change? && op.e.InitEdit?)
    requires (Target(op) == id && (op.Create? || op.Modify?)) || (id in m.owned ==> Minimal(m.owned[id]))
    ensures Minimal(Perform(m, op).owned[id])
  {
    hide KeyOf, Valid, DoAll;
    match op
    case Create(h, newId, onCreate) => CreatedIsRight(h, newId, onCreate);
    case Change(_, _) =>
    case Modify(i) =>
      assert ObjectInv(m.owned[i], m.store[i], i);
      ModifiedIsRight(m.owned[i]);
    case Delete(_) =>
  }

  lemma {:induction false} MinimalUnlessInit(ops: seq<Op>, id: Id)
    requires EnabledRun(EMPTY, ops) && id in PerformAll(EMPTY, ops).owned && !InitDue(ops, id)
    ensures Minimal(PerformAll(EMPTY, ops).owned[id])
  {
    if ops != [] {
      hide Perform, Enabled, Minimal, Inv;
      var init, op := ops[..|ops| - 1], ops[|ops| - 1];
      RunKeepsInv(EMPTY, init);
      if !(Target(op) == id && (op.Create? || op.Modify?)) && id in PerformAll(EMPTY, init).owned {
        MinimalUnlessInit(init, id);
      }
      StepStaysMinimal(PerformAll(EMPTY, init), op, id);
    }
  }

  /** The fields in which two states differ, as the second has them. */
  function ChangedFields(a: State, b: State): State {
    map f | f in b && !(f in a && a[f] == b[f]) :: b[f]
  }

  /**
   In every run, unless Init ran on the object since its last Modify, the diff a Modify publishes has exactly
   the fields in which the stored object changes, at their new values: a field set back is not in it.
   */
  lemma {:induction false} PublishedDiffIsExact(ops: seq<Op>, id: Id)
    requires EnabledRun(EMPTY, ops) && id in PerformAll(EMPTY, ops).owned && !InitDue(ops, id)
    ensures var m, m' := PerformAll(EMPTY, ops), Perform(PerformAll(EMPTY, ops), Modify(id));
            && id in m.store && id in m'.store && |m'.published| > |m.published|
            && m'.published[|m.published|].msg.Mod?
            && m'.published[|m.published|].msg.diff == ChangedFields(m.store[id].state, m'.store[id].state)
  {
    hide KeyOf, Valid;
    RunKeepsInv(EMPTY, ops);
    MinimalUnlessInit(ops, id);
    var m := PerformAll(EMPTY, ops);
    var h := m.owned[id];
    assert ObjectInv(h, m.store[id], id);
    MinimalIsDifference(h);
    ModifiedIsRight(h);
    assert h.pending == ChangedFields(h.committed, Effective(h));
  }
}

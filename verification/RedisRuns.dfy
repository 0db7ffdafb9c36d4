/**
 Runs over the indexed store of RedisSynk: a map from Redis key to object, and per subscription key the
 set of Redis keys of its objects.

 The operations are those of MongoRuns. `Enabled` asks in addition for what the code relies on: an
 object comes to Create with its ID set, without `:`, and OnCreate leaves its subscription key alone.
 */
module RedisRuns {
  import opened Base
  import opened Objects
  import opened Mutations
  import opened RedisKeys
  import M = MongoRuns

  type Sets = map<Key, set<string>>

  datatype Redis = Redis(
    owned: map<Id, Handle>,
    sets: Sets,
    objs: map<string, Doc>,
    retired: set<Id>,
    published: seq<Wire>)

  const EMPTY := Redis(map[], map[], map[], {}, [])

  function Members(sets: Sets, key: Key): set<string> {
    if key in sets then sets[key] else {}
  }

  function SAdd(sets: Sets, key: Key, member: string): Sets {
    sets[key := Members(sets, key) + {member}]
  }

  /** Redis drops a set when its last member goes. */
  function SRem(sets: Sets, key: Key, member: string): Sets {
    var rest := Members(sets, key) - {member};
    if rest == {} then sets - {key} else sets[key := rest]
  }

  function Union(sets: Sets, keys: seq<Key>): set<string> {
    set k, member | k in keys && member in Members(sets, k) :: member
  }

  /** Whether a kind's JSON keeps the tag: Human's field is tagged `json:"-"`. */
  predicate KeepsTag(kind: Kind) {
    kind.Orc?
  }

  const NO_TAG := Tag("", "", "", 0)

  /** The JSON stored for an object, as it decodes. */
  function Encoded(h: Handle): Doc {
    Doc(h.kind, if KeepsTag(h.kind) then h.tag else NO_TAG, h.committed)
  }

  function KeyFor(h: Handle): string {
    RedisKey(TypeKey(h.kind), h.tag.id)
  }

  // ----- The three mutations -----

  /** Sets the object unless its key is taken, indexes it and announces it (the script in RedisScripts.go). */
  function SetAndPublish(r: Redis, rk: string, subKey: Key, h: Handle): Redis {
    if rk in r.objs then r else
    r.(objs := r.objs[rk := Encoded(h)],
       sets := SAdd(r.sets, subKey, rk),
       published := r.published + CreateWires(h, subKey))
  }

  /** Both keys are computed before TagInit and OnCreate run. */
  function StoreNew(r: Redis, h: Handle, newId: Id, onCreate: seq<Edit>): Redis {
    SetAndPublish(r, KeyFor(h), GetSubKey(h), CreateHandle(h, newId, onCreate))
  }

  function StoreModified(r: Redis, h: Handle): Redis {
    var rk, psk, nsk := KeyFor(h), GetPrevSubKey(h), GetSubKey(h);
    r.(sets := SAdd(if Simple(h) then r.sets else SRem(r.sets, psk, rk), nsk, rk),
       objs := r.objs[rk := Encoded(Resolve(h))],
       published := r.published + ModifyWires(h))
  }

  function StoreDeleted(r: Redis, h: Handle): Redis {
    r.(sets := SRem(r.sets, GetPrevSubKey(h), KeyFor(h)),
       objs := r.objs - {KeyFor(h)},
       published := r.published + DeleteWires(h))
  }

  // ----- Runs -----

  /** OnCreate leaves the subscription key alone. */
  predicate KeepsKey(h: Handle, newId: Id, onCreate: seq<Edit>) {
    GetSubKey(CreateHandle(h, newId, onCreate)) == GetSubKey(h)
  }

  predicate CreateOk(op: M.Op) {
    op.Create? ==> op.h.tag.id != "" && ':' !in op.h.tag.id && KeepsKey(op.h, op.newId, op.onCreate)
  }

  predicate Enabled(r: Redis, op: M.Op) {
    && CreateOk(op)
    && match op
       case Create(h, newId, onCreate) =>
         && Valid(h) && h.tag.typ in {"", TypeKey(h.kind)} && AllApplicable(h.kind, onCreate)
         && h.tag.id !in r.owned.Keys + r.retired
       case Change(id, e) => id in r.owned && Applicable(r.owned[id].kind, e) && !e.ResolveEdit?
       case Modify(id) => id in r.owned
       case Delete(id) => id in r.owned
  }

  function Perform(r: Redis, op: M.Op): Redis
    requires Enabled(r, op)
  {
    match op
    case Create(h, newId, onCreate) =>
      StoreNew(r, h, newId, onCreate).(owned := r.owned[h.tag.id := CreateHandle(h, newId, onCreate)])
    case Change(id, e) => r.(owned := r.owned[id := Do(r.owned[id], e)])
    case Modify(id) => StoreModified(r, r.owned[id]).(owned := r.owned[id := Resolve(r.owned[id])])
    case Delete(id) =>
      StoreDeleted(r, r.owned[id]).(owned := r.owned - {id}, retired := r.retired + {id})
  }

  ghost predicate EnabledRun(r: Redis, ops: seq<M.Op>)
    decreases |ops|, 0
  {
    ops == [] || (EnabledRun(r, ops[..|ops| - 1]) && Enabled(PerformAll(r, ops[..|ops| - 1]), ops[|ops| - 1]))
  }

  ghost function PerformAll(r: Redis, ops: seq<M.Op>): Redis
    requires EnabledRun(r, ops)
    decreases |ops|, 1
  {
    if ops == [] then r else Perform(PerformAll(r, ops[..|ops| - 1]), ops[|ops| - 1])
  }

  // ----- The invariant -----

  ghost predicate ObjectInv(objs: map<string, Doc>, h: Handle, id: Id) {
    && Valid(h) && h.tag.id == id && h.tag.typ == TypeKey(h.kind)
    && id != "" && ':' !in id
    && KeyFor(h) in objs && objs[KeyFor(h)] == Encoded(h)
  }

  /** A key's set holds exactly the stored objects whose committed key it is. */
  ghost predicate Indexed(sets: Sets, objs: map<string, Doc>) {
    forall k, rk :: rk in Members(sets, k) <==> rk in objs && DocKey(objs[rk]) == k
  }

  ghost predicate Inv(r: Redis) {
    && r.retired !! r.owned.Keys
    && (forall id <- r.owned :: ObjectInv(r.objs, r.owned[id], id))
    && (forall rk <- r.objs :: exists id :: id in r.owned && KeyFor(r.owned[id]) == rk)
    && Indexed(r.sets, r.objs)
  }

  lemma AddIndexes(sets: Sets, objs: map<string, Doc>, rk: string, d: Doc)
    requires Indexed(sets, objs) && (rk in objs ==> DocKey(objs[rk]) == DocKey(d))
    ensures Indexed(SAdd(sets, DocKey(d), rk), objs[rk := d])
  {
    hide DocKey;
    var sets', objs' := SAdd(sets, DocKey(d), rk), objs[rk := d];
    forall k, x
      ensures x in Members(sets', k) <==> x in objs' && DocKey(objs'[x]) == k
    {
      assert x in Members(sets, k) <==> x in objs && DocKey(objs[x]) == k;
    }
  }

  lemma RemoveIndexes(sets: Sets, objs: map<string, Doc>, rk: string)
    requires Indexed(sets, objs) && rk in objs
    ensures Indexed(SRem(sets, DocKey(objs[rk]), rk), objs - {rk})
  {
    hide DocKey;
    var sets' := SRem(sets, DocKey(objs[rk]), rk);
    forall k, x
      ensures x in Members(sets', k) <==> x in objs - {rk} && DocKey(objs[x]) == k
    {
      assert x in Members(sets, k) <==> x in objs && DocKey(objs[x]) == k;
    }
  }

  lemma PutKeepsInv(r: Redis, h: Handle, sets: Sets)
    requires Inv(r) && h.tag.id !in r.retired
    requires Valid(h) && h.tag.typ == TypeKey(h.kind) && h.tag.id != "" && ':' !in h.tag.id
    requires h.tag.id in r.owned ==> KeyFor(r.owned[h.tag.id]) == KeyFor(h)
    requires Indexed(sets, r.objs[KeyFor(h) := Encoded(h)])
    ensures Inv(r.(owned := r.owned[h.tag.id := h], objs := r.objs[KeyFor(h) := Encoded(h)], sets := sets))
  {
    hide Valid, DocKey, Indexed, RedisKey;
    var r' := r.(owned := r.owned[h.tag.id := h], objs := r.objs[KeyFor(h) := Encoded(h)], sets := sets);
    forall id <- r'.owned
      ensures ObjectInv(r'.objs, r'.owned[id], id)
    {
      if id != h.tag.id {
        assert ObjectInv(r.objs, r.owned[id], id);
        KeyInjective(TypeKey(h.kind), h.tag.id, TypeKey(r.owned[id].kind), id);
      }
    }
    forall rk <- r'.objs
      ensures exists id :: id in r'.owned && KeyFor(r'.owned[id]) == rk
    {
      if rk == KeyFor(h) {
        assert KeyFor(r'.owned[h.tag.id]) == rk;
      } else {
        var id :| id in r.owned && KeyFor(r.owned[id]) == rk;
        assert KeyFor(r'.owned[id]) == rk;
      }
    }
  }

  /** A created object is announced and indexed under the key it is committed with. */
  lemma CreatedForRedis(h: Handle, newId: Id, onCreate: seq<Edit>)
    requires Valid(h) && h.tag.typ in {"", TypeKey(h.kind)} && AllApplicable(h.kind, onCreate)
    requires h.tag.id != "" && KeepsKey(h, newId, onCreate)
    ensures var g := CreateHandle(h, newId, onCreate);
            && Valid(g) && g.tag.id == h.tag.id && g.tag.typ == TypeKey(g.kind) && g.kind == h.kind
            && KeyFor(g) == KeyFor(h) && DocKey(Encoded(g)) == GetSubKey(h) == GetPrevSubKey(g) == g.tag.sub
  {
    hide KeyOf, Valid, DoAll;
    M.CreatedIsRight(h, newId, onCreate);
  }

  lemma {:induction false} CreateKeepsInv(r: Redis, h: Handle, newId: Id, onCreate: seq<Edit>)
    requires Inv(r) && Enabled(r, M.Create(h, newId, onCreate))
    ensures KeyFor(h) !in r.objs
    ensures Inv(Perform(r, M.Create(h, newId, onCreate)))
  {
    hide KeyOf, Valid, DoAll, Indexed;
    CreatedForRedis(h, newId, onCreate);
    var g := CreateHandle(h, newId, onCreate);
    if KeyFor(h) in r.objs {
      var id :| id in r.owned && KeyFor(r.owned[id]) == KeyFor(h);
      assert ObjectInv(r.objs, r.owned[id], id);
      KeyInjective(TypeKey(h.kind), h.tag.id, TypeKey(r.owned[id].kind), id);
      assert false;
    }
    AddIndexes(r.sets, r.objs, KeyFor(g), Encoded(g));
    PutKeepsInv(r, g, SAdd(r.sets, GetSubKey(h), KeyFor(g)));
  }

  lemma ModifyKeepsIndexed(r: Redis, h: Handle)
    requires Indexed(r.sets, r.objs) && KeyFor(h) in r.objs && r.objs[KeyFor(h)] == Encoded(h)
    ensures Indexed(StoreModified(r, h).sets, StoreModified(r, h).objs)
  {
    hide KeyOf, Indexed, Simple, SAdd, SRem, RedisKey;
    var rk, d := KeyFor(h), Encoded(Resolve(h));
    assert DocKey(d) == GetSubKey(h) && DocKey(Encoded(h)) == GetPrevSubKey(h);
    if Simple(h) {
      SimpleMeans(h);
      AddIndexes(r.sets, r.objs, rk, d);
    } else {
      RemoveIndexes(r.sets, r.objs, rk);
      AddIndexes(SRem(r.sets, GetPrevSubKey(h), rk), r.objs - {rk}, rk, d);
      assert (r.objs - {rk})[rk := d] == r.objs[rk := d];
    }
  }

  lemma SimpleMeans(h: Handle)
    requires Simple(h)
    ensures GetSubKey(h) == GetPrevSubKey(h)
  {}

  lemma {:induction false} ModifyKeepsInv(r: Redis, id: Id)
    requires Inv(r) && id in r.owned
    ensures Inv(Perform(r, M.Modify(id)))
  {
    hide KeyOf, Valid, Indexed, Simple;
    var h := r.owned[id];
    assert ObjectInv(r.objs, h, id);
    ResolveValid(h);
    ModifyKeepsIndexed(r, h);
    PutKeepsInv(r, Resolve(h), StoreModified(r, h).sets);
  }

  lemma KeysApart(r: Redis, i: Id, j: Id)
    requires Inv(r) && i in r.owned && j in r.owned && i != j
    ensures KeyFor(r.owned[i]) != KeyFor(r.owned[j])
  {
    assert ObjectInv(r.objs, r.owned[i], i) && ObjectInv(r.objs, r.owned[j], j);
    KeyInjective(TypeKey(r.owned[i].kind), i, TypeKey(r.owned[j].kind), j);
  }

  /** Also with a move pending: the object is unindexed from, and announced under, its committed key. */
  lemma {:induction false} DeleteKeepsInv(r: Redis, id: Id)
    requires Inv(r) && id in r.owned
    ensures Inv(Perform(r, M.Delete(id)))
  {
    hide KeyOf, Valid, Indexed, SRem, KeyFor;
    var h := r.owned[id];
    assert ObjectInv(r.objs, h, id);
    RemoveIndexes(r.sets, r.objs, KeyFor(h));
    var r' := Perform(r, M.Delete(id));
    forall i <- r'.owned
      ensures ObjectInv(r'.objs, r'.owned[i], i)
    {
      assert ObjectInv(r.objs, r.owned[i], i);
      KeysApart(r, i, id);
    }
    forall rk <- r'.objs
      ensures exists i :: i in r'.owned && KeyFor(r'.owned[i]) == rk
    {
      var i :| i in r.owned && KeyFor(r.owned[i]) == rk;
      assert i in r'.owned && KeyFor(r'.owned[i]) == rk;
    }
  }

  lemma ChangedObjectInv(objs: map<string, Doc>, h: Handle, id: Id, e: Edit)
    requires ObjectInv(objs, h, id) && Applicable(h.kind, e) && !e.ResolveEdit?
    ensures ObjectInv(objs, Do(h, e), id) && KeyFor(Do(h, e)) == KeyFor(h)
  {
    hide KeyOf, Valid, Do, RedisKey;
    DoValid(h, e);
    M.UnresolvedKeepsStored(h, e);
  }

  lemma {:induction false} ChangeKeepsInv(r: Redis, id: Id, e: Edit)
    requires Inv(r) && Enabled(r, M.Change(id, e))
    ensures Inv(Perform(r, M.Change(id, e)))
  {
    hide ObjectInv, KeyFor, Indexed, Do;
    ChangedObjectInv(r.objs, r.owned[id], id, e);
    var r' := Perform(r, M.Change(id, e));
    forall rk <- r'.objs
      ensures exists i :: i in r'.owned && KeyFor(r'.owned[i]) == rk
    {
      var i :| i in r.owned && KeyFor(r.owned[i]) == rk;
      assert i in r'.owned && KeyFor(r'.owned[i]) == rk;
    }
  }

  lemma {:induction false} PerformKeepsInv(r: Redis, op: M.Op)
    requires Inv(r) && Enabled(r, op)
    ensures Inv(Perform(r, op))
  {
    hide Inv, Perform;
    match op
    case Create(h, newId, onCreate) => CreateKeepsInv(r, h, newId, onCreate);
    case Change(id, e) => ChangeKeepsInv(r, id, e);
    case Modify(id) => ModifyKeepsInv(r, id);
    case Delete(id) => DeleteKeepsInv(r, id);
  }

  lemma {:induction false} RunKeepsInv(r: Redis, ops: seq<M.Op>)
    requires Inv(r) && EnabledRun(r, ops)
    ensures Inv(PerformAll(r, ops))
  {
    if ops != [] {
      RunKeepsInv(r, ops[..|ops| - 1]);
      PerformKeepsInv(PerformAll(r, ops[..|ops| - 1]), ops[|ops| - 1]);
    }
  }

  // ----- Loading -----

  /**
   In every run, the union of the sets of any keys, repeated or not, names exactly the stored objects
   whose committed key is among them: every member has an object, and a full scan finds no other.
   */
  lemma {:induction false} IndexAgrees(ops: seq<M.Op>, keys: seq<Key>)
    requires EnabledRun(EMPTY, ops)
    ensures var r := PerformAll(EMPTY, ops);
            Union(r.sets, keys) == set rk | rk in r.objs && DocKey(r.objs[rk]) in keys
  {
    assert Inv(EMPTY);
    RunKeepsInv(EMPTY, ops);
    UnionIsScan(PerformAll(EMPTY, ops), keys);
  }

  lemma UnionIsScan(r: Redis, keys: seq<Key>)
    requires Indexed(r.sets, r.objs)
    ensures Union(r.sets, keys) == set rk | rk in r.objs && DocKey(r.objs[rk]) in keys
  {
    hide DocKey;
    forall rk
      ensures rk in Union(r.sets, keys) <==> rk in r.objs && DocKey(r.objs[rk]) in keys
    {
      if rk in r.objs && DocKey(r.objs[rk]) in keys {
        assert rk in Members(r.sets, DocKey(r.objs[rk]));
      }
    }
  }

  /** No empty set is kept. */
  ghost predicate NoEmptySets(sets: Sets) {
    forall k <- sets :: sets[k] != {}
  }

  lemma {:induction false} StepKeepsNoEmptySets(r: Redis, op: M.Op)
    requires Enabled(r, op) && NoEmptySets(r.sets)
    ensures NoEmptySets(Perform(r, op).sets)
  {
    hide KeyOf, Valid, DoAll, Do, RedisKey, CreateHandle, Simple;
  }

  lemma {:induction false} RunKeepsNoEmptySets(ops: seq<M.Op>)
    requires EnabledRun(EMPTY, ops)
    ensures NoEmptySets(PerformAll(EMPTY, ops).sets)
  {
    if ops != [] {
      hide Perform, Enabled;
      RunKeepsNoEmptySets(ops[..|ops| - 1]);
      StepKeepsNoEmptySets(PerformAll(EMPTY, ops[..|ops| - 1]), ops[|ops| - 1]);
    }
  }

  lemma SetsFollowObjects(sets: Sets, objs: map<string, Doc>, key: Key)
    requires Indexed(sets, objs) && NoEmptySets(sets)
    ensures key in sets <==> exists rk :: rk in objs && DocKey(objs[rk]) == key
  {
    hide DocKey;
    if key in sets {
      var rk :| rk in sets[key];
      assert rk in Members(sets, key);
      assert rk in objs && DocKey(objs[rk]) == key;
    }
    if rk :| rk in objs && DocKey(objs[rk]) == key {
      assert rk in Members(sets, key);
    }
  }

  lemma {:induction false} RunIsIndexed(ops: seq<M.Op>)
    requires EnabledRun(EMPTY, ops)
    ensures Indexed(PerformAll(EMPTY, ops).sets, PerformAll(EMPTY, ops).objs)
  {
    assert Inv(EMPTY);
    RunKeepsInv(EMPTY, ops);
  }

  /** In every run, there is a set for exactly the keys under which some object is stored. */
  lemma {:induction false} SetsAreOfLiveKeys(ops: seq<M.Op>, key: Key)
    requires EnabledRun(EMPTY, ops)
    ensures var r := PerformAll(EMPTY, ops);
            key in r.sets <==> exists rk :: rk in r.objs && DocKey(r.objs[rk]) == key
  {
    hide DocKey, PerformAll, EnabledRun, Indexed, NoEmptySets;
    RunIsIndexed(ops);
    RunKeepsNoEmptySets(ops);
    SetsFollowObjects(PerformAll(EMPTY, ops).sets, PerformAll(EMPTY, ops).objs, key);
  }

  // ----- What Create asks for -----

  ghost function AfterCreate(r: Redis, h: Handle, newId: Id, onCreate: seq<Edit>): Redis {
    var g := CreateHandle(h, newId, onCreate);
    StoreNew(r, h, newId, onCreate).(owned := r.owned[g.tag.id := g])
  }

  lemma UnsetIdMisplaces(h: Handle, g: Handle)
    requires h.kind == g.kind && KeyFor(g) == KeyFor(h)
    ensures h.tag.id == g.tag.id
  {
    var t := TypeKey(h.kind) + ":";
    assert KeyFor(h) == t + h.tag.id && KeyFor(g) == t + g.tag.id;
    assert (t + h.tag.id)[|t|..] == h.tag.id && (t + g.tag.id)[|t|..] == g.tag.id;
  }

  lemma {:induction false} CreateKeepsInvOnlyIf(r: Redis, h: Handle, newId: Id, onCreate: seq<Edit>)
    requires Inv(r) && Valid(h) && h.tag.typ in {"", TypeKey(h.kind)} && AllApplicable(h.kind, onCreate)
    requires newId != "" && M.CreatedId(h, newId) !in r.owned.Keys + r.retired
    requires Inv(AfterCreate(r, h, newId, onCreate))
    ensures h.tag.id != "" && KeepsKey(h, newId, onCreate)
  {
    hide KeyOf, Valid, DoAll, SAdd, RedisKey, CreateHandle;
    M.CreatedIsRight(h, newId, onCreate);
    var g := CreateHandle(h, newId, onCreate);
    var r' := AfterCreate(r, h, newId, onCreate);
    assert r'.owned == r.owned[g.tag.id := g];
    assert g.tag.id in r'.owned && r'.owned[g.tag.id] == g;
    assert ObjectInv(r'.objs, r'.owned[g.tag.id], g.tag.id);
    if KeyFor(g) in r.objs {
      var id :| id in r.owned && KeyFor(r.owned[id]) == KeyFor(g);
      assert r'.owned[id] == r.owned[id];
      KeysApart(r', id, g.tag.id);
      assert false;
    }
    assert KeyFor(h) == KeyFor(g);
    UnsetIdMisplaces(h, g);
    Announces(r, KeyFor(h), GetSubKey(h), g);
    assert DocKey(r'.objs[KeyFor(h)]) == GetSubKey(h);
  }

  lemma Announces(r: Redis, rk: string, subKey: Key, g: Handle)
    requires rk !in r.objs
    ensures rk in Members(SetAndPublish(r, rk, subKey, g).sets, subKey)
  {}

  /**
   Create leaves store and index in order exactly when the object comes with its ID set and OnCreate
   leaves its subscription key alone, since both keys are computed too early.
   */
  lemma {:induction false} CreateKeepsInvIff(r: Redis, h: Handle, newId: Id, onCreate: seq<Edit>)
    requires Inv(r) && Valid(h) && h.tag.typ in {"", TypeKey(h.kind)} && AllApplicable(h.kind, onCreate)
    requires newId != "" && ':' !in M.CreatedId(h, newId)
    requires M.CreatedId(h, newId) !in r.owned.Keys + r.retired
    ensures Inv(AfterCreate(r, h, newId, onCreate)) <==> h.tag.id != "" && KeepsKey(h, newId, onCreate)
  {
    hide Inv, StoreNew, Valid, DoAll, KeyOf;
    M.CreatedIsRight(h, newId, onCreate);
    if h.tag.id != "" && KeepsKey(h, newId, onCreate) {
      CreateKeepsInv(r, h, newId, onCreate);
    } else if Inv(AfterCreate(r, h, newId, onCreate)) {
      CreateKeepsInvOnlyIf(r, h, newId, onCreate);
    }
  }

  // ----- What is stored, and what becomes of it -----

  /** Human's tag is hidden from its JSON, Orc's is part of it; the fields are in both. */
  lemma StoredIs(h: Handle)
    ensures Encoded(h) == match h.kind
      case Orc => Doc(Orc, h.tag, h.committed)
      case Human => Doc(Human, Tag("", "", "", 0), h.committed)
  {}

  /** Under which key: the type key of its kind, a colon and its ID. */
  lemma StoredUnder(h: Handle)
    ensures KeyFor(h) == (if h.kind.Human? then "c:h:" else "c:o:") + h.tag.id
  {
    assert ("c:h" + ":") + h.tag.id == "c:h:" + h.tag.id && ("c:o" + ":") + h.tag.id == "c:o:" + h.tag.id;
  }

  /** An object as RedisRequestObjects makes it of what is stored. */
  function Loaded(d: Doc): Handle {
    Handle(d.kind, d.tag, d.state, map[])
  }

  /** What a loaded object is to the one its owner has. */
  ghost predicate LoadedFits(r: Redis, h: Handle, id: Id) {
    KeyFor(h) in r.objs &&
    var g := Loaded(r.objs[KeyFor(h)]);
    && g.kind == h.kind && g.committed == h.committed
    && (ObjectInv(r.objs, g, id) <==> h.kind.Orc?)
    && (h.kind.Orc? ==> g.tag == h.tag && KeyFor(g) == KeyFor(h))
    && (h.kind.Human? ==> g.tag.id == "" && KeyFor(g) == "c:h:")
  }

  lemma OwnedIsLoaded(r: Redis, h: Handle, id: Id)
    requires ObjectInv(r.objs, h, id)
    ensures LoadedFits(r, h, id)
  {
    hide KeyOf, Fields;
    StoredIs(h);
    StoredUnder(Loaded(r.objs[KeyFor(h)]));
    assert WellTyped(map[]);
    hide KeyFor, Encoded;
  }

  /**
   In every run: an object that is loaded is as good as the one its owner has committed, fit to be modified,
   exactly if it is an Orc; a loaded Human has lost the ID it would be stored under.
   */
  lemma {:induction false} LoadedIsOwnedIff(ops: seq<M.Op>, id: Id)
    requires EnabledRun(EMPTY, ops) && id in PerformAll(EMPTY, ops).owned
    ensures LoadedFits(PerformAll(EMPTY, ops), PerformAll(EMPTY, ops).owned[id], id)
  {
    hide ObjectInv, LoadedFits;
    assert Inv(EMPTY);
    RunKeepsInv(EMPTY, ops);
    OwnedIsLoaded(PerformAll(EMPTY, ops), PerformAll(EMPTY, ops).owned[id], id);
  }

  /** A Modify leaves `sub` at the key the object was created under, move or not. */
  lemma {:induction false} SubIsNotRefreshed(r: Redis, op: M.Op, id: Id)
    requires Inv(r) && Enabled(r, op)
    ensures id in r.owned && id in Perform(r, op).owned ==> Perform(r, op).owned[id].tag.sub == r.owned[id].tag.sub
    ensures op.Create? ==> op.h.tag.id in Perform(r, op).owned && Perform(r, op).owned[op.h.tag.id].tag.sub == GetSubKey(op.h)
  {
    hide KeyOf, Valid, DoAll, Indexed, RedisKey;
    match op
    case Create(h, newId, onCreate) => CreatedForRedis(h, newId, onCreate);
    case Change(i, e) => M.UnresolvedKeepsStored(r.owned[i], e);
    case Modify(_) =>
    case Delete(_) =>
  }
}

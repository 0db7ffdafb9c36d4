/** The indexed store of RedisSynk behaves as the plain store of MongoSynk does. */
module Refinement {
  import opened Base
  import opened Objects
  import opened Mutations
  import M = MongoRuns
  import R = RedisRuns
  import RK = RedisKeys
  import MS = MongoStore

  // RedisSynk does not refresh the `sub` field on a move, so objects are compared without it.

  function Blur(h: Handle): Handle {
    h.(tag := h.tag.(sub := ""))
  }

  ghost predicate SameObject(h: Handle, g: Handle) {
    Blur(h) == Blur(g)
  }

  ghost predicate SameOwned(a: map<Id, Handle>, b: map<Id, Handle>) {
    a.Keys == b.Keys && forall id <- a :: SameObject(a[id], b[id])
  }

  /** Both stores have seen the same mutations. */
  ghost predicate Matches(m: M.Mongo, r: R.Redis) {
    && M.Inv(m) && R.Inv(r)
    && m.published == r.published && m.retired == r.retired
    && SameOwned(m.owned, r.owned)
  }

  lemma SameMutations(h: Handle, g: Handle)
    requires SameObject(h, g)
    ensures SameObject(ModifyHandle(h), Resolve(g))
    ensures ModifyWires(h) == ModifyWires(g) && DeleteWires(h) == DeleteWires(g)
  {
    hide KeyOf;
    assert Effective(h) == Effective(g) && h.tag.id == g.tag.id && h.tag.v == g.tag.v;
  }

  lemma SameEdits(h: Handle, g: Handle, e: Edit)
    requires SameObject(h, g)
    ensures SameObject(Do(h, e), Do(g, e))
  {}

  lemma StepEnabled(m: M.Mongo, r: R.Redis, op: M.Op)
    requires Matches(m, r) && M.Enabled(m, op) && R.CreateOk(op)
    ensures R.Enabled(r, op)
  {
    hide R.Inv, Valid, KeyOf, DoAll;
    if op.Change? {
      assert SameObject(m.owned[op.id], r.owned[op.id]);
    }
  }

  ghost predicate SameAfter(m: M.Mongo, r: R.Redis, op: M.Op)
    requires M.Enabled(m, op) && R.Enabled(r, op)
  {
    var m', r' := M.Perform(m, op), R.Perform(r, op);
    m'.published == r'.published && m'.retired == r'.retired && SameOwned(m'.owned, r'.owned)
  }

  lemma SameOwnedPut(a: map<Id, Handle>, b: map<Id, Handle>, h: Handle, g: Handle)
    requires SameOwned(a, b) && SameObject(h, g)
    ensures SameOwned(a[h.tag.id := h], b[h.tag.id := g])
  {
    hide SameObject;
  }

  lemma CreateMatches(m: M.Mongo, r: R.Redis, op: M.Op)
    requires Matches(m, r) && M.Enabled(m, op) && R.CreateOk(op) && R.Enabled(r, op) && op.Create?
    ensures SameAfter(m, r, op)
  {
    hide Valid, KeyOf, DoAll, SameOwned, M.Inv, R.Inv, CreateHandle, R.SAdd;
    R.CreateKeepsInv(r, op.h, op.newId, op.onCreate);
    R.CreatedForRedis(op.h, op.newId, op.onCreate);
    var g := CreateHandle(op.h, op.newId, op.onCreate);
    SameOwnedPut(m.owned, r.owned, g, g);
  }

  lemma PlainModify(m: M.Mongo, id: Id)
    requires M.Inv(m) && id in m.owned
    ensures var h, m' := m.owned[id], M.Perform(m, M.Modify(id));
            && m'.owned == m.owned[id := ModifyHandle(h)] && ModifyHandle(h).tag.id == id
            && m'.retired == m.retired && m'.published == m.published + ModifyWires(h)
  {
    hide Valid, KeyOf, ModifyWires;
    assert M.ObjectInv(m.owned[id], m.store[id], id);
  }

  lemma IndexedModify(r: R.Redis, id: Id)
    requires R.Inv(r) && id in r.owned
    ensures var g, r' := r.owned[id], R.Perform(r, M.Modify(id));
            && r'.owned == r.owned[id := Resolve(g)] && Resolve(g).tag.id == id
            && r'.retired == r.retired && r'.published == r.published + ModifyWires(g)
  {
    hide Valid, KeyOf, ModifyWires, R.SAdd, R.SRem, Simple, R.Indexed;
    assert R.ObjectInv(r.objs, r.owned[id], id);
  }

  lemma ModifyMatches(m: M.Mongo, r: R.Redis, op: M.Op)
    requires Matches(m, r) && M.Enabled(m, op) && R.Enabled(r, op) && op.Modify?
    ensures SameAfter(m, r, op)
  {
    var h, g := m.owned[op.id], r.owned[op.id];
    assert SameObject(h, g);
    PlainModify(m, op.id);
    IndexedModify(r, op.id);
    hide SameOwned, SameObject, M.Perform, R.Perform, M.Inv, R.Inv, ModifyWires, ModifyHandle, Resolve;
    SameMutations(h, g);
    SameOwnedPut(m.owned, r.owned, ModifyHandle(h), Resolve(g));
  }

  lemma ChangeMatches(m: M.Mongo, r: R.Redis, op: M.Op)
    requires Matches(m, r) && M.Enabled(m, op) && R.Enabled(r, op) && op.Change?
    ensures SameAfter(m, r, op)
  {
    hide Valid, KeyOf, SameObject, M.Inv, R.Inv, Do;
    assert SameObject(m.owned[op.id], r.owned[op.id]);
    SameEdits(m.owned[op.id], r.owned[op.id], op.e);
  }

  lemma DeleteMatches(m: M.Mongo, r: R.Redis, op: M.Op)
    requires Matches(m, r) && M.Enabled(m, op) && R.Enabled(r, op) && op.Delete?
    ensures SameAfter(m, r, op)
  {
    hide Valid, KeyOf, SameObject, M.Inv, R.Inv, R.SRem, ModifyWires, DeleteWires;
    assert SameObject(m.owned[op.id], r.owned[op.id]);
    SameMutations(m.owned[op.id], r.owned[op.id]);
  }

  lemma {:induction false} StepMatches(m: M.Mongo, r: R.Redis, op: M.Op)
    requires Matches(m, r) && M.Enabled(m, op) && R.CreateOk(op)
    ensures R.Enabled(r, op)
    ensures Matches(M.Perform(m, op), R.Perform(r, op))
  {
    hide M.Inv, R.Inv, M.Perform, R.Perform, M.Enabled, R.Enabled, SameOwned;
    StepEnabled(m, r, op);
    M.PerformKeepsInv(m, op);
    R.PerformKeepsInv(r, op);
    match op
    case Create(_, _, _) => CreateMatches(m, r, op);
    case Change(_, _) => ChangeMatches(m, r, op);
    case Modify(_) => ModifyMatches(m, r, op);
    case Delete(_) => DeleteMatches(m, r, op);
  }

  /**
   Every run that MongoSynk can take, with objects RedisSynk is suited to, RedisSynk can take too, and
   the stores stay matched throughout.
   */
  lemma {:induction false} RunMatches(ops: seq<M.Op>)
    requires M.EnabledRun(M.EMPTY, ops) && forall op <- ops :: R.CreateOk(op)
    ensures R.EnabledRun(R.EMPTY, ops)
    ensures Matches(M.PerformAll(M.EMPTY, ops), R.PerformAll(R.EMPTY, ops))
  {
    if ops != [] {
      var init, op := ops[..|ops| - 1], ops[|ops| - 1];
      assert op in ops && forall o <- init :: o in ops;
      RunMatches(init);
      StepMatches(M.PerformAll(M.EMPTY, init), R.PerformAll(R.EMPTY, init), op);
    }
  }

  /** The same messages on the same channels in the same order. */
  lemma {:induction false} SameMessages(ops: seq<M.Op>)
    requires M.EnabledRun(M.EMPTY, ops) && forall op <- ops :: R.CreateOk(op)
    ensures R.EnabledRun(R.EMPTY, ops)
    ensures R.PerformAll(R.EMPTY, ops).published == M.PerformAll(M.EMPTY, ops).published
  {
    RunMatches(ops);
  }

  function KeyForDoc(d: Doc): string {
    RK.RedisKey(TypeKey(d.kind), d.tag.id)
  }

  /**
   What RedisSynk has of a document: the same kind and fields. The JSON of an Orc holds its tag, so ID, type
   and version are the same, while `sub` is not refreshed on a move; that of a Human holds none of it.
   */
  predicate SameDoc(d: Doc, e: Doc) {
    && e.kind == d.kind && e.state == d.state
    && match d.kind
       case Orc => e.tag.id == d.tag.id && e.tag.typ == d.tag.typ && e.tag.v == d.tag.v
       case Human => e.tag == Tag("", "", "", 0)
  }

  /** What a load finds in both stores: the same objects, each under one Redis key of its own. */
  ghost predicate LoadsAgree(m: M.Mongo, r: R.Redis, keys: seq<Key>) {
    var found := M.FoundBySub(m.store, set k | k in keys);
    && R.Union(r.sets, keys) == (set id | id in found :: KeyForDoc(m.store[id]))
    && (forall i, j :: i in found && j in found && KeyForDoc(m.store[i]) == KeyForDoc(m.store[j]) ==> i == j)
    && (forall id <- found :: KeyForDoc(m.store[id]) in r.objs && SameDoc(m.store[id], r.objs[KeyForDoc(m.store[id])]))
  }

  /** For every list of keys, repeated or not, both stores load the same objects. */
  lemma {:induction false} SameLoads(ops: seq<M.Op>, keys: seq<Key>)
    requires M.EnabledRun(M.EMPTY, ops) && forall op <- ops :: R.CreateOk(op)
    ensures R.EnabledRun(R.EMPTY, ops)
    ensures LoadsAgree(M.PerformAll(M.EMPTY, ops), R.PerformAll(R.EMPTY, ops), keys)
  {
    RunMatches(ops);
    MatchedLoads(M.PerformAll(M.EMPTY, ops), R.PerformAll(R.EMPTY, ops), keys);
  }

  lemma MatchedObject(m: M.Mongo, r: R.Redis, id: Id)
    requires Matches(m, r) && id in m.store
    ensures id in r.owned
    ensures var rk := KeyForDoc(m.store[id]);
            && R.KeyFor(r.owned[id]) == rk && rk in r.objs
            && SameDoc(m.store[id], r.objs[rk])
            && DocKey(r.objs[rk]) == m.store[id].tag.sub
  {
    hide Valid, KeyOf;
    assert SameObject(m.owned[id], r.owned[id]);
    assert M.ObjectInv(m.owned[id], m.store[id], id);
    assert R.ObjectInv(r.objs, r.owned[id], id);
  }

  lemma FoundTogether(m: M.Mongo, r: R.Redis, keys: seq<Key>, rk: string)
    requires Matches(m, r)
    ensures rk in R.Union(r.sets, keys) <==>
            exists id :: id in M.FoundBySub(m.store, set k | k in keys) && KeyForDoc(m.store[id]) == rk
  {
    R.UnionIsScan(r, keys);
    hide R.KeyFor, DocKey, KeyForDoc, SameDoc, R.Union;
    if rk in R.Union(r.sets, keys) {
      var id :| id in r.owned && R.KeyFor(r.owned[id]) == rk;
      MatchedObject(m, r, id);
      assert id in M.FoundBySub(m.store, set k | k in keys) && KeyForDoc(m.store[id]) == rk;
    }
    if id :| id in M.FoundBySub(m.store, set k | k in keys) && KeyForDoc(m.store[id]) == rk {
      MatchedObject(m, r, id);
    }
  }

  lemma FoundApart(m: M.Mongo, r: R.Redis, i: Id, j: Id)
    requires Matches(m, r) && i in m.store && j in m.store && KeyForDoc(m.store[i]) == KeyForDoc(m.store[j])
    ensures i == j
  {
    hide R.KeyFor, DocKey, KeyForDoc, SameDoc;
    MatchedObject(m, r, i);
    MatchedObject(m, r, j);
    if i != j {
      R.KeysApart(r, i, j);
    }
  }

  lemma MatchedLoads(m: M.Mongo, r: R.Redis, keys: seq<Key>)
    requires Matches(m, r)
    ensures LoadsAgree(m, r, keys)
  {
    hide R.KeyFor, DocKey, KeyForDoc, SameDoc, R.Union, Matches;
    var found := M.FoundBySub(m.store, set k | k in keys);
    forall rk
      ensures rk in R.Union(r.sets, keys) <==> rk in set id | id in found :: KeyForDoc(m.store[id])
    {
      FoundTogether(m, r, keys, rk);
    }
    forall i, j | i in found && j in found && KeyForDoc(m.store[i]) == KeyForDoc(m.store[j])
      ensures i == j
    {
      FoundApart(m, r, i, j);
    }
    forall id <- found
      ensures KeyForDoc(m.store[id]) in r.objs
      ensures SameDoc(m.store[id], r.objs[KeyForDoc(m.store[id])])
    {
      MatchedObject(m, r, id);
    }
  }

  // ----- What the two loads return -----

  function IndexOf(rks: seq<string>, rk: string): (i: nat)
    requires rk in rks
    ensures i < |rks| && rks[i] == rk
  {
    if rks[0] == rk then 0 else 1 + IndexOf(rks[1..], rk)
  }

  /** `f` pairs off the documents of two loads, one to one, and each pair is the same object. */
  ghost predicate Pairs(raw: seq<Doc>, docs: seq<Doc>, f: seq<nat>) {
    && |f| == |raw|
    && (forall i :: 0 <= i < |raw| ==> f[i] < |docs| && SameDoc(raw[i], docs[f[i]]))
    && (forall i, j :: 0 <= i < j < |raw| ==> f[i] != f[j])
    && (forall k :: 0 <= k < |docs| ==> k in f)
  }

  function Docs(objs: map<string, Doc>, rks: seq<string>): seq<Doc>
    requires forall rk <- rks :: rk in objs
  {
    seq(|rks|, i requires 0 <= i < |rks| => assert rks[i] in rks; objs[rks[i]])
  }

  /**
   What a query of MongoSynk answers and what the union and the lookup of RedisSynk answer for the same keys,
   in whatever order, are the same objects, each once on both sides.
   */
  lemma {:induction false} AnswersPair(m: M.Mongo, r: R.Redis, keys: seq<Key>, raw: seq<Doc>, rks: seq<string>)
    returns (f: seq<nat>)
    requires Matches(m, r) && MS.Answers(m.store, keys, raw)
    requires (set rk | rk in rks) == R.Union(r.sets, keys) && forall rk <- rks :: rk in r.objs
    requires forall i, j :: 0 <= i < j < |rks| ==> rks[i] != rks[j]
    ensures Pairs(raw, Docs(r.objs, rks), f)
  {
    hide Matches, KeyForDoc, SameDoc, R.Union;
    MatchedLoads(m, r, keys);
    var found := M.FoundBySub(m.store, set k | k in keys);
    forall i | 0 <= i < |raw|
      ensures raw[i].tag.id in found && m.store[raw[i].tag.id] == raw[i] && KeyForDoc(raw[i]) in rks
      ensures KeyForDoc(raw[i]) in r.objs && SameDoc(raw[i], r.objs[KeyForDoc(raw[i])])
    {
      assert raw[i] in raw;
      assert raw[i].tag.id in found;
      assert KeyForDoc(raw[i]) in R.Union(r.sets, keys);
    }
    f := seq(|raw|, i requires 0 <= i < |raw| => IndexOf(rks, KeyForDoc(raw[i])));
    forall i, j | 0 <= i < j < |raw|
      ensures f[i] != f[j]
    {
      assert raw[i].tag.id != raw[j].tag.id;
    }
    forall k | 0 <= k < |rks|
      ensures k in f
    {
      assert rks[k] in R.Union(r.sets, keys);
      var id :| id in found && KeyForDoc(m.store[id]) == rks[k];
      var d :| d in raw && d.tag.id == id;
      var i :| 0 <= i < |raw| && raw[i] == d;
      assert f[i] == k;
    }
  }
}

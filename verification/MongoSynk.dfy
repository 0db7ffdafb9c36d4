/** MongoSynk as a class over heap objects (MongoSynk.go), proved against Mutations and MongoRuns. */
module MongoStore {
  import opened Base
  import O = Objects
  import opened Mutations
  import MongoRuns
  import opened TrackedObjects

  /** A handle as unmarshalled from a document: nothing is pending. */
  function Loaded(d: Doc): O.Handle {
    O.Handle(d.kind, d.tag, d.state, map[])
  }

  /** Documents are filed under their ID, and the type they name is the one they were written from. */
  ghost predicate Loadable(coll: map<Id, Doc>) {
    forall id <- coll ::
      && coll[id].tag.id == id
      && coll[id].state.Keys == O.Fields(coll[id].kind) && O.WellTyped(coll[id].state)
      && (O.Creator(coll[id].tag.typ).Some? ==> O.Creator(coll[id].tag.typ).value == coll[id].kind)
  }

  lemma InvIsLoadable(m: MongoRuns.Mongo)
    requires MongoRuns.Inv(m)
    ensures Loadable(m.store) && forall id <- m.store :: O.Creator(m.store[id].tag.typ).Some?
  {
    hide O.KeyOf, O.Fields;
    assert forall id <- m.store :: MongoRuns.ObjectInv(m.owned[id], m.store[id], id);
  }

  /** The collection of every run is fit for Load, and no document is skipped for want of a container. */
  lemma {:induction false} RunsAreLoadable(ops: seq<MongoRuns.Op>)
    requires MongoRuns.EnabledRun(MongoRuns.EMPTY, ops)
    ensures var store := MongoRuns.PerformAll(MongoRuns.EMPTY, ops).store;
            Loadable(store) && forall id <- store :: O.Creator(store[id].tag.typ).Some?
  {
    MongoRuns.RunKeepsInv(MongoRuns.EMPTY, ops);
    InvIsLoadable(MongoRuns.PerformAll(MongoRuns.EMPTY, ops));
  }

  // ----- What becomes of a loaded object -----

  /** An object read back is the one that was stored, tag and all, with nothing pending. */
  lemma LoadedIsStored(d: Doc)
    ensures Stored(Loaded(d)) == d && Loaded(d).pending == map[] && O.Effective(Loaded(d)) == d.state
  {}

  lemma LoadedIsOwned(m: MongoRuns.Mongo, id: Id)
    requires MongoRuns.Inv(m) && id in m.store
    ensures MongoRuns.ObjectInv(Loaded(m.store[id]), m.store[id], id)
  {
    hide O.KeyOf, O.Fields;
    assert MongoRuns.ObjectInv(m.owned[id], m.store[id], id);
    assert O.WellTyped(map[]);
  }

  lemma {:induction false} EditedIsOwned(h: O.Handle, d: Doc, id: Id, es: seq<O.Edit>)
    requires MongoRuns.ObjectInv(h, d, id) && O.AllApplicable(h.kind, es) && forall e <- es :: !e.ResolveEdit?
    ensures MongoRuns.ObjectInv(O.DoAll(h, es), d, id) && O.DoAll(h, es).kind == h.kind
  {
    if es != [] {
      hide O.Valid, O.Do, O.KeyOf;
      var init, e := es[..|es| - 1], es[|es| - 1];
      assert e in es && forall x <- init :: x in es;
      EditedIsOwned(h, d, id, init);
      O.DoValid(O.DoAll(h, init), e);
      MongoRuns.UnresolvedKeepsStored(O.DoAll(h, init), e);
    }
  }

  /** The owner goes on with the object as loaded, after some setters. */
  function Reloaded(m: MongoRuns.Mongo, id: Id, es: seq<O.Edit>): MongoRuns.Mongo
    requires id in m.store
  {
    m.(owned := m.owned[id := O.DoAll(Loaded(m.store[id]), es)])
  }

  /**
   In every run: an object that is loaded, set and modified is filed with the state its setters made of the
   stored one, under the key of that state, where a later load by key finds it.
   */
  lemma {:induction false} LoadedCanBeModified(ops: seq<MongoRuns.Op>, id: Id, es: seq<O.Edit>, keys: set<Key>)
    requires MongoRuns.EnabledRun(MongoRuns.EMPTY, ops)
    requires id in MongoRuns.PerformAll(MongoRuns.EMPTY, ops).store
    requires var d := MongoRuns.PerformAll(MongoRuns.EMPTY, ops).store[id];
             O.AllApplicable(d.kind, es) && forall e <- es :: !e.ResolveEdit?
    ensures var m := PerformedAll(ops);
            var d, m1 := m.store[id], Reloaded(m, id, es);
            && MongoRuns.Inv(m1) && MongoRuns.Enabled(m1, MongoRuns.Modify(id))
            && var m2 := MongoRuns.Perform(m1, MongoRuns.Modify(id));
            && MongoRuns.Inv(m2) && id in m2.store
            && var shown := O.DoPairAll(O.Pair(d.state, d.state), es).effective;
            && m2.store[id].state == shown
            && m2.store[id].tag == d.tag.(v := d.tag.v + 1, sub := O.KeyOf(d.kind, shown))
            && (id in MongoRuns.FoundBySub(m2.store, keys) <==> O.KeyOf(d.kind, shown) in keys)
  {
    MongoRuns.RunKeepsInv(MongoRuns.EMPTY, ops);
    ReloadedIsOwned(PerformedAll(ops), id, es);
    ModifyReloaded(PerformedAll(ops), id, es);
  }

  ghost function PerformedAll(ops: seq<MongoRuns.Op>): MongoRuns.Mongo
    requires MongoRuns.EnabledRun(MongoRuns.EMPTY, ops)
  {
    MongoRuns.PerformAll(MongoRuns.EMPTY, ops)
  }

  lemma {:induction false} ReloadedIsOwned(m: MongoRuns.Mongo, id: Id, es: seq<O.Edit>)
    requires MongoRuns.Inv(m) && id in m.store
    requires O.AllApplicable(m.store[id].kind, es) && forall e <- es :: !e.ResolveEdit?
    ensures MongoRuns.Inv(Reloaded(m, id, es)) && MongoRuns.Enabled(Reloaded(m, id, es), MongoRuns.Modify(id))
  {
    hide O.Valid, O.DoAll, O.KeyOf;
    LoadedIsOwned(m, id);
    EditedIsOwned(Loaded(m.store[id]), m.store[id], id, es);
  }

  lemma {:induction false} ModifyReloaded(m: MongoRuns.Mongo, id: Id, es: seq<O.Edit>)
    requires MongoRuns.Inv(m) && id in m.store && O.AllApplicable(m.store[id].kind, es)
    requires MongoRuns.Inv(Reloaded(m, id, es)) && MongoRuns.Enabled(Reloaded(m, id, es), MongoRuns.Modify(id))
    ensures var m2 := MongoRuns.Perform(Reloaded(m, id, es), MongoRuns.Modify(id));
            && MongoRuns.Inv(m2) && id in m2.store
            && var d, shown := m.store[id], O.DoPairAll(O.Pair(m.store[id].state, m.store[id].state), es).effective;
            && m2.store[id].state == shown
            && m2.store[id].tag == d.tag.(v := d.tag.v + 1, sub := O.KeyOf(d.kind, shown))
  {
    hide O.Valid, O.DoAll, O.KeyOf, O.DoPairAll;
    var m1, d := Reloaded(m, id, es), m.store[id];
    var h := O.DoAll(Loaded(d), es);
    assert MongoRuns.ObjectInv(h, d, id);
    MongoRuns.PerformKeepsInv(m1, MongoRuns.Modify(id));
    MongoRuns.ModifiedIsRight(h);
    LoadedIsOwned(m, id);
    LoadedIsStored(d);
    O.RefinesPair(Loaded(d), es);
    assert O.PairOf(Loaded(d)) == O.Pair(d.state, d.state);
    assert O.PairOf(h).effective == O.Effective(h);
  }

  class MongoSynk {
    var coll: map<Id, Doc>
    var published: seq<Wire>

    ghost predicate Valid()
      reads this
    {
      Loadable(coll)
    }

    constructor ()
      ensures Valid() && coll == map[] && published == []
    {
      coll, published := map[], [];
    }

    method Publish(w: Wire)
      modifies this`published
      ensures published == old(published) + [w]
    {
      published := published + [w];
    }

    /** `ok` is false where the code panics: the ID is taken. */
    method Create(obj: TrackedObject, newId: Id) returns (ok: bool)
      requires obj.Valid()
      modifies this, obj
      ensures obj.Model() == CreateHandle(old(obj.Model()), newId, obj.onCreate)
      ensures obj.state == O.DoPairAll(O.PairOf(old(obj.Model())), obj.onCreate).effective && obj.diff == map[]
      ensures ok <==> obj.tag.id !in old(coll)
      ensures ok ==> coll == old(coll)[obj.tag.id := Stored(obj.Model())]
                     && published == old(published) + CreateWires(obj.Model(), obj.tag.sub)
      ensures !ok ==> coll == old(coll) && published == old(published)
    {
      hide O.KeyOf, O.Valid, O.DoAll, O.DoPairAll;
      CreateCommits(obj.Model(), newId, obj.onCreate);
      var typeKey := O.TypeKey(obj.kind);
      obj.TagInit(typeKey, newId);
      TagInitValid(old(obj.Model()), newId);
      obj.OnCreate();
      var _ := obj.Resolve();
      var subscription := O.GetSubKey(obj.Model());
      obj.TagSetSub(subscription);
      if obj.tag.id in coll {
        return false;
      }
      coll := coll[obj.tag.id := Stored(obj.Model())];
      var state := obj.StatePointers();
      Publish(Wire(subscription, None, Add(obj.tag.id, Deref(state), subscription, None, obj.tag.v, typeKey)));
      ok := true;
    }

    /** `ok` is false where the code panics: there is no such document. */
    method Modify(obj: TrackedObject) returns (ok: bool)
      requires obj.Valid()
      modifies this, obj
      ensures obj.Model() == ModifyHandle(old(obj.Model()))
      ensures ok <==> obj.tag.id in old(coll)
      ensures ok ==> coll == old(coll)[obj.tag.id := Stored(obj.Model())]
                     && published == old(published) + ModifyWires(old(obj.Model()))
      ensures !ok ==> coll == old(coll) && published == old(published)
    {
      hide O.KeyOf, O.Valid;
      var nsk := O.GetSubKey(obj.Model());
      var psk := O.GetPrevSubKey(obj.Model());
      var id := obj.tag.id;
      var simple := nsk == psk;
      ghost var before := obj.Model();
      var diff := obj.Resolve();
      var mod := Mod(id, Deref(diff), psk, if simple then None else OmitEmpty(nsk), obj.tag.v);
      assert mod == ModMsg(before);
      hide ModMsg;
      if simple {
        if id !in coll {
          return false;
        }
        coll := coll[id := Stored(obj.Model())];
        Publish(Wire(psk, None, mod));
        return true;
      }
      obj.TagSetSub(nsk);
      var state := obj.StatePointers();
      var add := Add(id, Deref(state), nsk, OmitEmpty(psk), obj.tag.v, O.TypeKey(obj.kind));
      assert add == MoveAddMsg(before);
      hide MoveAddMsg;
      obj.TagSetSub(nsk);
      if id !in coll {
        return false;
      }
      coll := coll[id := Stored(obj.Model())];
      Publish(Wire(psk, None, mod));
      Publish(Wire(nsk, Some(psk), add));
      ok := true;
    }

    /** `ok` is false where the code panics: there is no such document. */
    method Delete(obj: TrackedObject) returns (ok: bool)
      requires obj.Valid()
      modifies this
      ensures ok <==> obj.tag.id in old(coll)
      ensures ok ==> coll == old(coll) - {obj.tag.id}
                     && published == old(published) + DeleteWires(obj.Model())
      ensures ok ==> published[|published| - 1].msg == Rem(obj.tag.id, O.GetPrevSubKey(obj.Model()), O.TypeKey(obj.kind))
      ensures !ok ==> coll == old(coll) && published == old(published)
    {
      hide O.KeyOf, O.Valid;
      var psk := O.GetPrevSubKey(obj.Model());
      var msg := Rem(obj.tag.id, psk, O.TypeKey(obj.kind));
      if obj.tag.id !in coll {
        return false;
      }
      coll := coll - {obj.tag.id};
      Publish(Wire(psk, None, msg));
      ok := true;
    }

    /** The query on the `sub` field: the matching documents in some order. */
    method Find(sKeys: seq<Key>) returns (raw: seq<Doc>)
      requires Valid()
      ensures Answers(coll, sKeys, raw)
    {
      var found := MongoRuns.FoundBySub(coll, set k | k in sKeys);
      var left := found;
      raw := [];
      while left != {}
        invariant left <= found
        invariant forall d <- raw :: d.tag.id in coll && coll[d.tag.id] == d
        invariant forall i, j :: 0 <= i < j < |raw| ==> raw[i].tag.id != raw[j].tag.id
        invariant forall id <- found :: id in left || coll[id] in raw
        invariant forall d <- raw :: d.tag.id in found - left
        decreases left
      {
        var id :| id in left;
        raw := raw + [coll[id]];
        left := left - {id};
      }
    }

    /**
     Load makes one object, equal to its document and with nothing pending, of every document under the
     given keys whose type has a container.
     */
    method Load(sKeys: seq<Key>) returns (results: seq<TrackedObject>)
      requires Valid()
      ensures fresh(set r | r in results)
      ensures exists raw :: Answers(coll, sKeys, raw) && ShowDocs(results, WithContainer(raw))
    {
      hide O.Valid, O.Fields, O.KeyOf, Answers;
      var raw := Find(sKeys);
      AnswersAreDocs(coll, sKeys, raw);
      results := [];
      for n := 0 to |raw|
        invariant fresh(set r | r in results)
        invariant ShowDocs(results, WithContainer(raw[..n]))
      {
        assert raw[..n + 1][..n] == raw[..n];
        match O.Creator(raw[n].tag.typ)
        case None =>
        case Some(kind) =>
          var container := new TrackedObject(kind, raw[n].tag, raw[n].state, []);
          results := results + [container];
      }
      assert raw[..|raw|] == raw;
    }
  }

  /** `raw` lists each document the query matches, once. */
  ghost predicate Answers(coll: map<Id, Doc>, sKeys: seq<Key>, raw: seq<Doc>) {
    && (forall d <- raw :: d.tag.id in coll && coll[d.tag.id] == d)
    && (forall i, j :: 0 <= i < j < |raw| ==> raw[i].tag.id != raw[j].tag.id)
    && MongoRuns.FoundBySub(coll, set k | k in sKeys) == set d | d in raw :: d.tag.id
  }

  lemma AnswersAreDocs(coll: map<Id, Doc>, sKeys: seq<Key>, raw: seq<Doc>)
    requires Answers(coll, sKeys, raw)
    ensures forall d <- raw :: d.tag.id in coll && coll[d.tag.id] == d
  {}

  /** The documents whose type has a container. */
  function WithContainer(raw: seq<Doc>): seq<Doc> {
    if raw == [] then [] else
    WithContainer(raw[..|raw| - 1]) +
    if O.Creator(raw[|raw| - 1].tag.typ).Some? then [raw[|raw| - 1]] else []
  }

  ghost predicate ShowDocs(objs: seq<TrackedObject>, docs: seq<Doc>)
    reads objs, set o, x | o in objs && x in Targets(o.diff) :: x
  {
    |objs| == |docs| && forall i :: 0 <= i < |objs| ==> objs[i].Valid() && objs[i].Model() == Loaded(docs[i])
  }

  /** Exactly the documents of a type without a container are skipped, and the others stay in order. */
  lemma {:induction false} WithContainerSkips(raw: seq<Doc>, d: Doc)
    ensures d in WithContainer(raw) <==> d in raw && (d.tag.typ == "c:h" || d.tag.typ == "c:o")
    ensures WithContainer(raw + [d]) == WithContainer(raw) + if d.tag.typ in {"c:h", "c:o"} then [d] else []
  {
    assert (raw + [d])[..|raw|] == raw;
    if raw != [] {
      WithContainerSkips(raw[..|raw| - 1], d);
      assert raw == raw[..|raw| - 1] + [raw[|raw| - 1]];
    }
  }

  lemma {:induction false} AllHaveContainers(raw: seq<Doc>)
    requires forall d <- raw :: O.Creator(d.tag.typ).Some?
    ensures WithContainer(raw) == raw
  {
    if raw != [] {
      AllHaveContainers(raw[..|raw| - 1]);
    }
  }

  /**
   In every run, what Load is answered lists exactly the objects whose committed key is asked for, each
   once, and none of them is skipped.
   */
  lemma {:induction false} RunsLoadView(ops: seq<MongoRuns.Op>, sKeys: seq<Key>, raw: seq<Doc>)
    requires MongoRuns.EnabledRun(MongoRuns.EMPTY, ops)
    requires Answers(MongoRuns.PerformAll(MongoRuns.EMPTY, ops).store, sKeys, raw)
    ensures var store := MongoRuns.PerformAll(MongoRuns.EMPTY, ops).store;
            && Loadable(store) && WithContainer(raw) == raw
            && (set d | d in raw :: d.tag.id) == MongoRuns.FoundByKey(store, set k | k in sKeys)
  {
    RunsAreLoadable(ops);
    AllHaveContainers(raw);
    MongoRuns.StoredSubAgrees(ops, set k | k in sKeys);
  }
}

/** RedisSynk as a class over heap objects (RedisSynk.go, RedisScripts.go), proved against RedisRuns. */
module RedisStore {
  import opened Base
  import O = Objects
  import opened Mutations
  import opened RedisKeys
  import M = MongoRuns
  import RR = RedisRuns
  import opened TrackedObjects

  /** Every stored object sits under a key whose type part names its kind, if it names one. */
  ghost predicate Loadable(objs: map<string, Doc>) {
    forall rk <- objs ::
      && objs[rk].state.Keys == O.Fields(objs[rk].kind) && O.WellTyped(objs[rk].state)
      && (O.Creator(TypePart(rk)).Some? ==> O.Creator(TypePart(rk)).value == objs[rk].kind)
  }

  lemma ContainerFits(r: RR.Redis, rk: string)
    requires RR.Inv(r) && rk in r.objs
    ensures r.objs[rk].state.Keys == O.Fields(r.objs[rk].kind) && O.WellTyped(r.objs[rk].state)
    ensures O.Creator(TypePart(rk)) == Some(r.objs[rk].kind)
  {
    hide O.KeyOf, O.Fields, RR.Indexed, TypePart, RedisKey;
    var id :| id in r.owned && RR.KeyFor(r.owned[id]) == rk;
    assert RR.ObjectInv(r.objs, r.owned[id], id);
    KeyRoundTrip(O.TypeKey(r.owned[id].kind), id);
  }

  lemma InvIsLoadable(r: RR.Redis)
    requires RR.Inv(r)
    ensures Loadable(r.objs) && forall rk <- r.objs :: O.Creator(TypePart(rk)) == Some(r.objs[rk].kind)
  {
    hide RR.Inv, O.Creator, O.Fields, O.WellTyped, TypePart;
    forall rk <- r.objs
      ensures r.objs[rk].state.Keys == O.Fields(r.objs[rk].kind) && O.WellTyped(r.objs[rk].state)
      ensures O.Creator(TypePart(rk)) == Some(r.objs[rk].kind)
    {
      ContainerFits(r, rk);
    }
  }

  /** In every run, the container a load picks for a Redis key is the one of the object stored there. */
  lemma {:induction false} ContainersFit(ops: seq<M.Op>)
    requires RR.EnabledRun(RR.EMPTY, ops)
    ensures var objs := RR.PerformAll(RR.EMPTY, ops).objs;
            Loadable(objs) && forall rk <- objs :: O.Creator(TypePart(rk)) == Some(objs[rk].kind)
  {
    hide RR.PerformAll, RR.EnabledRun, O.Creator, O.Fields, O.WellTyped, TypePart;
    assert RR.Inv(RR.EMPTY);
    RR.RunKeepsInv(RR.EMPTY, ops);
    InvIsLoadable(RR.PerformAll(RR.EMPTY, ops));
  }

  /** The JSON of an object as it is: Orc's holds its tag, Human's does not (stest/char.go). */
  predicate HoldsNow(d: Doc, obj: TrackedObject)
    reads obj
  {
    d == Doc(obj.kind, if obj.kind.Orc? then obj.tag else O.Tag("", "", "", 0), obj.state)
  }

  class RedisSynk {
    var sets: RR.Sets
    var objs: map<string, Doc>
    var published: seq<Wire>

    /** The part of a run's state that is in Redis. */
    function State(): RR.Redis
      reads this
    {
      RR.Redis(map[], sets, objs, {}, published)
    }

    constructor ()
      ensures State() == RR.EMPTY
    {
      sets, objs, published := map[], map[], [];
    }

    // ----- Redis commands -----

    method SAdd(key: Key, member: string)
      modifies this`sets
      ensures sets == RR.SAdd(old(sets), key, member)
    {
      sets := sets[key := RR.Members(sets, key) + {member}];
    }

    method SRem(key: Key, member: string)
      modifies this`sets
      ensures sets == RR.SRem(old(sets), key, member)
    {
      var rest := RR.Members(sets, key) - {member};
      sets := if rest == {} then sets - {key} else sets[key := rest];
    }

    method Publish(w: Wire)
      modifies this`published
      ensures published == old(published) + [w]
    {
      published := published + [w];
    }

    /** The script behind Create: SET if absent, then index and announce; "OK" or "NO". */
    method SetAndPublish(key: string, subKey: Key, doc: Doc, w: Wire) returns (reply: string)
      modifies this
      ensures reply == if key in old(objs) then "NO" else "OK"
      ensures reply == "NO" ==> State() == old(State())
      ensures reply == "OK" ==> State() == old(State()).(objs := old(objs)[key := doc],
                                                         sets := RR.SAdd(old(sets), subKey, key),
                                                         published := old(published) + [w])
    {
      if key in objs {
        return "NO";
      }
      objs := objs[key := doc];
      SAdd(subKey, key);
      Publish(w);
      reply := "OK";
    }

    // ----- Mutations -----

    /** Redis key and subscription key are taken before TagInit and OnCreate, as the code takes them. */
    method Create(obj: TrackedObject, newId: Id) returns (ok: bool)
      requires obj.Valid()
      modifies this, obj
      ensures obj.Model() == CreateHandle(old(obj.Model()), newId, obj.onCreate)
      ensures obj.state == O.DoPairAll(O.PairOf(old(obj.Model())), obj.onCreate).effective && obj.diff == map[]
      ensures ok ==> RR.KeyFor(old(obj.Model())) in objs && HoldsNow(objs[RR.KeyFor(old(obj.Model()))], obj)
      ensures ok ==> var early := O.GetSubKey(old(obj.Model()));
                     && RR.KeyFor(old(obj.Model())) in RR.Members(sets, early)
                     && published == old(published) +
                          [Wire(early, None, Add(obj.tag.id, obj.state, early, None, obj.tag.v, O.TypeKey(obj.kind)))]
      ensures State() == RR.StoreNew(old(State()), old(obj.Model()), newId, obj.onCreate)
      ensures ok <==> RR.KeyFor(old(obj.Model())) !in old(objs)
    {
      hide O.KeyOf, O.Valid, O.DoAll, O.DoPairAll, RedisKey;
      CreateCommits(obj.Model(), newId, obj.onCreate);
      var subKey := O.GetSubKey(obj.Model());
      var typeKey := O.TypeKey(obj.kind);
      var redisKey := RR.KeyFor(obj.Model());
      obj.TagInit(typeKey, newId);
      TagInitValid(old(obj.Model()), newId);
      obj.OnCreate();
      var _ := obj.Resolve();
      var subscription := O.GetSubKey(obj.Model());
      obj.TagSetSub(subscription);
      var state := obj.StatePointers();
      var msg := Add(obj.tag.id, Deref(state), subKey, None, obj.tag.v, typeKey);
      var reply := SetAndPublish(redisKey, subKey, RR.Encoded(obj.Model()), Wire(subKey, None, msg));
      ok := reply == "OK";
    }

    method Modify(obj: TrackedObject)
      requires obj.Valid()
      modifies this, obj
      ensures obj.Model() == O.Resolve(old(obj.Model()))
      ensures RR.KeyFor(old(obj.Model())) in objs && HoldsNow(objs[RR.KeyFor(old(obj.Model()))], obj)
      ensures State() == RR.StoreModified(old(State()), old(obj.Model()))
    {
      hide O.KeyOf, O.Valid, RedisKey, RR.SAdd, RR.SRem;
      ghost var before := obj.Model();
      var psk := O.GetPrevSubKey(obj.Model());
      var nsk := O.GetSubKey(obj.Model());
      var id := obj.tag.id;
      var redisKey := RR.KeyFor(obj.Model());
      var simple := psk == nsk;
      var diff := obj.Resolve();
      var mod := Mod(id, Deref(diff), psk, if simple then None else OmitEmpty(nsk), obj.tag.v);
      assert mod == ModMsg(before);
      var doc := RR.Encoded(obj.Model());
      hide ModMsg, RR.Encoded;
      if simple {
        SAdd(nsk, redisKey);
        objs := objs[redisKey := doc];
        Publish(Wire(psk, None, mod));
        return;
      }
      var state := obj.StatePointers();
      var add := Add(id, Deref(state), nsk, OmitEmpty(psk), obj.tag.v, O.TypeKey(obj.kind));
      assert add == MoveAddMsg(before);
      hide MoveAddMsg;
      SRem(psk, redisKey);
      SAdd(nsk, redisKey);
      objs := objs[redisKey := doc];
      Publish(Wire(psk, None, mod));
      Publish(Wire(nsk, Some(psk), add));
    }

    method Delete(obj: TrackedObject)
      requires obj.Valid()
      modifies this
      ensures State() == RR.StoreDeleted(old(State()), obj.Model())
      ensures |published| > 0
              && published[|published| - 1].msg == Rem(obj.tag.id, O.GetPrevSubKey(obj.Model()), O.TypeKey(obj.kind))
    {
      hide O.KeyOf, O.Valid, RedisKey;
      var psk := O.GetPrevSubKey(obj.Model());
      var msg := Rem(obj.tag.id, psk, O.TypeKey(obj.kind));
      var redisKey := RR.KeyFor(obj.Model());
      SRem(psk, redisKey);
      objs := objs - {redisKey};
      Publish(Wire(psk, None, msg));
    }

    // ----- Loading -----

    /** SUNION: the members of the union, each once, in some order. It fails when given no keys. */
    method SUnion(keys: seq<Key>) returns (ids: Option<seq<string>>)
      ensures ids.None? <==> keys == []
      ensures ids.Some? ==>
                && (set rk | rk in ids.value) == RR.Union(sets, keys)
                && forall i, j :: 0 <= i < j < |ids.value| ==> ids.value[i] != ids.value[j]
    {
      if keys == [] {
        return None;
      }
      var union := RR.Union(sets, keys);
      var left := union;
      var found := [];
      while left != {}
        invariant left <= union
        invariant forall rk <- union :: rk in left || rk in found
        invariant forall rk <- found :: rk in union && rk !in left
        invariant forall i, j :: 0 <= i < j < |found| ==> found[i] != found[j]
        decreases left
      {
        var rk :| rk in left;
        assert rk !in found;
        found := found + [rk];
        left := left - {rk};
      }
      ids := Some(found);
    }

    /** RedisRequestByteSlices: the keys, and beside each what MGET finds there. */
    method RequestByteSlices(subKeys: seq<Key>) returns (r: Option<(seq<string>, seq<Option<Doc>>)>)
      ensures r.None? <==> subKeys == []
      ensures r.Some? ==>
                && |r.value.0| == |r.value.1|
                && (set rk | rk in r.value.0) == RR.Union(sets, subKeys)
                && (forall i, j :: 0 <= i < j < |r.value.0| ==> r.value.0[i] != r.value.0[j])
                && forall i :: 0 <= i < |r.value.0| ==>
                     r.value.1[i] == if r.value.0[i] in objs then Some(objs[r.value.0[i]]) else None
    {
      var ids := SUnion(subKeys);
      match ids
      case None => r := None;
      case Some(keys) =>
        var vals := seq(|keys|, i requires 0 <= i < |keys| reads this =>
          if keys[i] in objs then Some(objs[keys[i]]) else None);
        r := Some((keys, vals));
    }

    /**
     RedisRequestObjects makes one object of every object stored under the given keys, equal to what was
     stored and with nothing pending. It fails exactly when given no keys or when it meets a type
     without a container.
     */
    method RequestObjects(subKeys: seq<Key>) returns (r: Option<seq<TrackedObject>>)
      requires Loadable(objs) && RR.Indexed(sets, objs)
      ensures r.None? <==> subKeys == [] || exists rk :: rk in RR.Union(sets, subKeys) && O.Creator(TypePart(rk)).None?
      ensures r.Some? ==> fresh(set o | o in r.value)
      ensures r.Some? ==> exists keys: seq<string> ::
                && |keys| == |r.value|
                && (set rk | rk in keys) == (set rk | rk in objs && DocKey(objs[rk]) in subKeys)
                && (forall i, j :: 0 <= i < j < |keys| ==> keys[i] != keys[j])
                && forall i :: 0 <= i < |keys| ==>
                     && keys[i] in objs && r.value[i].Valid()
                     && r.value[i].Model() == O.Handle(objs[keys[i]].kind, objs[keys[i]].tag, objs[keys[i]].state, map[])
    {
      hide DocKey, O.Valid, O.Fields, O.Creator, TypePart, RR.Union, RR.Indexed;
      var slices := RequestByteSlices(subKeys);
      match slices
      case None => r := None;
      case Some((keys, vals)) =>
        UnionPresent(subKeys);
        var results: seq<TrackedObject> := [];
        for n := 0 to |keys|
          invariant |results| == n && fresh(set o | o in results)
          invariant forall k :: 0 <= k < n ==> O.Creator(TypePart(keys[k])).Some?
          invariant forall i :: 0 <= i < n ==>
                      && keys[i] in objs && results[i].Valid()
                      && results[i].Model() == O.Handle(objs[keys[i]].kind, objs[keys[i]].tag, objs[keys[i]].state, map[])
        {
          assert keys[n] in RR.Union(sets, subKeys);
          match O.Creator(TypePart(keys[n]))
          case None =>
            return None;
          case Some(kind) =>
            var doc := vals[n].value;
            var container := new TrackedObject(kind, doc.tag, doc.state, []);
            results := results + [container];
        }
        r := Some(results);
    }

    lemma UnionPresent(subKeys: seq<Key>)
      requires RR.Indexed(sets, objs)
      ensures RR.Union(sets, subKeys) == set rk | rk in objs && DocKey(objs[rk]) in subKeys
    {
      RR.UnionIsScan(State(), subKeys);
    }
  }
}

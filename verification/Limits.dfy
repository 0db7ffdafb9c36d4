/** Runs on which a client does not converge: each case of Convergence.Escapes and GoesWrongIff is reached. */
module Limits {
  import opened Base
  import opened Objects
  import opened Mutations
  import opened MongoRuns
  import opened Replicas
  import R = Replication
  import opened Convergence

  // ----- An orc created under "a", which moves to "b" and then to "c" -----

  function OrcUnder(key: Key): State {
    map[ID := Str(""), SubKey := Str(key), Name := Str("")]
  }

  const NEW_ORC := Handle(Orc, Tag("grish", "", "", 0), OrcUnder("a"), map[])
  const ORC := Handle(Orc, Tag("grish", "a", "c:o", 1), OrcUnder("a"), map[])
  const ORC_MOVING := ORC.(pending := map[SubKey := Str("b")])
  const ORC_MOVED := Handle(Orc, Tag("grish", "b", "c:o", 2), OrcUnder("b"), map[])
  const ORC_LEAVING := ORC_MOVED.(pending := map[SubKey := Str("c")])
  const ORC_GONE := Handle(Orc, Tag("grish", "c", "c:o", 3), OrcUnder("c"), map[])

  const CREATE := Create(NEW_ORC, "r", [])
  const SET := Change("grish", Assign(SubKey, Str("b")))
  const SET_AGAIN := Change("grish", Assign(SubKey, Str("c")))
  const MODIFY := Modify("grish")

  const CREATED := Mongo(map["grish" := ORC], map["grish" := Stored(ORC)], {}, CreateWires(ORC, "a"))
  const MOVING := CREATED.(owned := map["grish" := ORC_MOVING])
  const MOVED := Mongo(map["grish" := ORC_MOVED], map["grish" := Stored(ORC_MOVED)], {},
                       CreateWires(ORC, "a") + ModifyWires(ORC_MOVING))
  const LEAVING := MOVED.(owned := map["grish" := ORC_LEAVING])
  const GONE := Mongo(map["grish" := ORC_GONE], map["grish" := Stored(ORC_GONE)], {},
                      MOVED.published + ModifyWires(ORC_LEAVING))

  lemma OrcKeys()
    ensures GetSubKey(ORC) == GetPrevSubKey(ORC) == DocKey(Stored(ORC)) == "a"
    ensures GetPrevSubKey(ORC_MOVING) == "a" && GetSubKey(ORC_MOVING) == "b"
    ensures GetPrevSubKey(ORC_LEAVING) == DocKey(Stored(ORC_MOVED)) == "b"
    ensures GetSubKey(ORC_LEAVING) == DocKey(Stored(ORC_GONE)) == "c"
  {}

  lemma Creates()
    ensures Enabled(EMPTY, CREATE) && Perform(EMPTY, CREATE) == CREATED
  {
    assert Fields(Orc) == {ID, SubKey, Name};
    assert DoAll(TagInit(NEW_ORC, "r"), []) == TagInit(NEW_ORC, "r");
    assert Effective(TagInit(NEW_ORC, "r")) == OrcUnder("a");
    assert CreateHandle(NEW_ORC, "r", []) == ORC;
  }

  lemma Sets()
    ensures Enabled(CREATED, SET) && Perform(CREATED, SET) == MOVING
  {
    assert Fields(Orc) == {ID, SubKey, Name};
    assert SetField(ORC, SubKey, Str("b")) == ORC_MOVING;
  }

  lemma Moves()
    ensures Enabled(MOVING, MODIFY) && Perform(MOVING, MODIFY) == MOVED
    ensures R.Publishable(ORC_MOVING)
  {
    OrcKeys();
    assert Effective(ORC_MOVING) == OrcUnder("b");
    hide KeyOf;
    assert ModifyHandle(ORC_MOVING) == ORC_MOVED;
  }

  lemma SetsAgain()
    ensures Enabled(MOVED, SET_AGAIN) && Perform(MOVED, SET_AGAIN) == LEAVING
  {
    assert Fields(Orc) == {ID, SubKey, Name};
    assert SetField(ORC_MOVED, SubKey, Str("c")) == ORC_LEAVING;
  }

  lemma Leaves()
    ensures Enabled(LEAVING, MODIFY) && Perform(LEAVING, MODIFY) == GONE
    ensures R.Publishable(ORC_LEAVING)
  {
    OrcKeys();
    assert Effective(ORC_LEAVING) == OrcUnder("c");
    hide KeyOf;
    assert ModifyHandle(ORC_LEAVING) == ORC_GONE;
  }

  // ----- Runs with one client -----

  /** What can be seen of a client. */
  datatype Look = Look(subs: set<Key>, loading: Option<set<Key>>, direct: seq<Msg>, queue: seq<Msg>, replica: Replica)

  /** The run leads from the start to this database and a client, number 0, that looks so. */
  ghost predicate Reaches(run: seq<R.Action>, db: Mongo, p: Look) {
    && R.EnabledRun(R.INITIAL, run)
    && var s := R.After(R.INITIAL, run);
    && s.db == db && s.clients.Keys == {0}
    && var c := s.clients[0];
    p == Look(c.subs, c.loading, c.direct, c.queue, c.replica)
  }

  lemma ConnectFirst() returns (run: seq<R.Action>)
    ensures Reaches(run, EMPTY, Look({}, None, [], [], map[]))
  {
    R.NoSteps(R.INITIAL);
    R.Extend(R.INITIAL, [], R.Connect(0));
    run := [] + [R.Connect(0)];
  }

  lemma ThenMutate(run: seq<R.Action>, db: Mongo, p: Look, op: Op, db': Mongo, p': Look) returns (run': seq<R.Action>)
    requires Reaches(run, db, p) && Enabled(db, op) && (op.Modify? ==> R.Publishable(db.owned[op.id]))
    requires Perform(db, op) == db'
    requires p' == p.(queue := p'.queue) && p'.queue == p.queue + Delivered(p.subs, Wires(db, op))
    ensures Reaches(run', db', p')
  {
    hide Perform, Enabled, Wires, R.Publishable, R.EnabledRun, R.After, Delivered;
    R.Extend(R.INITIAL, run, R.Mutate(op));
    run' := run + [R.Mutate(op)];
  }

  lemma ThenSubscribe(run: seq<R.Action>, db: Mongo, p: Look, add: set<Key>, remove: set<Key>, p': Look)
    returns (run': seq<R.Action>)
    requires Reaches(run, db, p) && p.loading.None? && p.direct == []
    requires p'.subs == p.subs - remove + add && p'.loading == if add == {} then None else Some(add)
    requires p'.direct == [] && p'.queue == p.queue && p'.replica == Forget(p.replica, remove)
    ensures Reaches(run', db, p')
  {
    hide R.EnabledRun, R.After, R.Loses, R.Haunts;
    R.Extend(R.INITIAL, run, R.Subscribe(0, add, remove));
    run' := run + [R.Subscribe(0, add, remove)];
  }

  /** A load that finds nothing. */
  lemma ThenLoadNothing(run: seq<R.Action>, db: Mongo, p: Look) returns (run': seq<R.Action>)
    requires Reaches(run, db, p) && p.loading.Some? && p.direct == [] && FoundBySub(db.store, p.loading.value) == {}
    ensures Reaches(run', db, p.(loading := None))
  {
    hide R.EnabledRun, R.After;
    R.Extend(R.INITIAL, run, R.Load(0, []));
    run' := run + [R.Load(0, [])];
  }

  lemma ThenDrain(run: seq<R.Action>, db: Mongo, p: Look, m: Msg, p': Look) returns (run': seq<R.Action>)
    requires Reaches(run, db, p) && p.loading.None? && p.direct == [] && p.queue == [m]
    requires p' == p.(queue := [], replica := p'.replica) && p'.replica == Apply(p.replica, p.subs, m)
    ensures Reaches(run', db, p')
  {
    hide R.EnabledRun, R.After, Apply;
    R.Extend(R.INITIAL, run, R.Drain(0));
    run' := run + [R.Drain(0)];
  }

  /** The client has nothing pending, holds `held` and should hold `wanted`. */
  ghost predicate EndsWith(run: seq<R.Action>, held: Replica, wanted: Replica) {
    && R.EnabledRun(R.INITIAL, run)
    && var s := R.After(R.INITIAL, run);
    && 0 in s.clients && R.Pending(s.clients[0]) == [] && s.clients[0].loading.None?
    && s.clients[0].replica == held && Wanted(s, 0) == wanted
  }

  lemma Ends(run: seq<R.Action>, db: Mongo, p: Look)
    requires Reaches(run, db, p) && p.loading.None? && p.direct == [] && p.queue == []
    ensures EndsWith(run, p.replica, View(db.store, p.subs))
  {
    hide R.EnabledRun, R.After, View;
  }

  /** The client has subscribed to `keys` before there was anything. */
  lemma Subscribed(keys: set<Key>) returns (run: seq<R.Action>)
    requires keys != {}
    ensures Reaches(run, EMPTY, Look(keys, None, [], [], map[]))
  {
    run := ConnectFirst();
    run := ThenSubscribe(run, EMPTY, Look({}, None, [], [], map[]), keys, {}, Look(keys, Some(keys), [], [], map[]));
    run := ThenLoadNothing(run, EMPTY, Look(keys, Some(keys), [], [], map[]));
  }

  // The orc's messages, and what a browser makes of them.

  const ADDED := CreateWires(ORC, "a")[0].msg
  const MOVED_MSG := ModMsg(ORC_MOVING)
  const AT_A: Replica := map["grish" := HeldOf(Stored(ORC))]
  const AT_B: Replica := map["grish" := HeldOf(Stored(ORC_MOVED))]

  lemma Told(subs: set<Key>)
    ensures Delivered(subs, CreateWires(ORC, "a")) == if "a" in subs then [ADDED] else []
    ensures "a" in subs ==> Delivered(subs, ModifyWires(ORC_MOVING)) == [MOVED_MSG]
    ensures "b" !in subs && "c" !in subs ==> Delivered(subs, ModifyWires(ORC_LEAVING)) == []
    ensures Delivered(subs, []) == []
  {
    OrcKeys();
    hide KeyOf;
    OneWireDelivered(subs, CreateWires(ORC, "a")[0]);
    ModifyReachesOnce(subs, ORC_MOVING);
    ModifyReachesOnce(subs, ORC_LEAVING);
  }

  lemma ThenCreate(run: seq<R.Action>, p: Look, p': Look) returns (run': seq<R.Action>)
    requires Reaches(run, EMPTY, p) && p.queue == []
    requires p' == p.(queue := p'.queue) && p'.queue == if "a" in p.subs then [ADDED] else []
    ensures Reaches(run', CREATED, p')
  {
    Creates();
    Told(p.subs);
    assert CreateHandle(NEW_ORC, "r", []) == ORC by {
      assert Perform(EMPTY, CREATE).owned["grish"] == CREATED.owned["grish"];
      assert Perform(EMPTY, CREATE).published == CREATED.published;
    }
    hide Reaches, KeyOf, Enabled, Perform;
    run' := ThenMutate(run, EMPTY, p, CREATE, CREATED, p');
  }

  /** The orc moves from "a" to "b", seen by a client that watches "a". */
  lemma ThenMove(run: seq<R.Action>, p: Look) returns (run': seq<R.Action>)
    requires Reaches(run, CREATED, p) && "a" in p.subs && p.queue == []
    ensures Reaches(run', MOVED, p.(queue := [MOVED_MSG]))
  {
    Sets();
    Moves();
    Told(p.subs);
    hide Reaches, KeyOf, Enabled, Perform;
    run' := ThenMutate(run, CREATED, p, SET, MOVING, p);
    run' := ThenMutate(run', MOVING, p, MODIFY, MOVED, p.(queue := [MOVED_MSG]));
  }

  /** It moves on to "c", unseen. */
  lemma ThenLeave(run: seq<R.Action>, p: Look) returns (run': seq<R.Action>)
    requires Reaches(run, MOVED, p) && "b" !in p.subs && "c" !in p.subs
    ensures Reaches(run', GONE, p)
  {
    SetsAgain();
    Leaves();
    Told(p.subs);
    hide Reaches, KeyOf, Enabled, Perform;
    run' := ThenMutate(run, MOVED, p, SET_AGAIN, LEAVING, p);
    run' := ThenMutate(run', LEAVING, p, MODIFY, GONE, p);
  }

  lemma WhatBrowsersMakeOfIt(subs: set<Key>)
    ensures Apply(map[], subs, ADDED) == AT_A && Apply(map[], subs, MOVED_MSG) == map[]
    ensures "b" in subs ==> Apply(AT_A, subs, MOVED_MSG) == AT_B
    ensures Forget(map[], subs) == map[] && Forget(AT_A, {}) == AT_A && Forget(AT_A, {"a"}) == map[]
  {
    OrcKeys();
    hide KeyOf;
    assert MOVED_MSG == Mod("grish", map[SubKey := Str("b")], "a", Some("b"), 2);
    assert OrcUnder("a") + map[SubKey := Str("b")] == OrcUnder("b");
    assert HeldOf(Stored(ORC)) == Held("a", OrcUnder("a"), 1, "c:o");
    assert HeldOf(Stored(ORC_MOVED)) == Held("b", OrcUnder("b"), 2, "c:o");
  }

  lemma OneStored(store: map<Id, Doc>, d: Doc, subs: set<Key>)
    requires store == map["grish" := d]
    ensures View(store, subs) == if DocKey(d) in subs then map["grish" := HeldOf(d)] else map[]
    ensures d.tag.sub !in subs ==> FoundBySub(store, subs) == {}
  {
    hide DocKey, HeldOf;
  }

  lemma WhatStoresHold(subs: set<Key>)
    ensures View(CREATED.store, {}) == View(GONE.store, {"a", "b"}) == map[]
    ensures "b" in subs ==> View(MOVED.store, subs) == AT_B
    ensures FoundBySub(MOVED.store, {"a"}) == FoundBySub(GONE.store, {"b"}) == {}
  {
    OrcKeys();
    hide KeyOf, View, FoundBySub, HeldOf;
    OneStored(CREATED.store, Stored(ORC), {});
    OneStored(GONE.store, Stored(ORC_GONE), {"a", "b"});
    OneStored(GONE.store, Stored(ORC_GONE), {"b"});
    OneStored(MOVED.store, Stored(ORC_MOVED), subs);
    OneStored(MOVED.store, Stored(ORC_MOVED), {"a"});
  }

  // ----- The four ways to go wrong -----

  /**
   Lost in the window. The client watches "b" and adds "a"; before the load the orc moves from "a" to "b".
   Its add message is filtered, the load of "a" misses it, and the queued mod finds nothing.
   */
  lemma WindowMoveLosesObject() returns (run: seq<R.Action>)
    ensures EndsWith(run, map[], AT_B)
  {
    WhatBrowsersMakeOfIt({"a", "b"});
    WhatBrowsersMakeOfIt({});
    WhatStoresHold({"a", "b"});
    hide Reaches, EndsWith, KeyOf, View, Apply, Forget, FoundBySub;
    var p := Look({"b"}, None, [], [], map[]);
    var q := Look({"a", "b"}, Some({"a"}), [], [], map[]);
    run := Subscribed({"b"});
    run := ThenCreate(run, p, p);
    run := ThenSubscribe(run, CREATED, p, {"a"}, {}, q);
    run := ThenMove(run, q);
    run := ThenLoadNothing(run, MOVED, q.(queue := [MOVED_MSG]));
    run := ThenDrain(run, MOVED, q.(loading := None, queue := [MOVED_MSG]), MOVED_MSG, q.(loading := None));
    Ends(run, MOVED, q.(loading := None));
  }

  /** Added to a removed key: the add is still queued when the client gives up the key; the orc stays for good. */
  lemma QueuedAddLeavesGhost() returns (run: seq<R.Action>)
    ensures EndsWith(run, AT_A, map[])
  {
    WhatBrowsersMakeOfIt({});
    WhatBrowsersMakeOfIt({"a"});
    WhatStoresHold({});
    hide Reaches, EndsWith, KeyOf, View, Apply, Forget, FoundBySub;
    var p := Look({"a"}, None, [], [ADDED], map[]);
    run := Subscribed({"a"});
    run := ThenCreate(run, p.(queue := []), p);
    run := ThenSubscribe(run, CREATED, p, {}, {"a"}, p.(subs := {}));
    run := ThenDrain(run, CREATED, p.(subs := {}), ADDED, Look({}, None, [], [], AT_A));
    Ends(run, CREATED, Look({}, None, [], [], AT_A));
  }

  /**
   Passed through a removed key: the client holds the orc under "a", its move to "b" is queued, and the client
   gives up "a". It forgets the orc, and the queued mod finds nothing.
   */
  lemma QueuedMoveLosesObject() returns (run: seq<R.Action>)
    ensures EndsWith(run, map[], AT_B)
  {
    WhatBrowsersMakeOfIt({"a", "b"});
    WhatBrowsersMakeOfIt({"b"});
    WhatStoresHold({"b"});
    hide Reaches, EndsWith, KeyOf, View, Apply, Forget, FoundBySub;
    var p := Look({"a", "b"}, None, [], [], AT_A);
    run := Subscribed({"a", "b"});
    run := ThenCreate(run, p.(replica := map[]), p.(queue := [ADDED], replica := map[]));
    run := ThenDrain(run, CREATED, p.(queue := [ADDED], replica := map[]), ADDED, p);
    run := ThenMove(run, p);
    run := ThenSubscribe(run, MOVED, p.(queue := [MOVED_MSG]), {}, {"a"}, Look({"b"}, None, [], [MOVED_MSG], map[]));
    run := ThenDrain(run, MOVED, Look({"b"}, None, [], [MOVED_MSG], map[]), MOVED_MSG, Look({"b"}, None, [], [], map[]));
    Ends(run, MOVED, Look({"b"}, None, [], [], map[]));
  }

  /**
   Left through an added key: the orc's move from "a" to "b" is queued, it goes on to "c" unseen, and the
   client adds "b". The load of "b" finds nothing, and the queued mod now puts the orc under "b" for good.
   */
  lemma QueuedMoveLeavesGhost() returns (run: seq<R.Action>)
    ensures EndsWith(run, AT_B, map[])
  {
    WhatBrowsersMakeOfIt({"a"});
    WhatBrowsersMakeOfIt({"a", "b"});
    WhatStoresHold({});
    hide Reaches, EndsWith, KeyOf, View, Apply, Forget, FoundBySub;
    var p := Look({"a"}, None, [], [MOVED_MSG], AT_A);
    var q := Look({"a", "b"}, Some({"b"}), [], [MOVED_MSG], AT_A);
    run := Subscribed({"a"});
    run := ThenCreate(run, p.(queue := [], replica := map[]), p.(queue := [ADDED], replica := map[]));
    run := ThenDrain(run, CREATED, p.(queue := [ADDED], replica := map[]), ADDED, p.(queue := []));
    run := ThenMove(run, p.(queue := []));
    run := ThenLeave(run, p);
    run := ThenSubscribe(run, GONE, p, {"b"}, {}, q);
    run := ThenLoadNothing(run, GONE, q);
    run := ThenDrain(run, GONE, q.(loading := None), MOVED_MSG, Look({"a", "b"}, None, [], [], AT_B));
    Ends(run, GONE, Look({"a", "b"}, None, [], [], AT_B));
  }
}

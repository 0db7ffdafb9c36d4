/**
 Whole runs of the replication protocol: one store, any number of objects and of clients.

 Hypotheses, all in `Enabled`:
 - those of MongoRuns (single owner, fresh IDs, atomic write and publish);
 - a published message reaches the queue of every subscribed client in the same step, in order;
 - changing the `subscriptions` map and the pub/sub membership is one step, and the browser
   forgets the removed keys in that step, whatever is pending; the main loop takes nothing from the
   queue between that change and the load it triggers;
 - no object moves to the empty key, or out of a key that holds `{`.
 */
module Replication {
  import opened Base
  import opened Objects
  import opened Mutations
  import MongoRuns
  import opened Replicas

  datatype Client = Client(
    subs: set<Key>,
    loading: Option<set<Key>>,   // added keys whose objects are still to be loaded
    direct: seq<Msg>,            // loaded objects still to be written, ahead of the queue
    queue: seq<Msg>,             // toWebSocket
    replica: Replica,            // what the browser holds
    blind: set<Id>,              // history: watched objects it is not going to hold
    ghosts: set<Id>)             // history: objects it is going to hold otherwise than it should

  const FRESH := Client({}, None, [], [], map[], {}, {})

  datatype System = System(db: MongoRuns.Mongo, past: Past, clients: map<nat, Client>)

  const INITIAL := System(MongoRuns.EMPTY, map[], map[])

  datatype Action =
    | Mutate(op: MongoRuns.Op)
    | Connect(c: nat)
    | Disconnect(c: nat)
    | Subscribe(c: nat, add: set<Key>, remove: set<Key>)
    | Load(c: nat, docs: seq<Doc>)
    | WriteLoaded(c: nat)
    | Drain(c: nat)

  function Pending(c: Client): seq<Msg> {
    c.direct + c.queue
  }

  // ----- Steps -----

  predicate Publishable(h: Handle) {
    Simple(h) || (GetSubKey(h) != "" && '{' !in GetPrevSubKey(h))
  }

  /** `docs` lists, in some order, the documents under `keys`, as the store's query finds them. */
  ghost predicate Lists(store: map<Id, Doc>, keys: set<Key>, docs: seq<Doc>) {
    && (forall d <- docs :: exists id :: id in MongoRuns.FoundBySub(store, keys) && store[id] == d)
    && (forall id <- MongoRuns.FoundBySub(store, keys) :: store[id] in docs)
  }

  function Receive(c: Client, ws: seq<Wire>): Client {
    c.(queue := c.queue + Delivered(c.subs, ws))
  }

  /** The committed version after a step on object `id` joins the past. */
  function Remember(past: Past, store: map<Id, Doc>, id: Id): Past {
    if id in store then past[(id, store[id].tag.v) := HeldOf(store[id])] else past
  }

  predicate Under(store: map<Id, Doc>, id: Id, keys: set<Key>) {
    id in store && DocKey(store[id]) in keys
  }

  /** A missing object stays missing while it is under a watched key: mods find nothing to change. */
  function StillBlind(blind: set<Id>, subs: set<Key>, store: map<Id, Doc>): set<Id> {
    set id | id in blind && Under(store, id, subs)
  }

  /** An outdated copy ignores every mod; an add or a rem puts it right. */
  function StillGhosts(ghosts: set<Id>, ms: seq<Msg>): set<Id> {
    set id | id in ghosts && forall m <- ms :: m.id == id ==> m.Mod?
  }

  /** updateSubscription deletes the removed keys, then sets the added ones. */
  function NewSubs(subs: set<Key>, add: set<Key>, remove: set<Key>): set<Key> {
    subs - remove + add
  }

  /** Where the queue leads, on one object, once what is held under the removed keys is forgotten. */
  function CourseOf(c: Client, remove: set<Key>, id: Id): Option<Course> {
    Follow(Start(Slot(Forget(c.replica, remove), id)), c.queue, id)
  }

  /**
   The change of subscriptions loses the object: it is under a key then watched, and the queue leads to no
   copy of it, or to one that moved through a key that is not watched.
   */
  predicate Loses(c: Client, add: set<Key>, remove: set<Key>, store: map<Id, Doc>, id: Id) {
    var t, subs := CourseOf(c, remove, id), NewSubs(c.subs, add, remove);
    Under(store, id, subs) && (t.None? || !(t.value.moves <= subs))
  }

  /**
   The change of subscriptions leaves a ghost: the queue leads to a copy that moved through watched keys
   only, and the object is not, or is no longer, under a key then watched at that version.
   */
  predicate Haunts(c: Client, add: set<Key>, remove: set<Key>, store: map<Id, Doc>, id: Id) {
    var t, subs := CourseOf(c, remove, id), NewSubs(c.subs, add, remove);
    && t.Some? && t.value.moves <= subs
    && !(Under(store, id, subs) && store[id].tag.v == t.value.held.version)
  }

  /** The objects a client holds or has messages about. */
  function Heard(c: Client): set<Id> {
    c.replica.Keys + set m | m in c.queue :: m.id
  }

  ghost predicate Enabled(s: System, a: Action) {
    match a
    case Mutate(op) =>
      && MongoRuns.Enabled(s.db, op)
      && (op.Modify? ==> Publishable(s.db.owned[op.id]))
    case Connect(c) => c !in s.clients
    case Disconnect(c) => c in s.clients
    case Subscribe(c, add, remove) =>
      c in s.clients && s.clients[c].loading.None? && s.clients[c].direct == []
    case Load(c, docs) =>
      && c in s.clients && s.clients[c].loading.Some?
      && Lists(s.db.store, s.clients[c].loading.value, docs)
    case WriteLoaded(c) => c in s.clients && s.clients[c].direct != []
    case Drain(c) =>
      && c in s.clients && s.clients[c].loading.None?
      && s.clients[c].direct == [] && s.clients[c].queue != []
  }

  function AfterMutation(c: Client, ws: seq<Wire>, store: map<Id, Doc>): Client {
    Receive(c, ws).(blind := StillBlind(c.blind, c.subs, store),
                    ghosts := StillGhosts(c.ghosts, Delivered(c.subs, ws)))
  }

  function AfterSubscribe(c: Client, add: set<Key>, remove: set<Key>, store: map<Id, Doc>): Client {
    c.(subs := NewSubs(c.subs, add, remove),
       loading := if add == {} then None else Some(add),
       replica := Forget(c.replica, remove),
       blind := (set id | id in store && Loses(c, add, remove, store, id)),
       ghosts := set id | id in Heard(c) && Haunts(c, add, remove, store, id))
  }

  /** The objects that are under the loaded keys by then are put right. */
  function AfterLoad(c: Client, docs: seq<Doc>, store: map<Id, Doc>): Client
    requires c.loading.Some?
  {
    c.(loading := None,
       direct := Snapshot(docs),
       blind := (set id | id in c.blind && !Under(store, id, c.loading.value)),
       ghosts := set id | id in c.ghosts && !Under(store, id, c.loading.value))
  }

  function AfterWrite(c: Client): Client
    requires c.direct != []
  {
    c.(direct := c.direct[1..], replica := Apply(c.replica, c.subs, c.direct[0]))
  }

  function AfterDrain(c: Client): Client
    requires c.queue != []
  {
    c.(queue := c.queue[1..], replica := Apply(c.replica, c.subs, c.queue[0]))
  }

  ghost function Next(s: System, a: Action): System
    requires Enabled(s, a)
  {
    match a
    case Mutate(op) =>
      var db := MongoRuns.Perform(s.db, op);
      var ws := MongoRuns.Wires(s.db, op);
      System(db, Remember(s.past, db.store, MongoRuns.Target(op)),
             map c | c in s.clients :: AfterMutation(s.clients[c], ws, db.store))
    case Connect(c) => s.(clients := s.clients[c := FRESH])
    case Disconnect(c) => s.(clients := s.clients - {c})
    case Subscribe(c, add, remove) =>
      s.(clients := s.clients[c := AfterSubscribe(s.clients[c], add, remove, s.db.store)])
    case Load(c, docs) => s.(clients := s.clients[c := AfterLoad(s.clients[c], docs, s.db.store)])
    case WriteLoaded(c) => s.(clients := s.clients[c := AfterWrite(s.clients[c])])
    case Drain(c) => s.(clients := s.clients[c := AfterDrain(s.clients[c])])
  }

  ghost predicate EnabledRun(s: System, run: seq<Action>)
    decreases |run|, 0
  {
    run == [] ||
    (EnabledRun(s, run[..|run| - 1]) && Enabled(After(s, run[..|run| - 1]), run[|run| - 1]))
  }

  ghost function After(s: System, run: seq<Action>): System
    requires EnabledRun(s, run)
    decreases |run|, 1
  {
    if run == [] then s else Next(After(s, run[..|run| - 1]), run[|run| - 1])
  }

  lemma {:induction false} Extend(s: System, run: seq<Action>, a: Action)
    requires EnabledRun(s, run) && Enabled(After(s, run), a)
    ensures EnabledRun(s, run + [a]) && After(s, run + [a]) == Next(After(s, run), a)
  {
    assert (run + [a])[..|run + [a]| - 1] == run;
  }

  lemma {:induction false} LastStep(s: System, run: seq<Action>)
    requires EnabledRun(s, run) && run != []
    ensures var init := run[..|run| - 1];
            && EnabledRun(s, init) && Enabled(After(s, init), run[|run| - 1])
            && After(s, run) == Next(After(s, init), run[|run| - 1])
  {}

  lemma {:induction false} NoSteps(s: System)
    ensures EnabledRun(s, []) && After(s, []) == s
  {}

  lemma {:induction false} Concat(s: System, run: seq<Action>, more: seq<Action>)
    requires EnabledRun(s, run) && EnabledRun(After(s, run), more)
    ensures EnabledRun(s, run + more) && After(s, run + more) == After(After(s, run), more)
    decreases |more|
  {
    hide Enabled, Next, EnabledRun, After;
    if more == [] {
      assert run + more == run;
      NoSteps(After(s, run));
    } else {
      var init, a := more[..|more| - 1], more[|more| - 1];
      LastStep(After(s, run), more);
      Concat(s, run, init);
      Extend(s, run + init, a);
      assert run + more == run + init + [a];
    }
  }

  // ----- The invariant -----

  /** The past holds every object as it is now, and nothing newer. */
  ghost predicate PastInv(db: MongoRuns.Mongo, past: Past) {
    && (forall id <- db.store :: Committed(past, id, HeldOf(db.store[id])))
    && (forall k <- past :: past[k].version == k.1 && k.0 in db.store.Keys + db.retired)
    && (forall k <- past :: k.0 in db.store ==> k.1 <= db.store[k.0].tag.v)
  }

  ghost predicate Sound(db: MongoRuns.Mongo, past: Past, m: Msg) {
    Truthful(past, m) && (m.Rem? ==> m.id in db.retired)
  }

  /** What the client is going to hold of an object, once all that is pending is written. */
  function Outcome(c: Client, id: Id): Option<Held> {
    ReplaySlot(Slot(c.replica, id), c.subs, Pending(c), id)
  }

  /** What it should hold. */
  function Want(store: map<Id, Doc>, subs: set<Key>, id: Id): Option<Held> {
    DocHeld(Slot(store, id), subs)
  }

  /** Replaying what is pending gives the committed view, except on exactly the blind objects and the ghosts. */
  ghost predicate Heading(db: MongoRuns.Mongo, c: Client, id: Id) {
    var o, want := Outcome(c, id), Want(db.store, c.subs, id);
    && (id in c.blind <==> o.None? && want.Some?)
    && (id in c.ghosts <==> o.Some? && o != want)
  }

  ghost predicate ClientInv(db: MongoRuns.Mongo, past: Past, c: Client) {
    && (forall id :: Heading(db, c, id))
    && (forall m <- Pending(c) :: Sound(db, past, m))
    && (forall id <- c.replica :: Committed(past, id, c.replica[id]))
    && Ordered(c.queue)
    && (c.loading.Some? ==> c.direct == [] && c.loading.value <= c.subs)
  }

  ghost predicate Inv(s: System) {
    MongoRuns.Inv(s.db) && PastInv(s.db, s.past) && forall c <- s.clients :: ClientInv(s.db, s.past, s.clients[c])
  }

  // ----- The past -----

  /** A committed version is not newer than the object and, if as new, is the object. */
  lemma CommittedIsNoNewer(db: MongoRuns.Mongo, past: Past, id: Id, o: Option<Held>)
    requires PastInv(db, past) && (o.Some? ==> Committed(past, id, o.value))
    ensures o.Some? ==> id in db.store.Keys + db.retired
    ensures o.Some? && id in db.store ==>
              && o.value.version <= db.store[id].tag.v
              && (o.value.version == db.store[id].tag.v ==> o.value == HeldOf(db.store[id]))
  {}

  /** One step leaves every object but its own as it was, and its own one version on, new, or gone. */
  ghost predicate StepsStore(db: MongoRuns.Mongo, db': MongoRuns.Mongo, t: Id) {
    && (forall id :: id != t ==> (id in db'.store <==> id in db.store))
    && (forall id <- db.store :: id != t ==> db'.store[id] == db.store[id])
    && db.store.Keys + db.retired <= db'.store.Keys + db'.retired
    && (t in db'.store ==>
          if t in db.store then db'.store[t] == db.store[t] || db'.store[t].tag.v == db.store[t].tag.v + 1
          else t !in db.retired)
  }

  lemma {:induction false} PerformStepsStore(db: MongoRuns.Mongo, op: MongoRuns.Op)
    requires MongoRuns.Inv(db) && MongoRuns.Enabled(db, op)
    ensures StepsStore(db, MongoRuns.Perform(db, op), MongoRuns.Target(op))
  {
    hide MongoRuns.Perform, MongoRuns.Enabled, MongoRuns.Inv;
    var db', t := MongoRuns.Perform(db, op), MongoRuns.Target(op);
    MongoRuns.StoredVersion(db, op, t);
    forall id | id != t
      ensures id in db'.store <==> id in db.store
      ensures id in db.store ==> db'.store[id] == db.store[id]
    {
      MongoRuns.StoredVersion(db, op, id);
    }
  }

  /** The past before a step is part of the past after it, to which only a newest version is added. */
  ghost predicate Grows(past: Past, past': Past) {
    && (forall k <- past :: k in past' && past'[k] == past[k])
    && (forall k <- past' :: k in past || (k.0, k.1 + 1) !in past)
  }

  lemma PastHolds(db: MongoRuns.Mongo, past: Past, db': MongoRuns.Mongo, t: Id)
    requires PastInv(db, past) && StepsStore(db, db', t)
    ensures forall id <- db'.store :: Committed(Remember(past, db'.store, t), id, HeldOf(db'.store[id]))
  {
    hide DocKey, HeldOf;
    HeldVersions(db');
    forall id <- db'.store
      ensures Committed(Remember(past, db'.store, t), id, HeldOf(db'.store[id]))
    {
      assert id != t ==> Committed(past, id, HeldOf(db.store[id]));
    }
  }

  lemma PastStays(db: MongoRuns.Mongo, past: Past, db': MongoRuns.Mongo, t: Id)
    requires PastInv(db, past) && StepsStore(db, db', t)
    ensures PastInv(db', Remember(past, db'.store, t))
  {
    PastHolds(db, past, db', t);
    HeldVersions(db');
    hide DocKey, HeldOf, Committed;
    var past' := Remember(past, db'.store, t);
    forall k <- past'
      ensures past'[k].version == k.1 && k.0 in db'.store.Keys + db'.retired
      ensures k.0 in db'.store ==> k.1 <= db'.store[k.0].tag.v
    {
      assert k in past || k == (t, db'.store[t].tag.v);
    }
  }

  lemma PastGrows(db: MongoRuns.Mongo, past: Past, db': MongoRuns.Mongo, t: Id)
    requires PastInv(db, past) && StepsStore(db, db', t)
    ensures Grows(past, Remember(past, db'.store, t))
  {
    hide DocKey, HeldOf;
    HeldVersions(db);
    if t in db.store {
      assert Committed(past, t, HeldOf(db.store[t]));
    }
  }

  lemma HeldVersions(db: MongoRuns.Mongo)
    ensures forall id <- db.store :: HeldOf(db.store[id]).version == db.store[id].tag.v
  {}

  lemma TruthfulLater(past: Past, past': Past, m: Msg)
    requires Truthful(past, m)
    requires Grows(past, past')
    ensures Truthful(past', m)
  {
    if m.Mod? {
      forall h | Committed(past', m.id, h) && h.version + 1 == m.version
        ensures Committed(past', m.id, Moved(h, m))
      {
        assert (m.id, h.version) in past';
        assert (m.id, h.version) in past;
        assert Committed(past, m.id, h);
      }
    }
  }

  // ----- Mutations -----

  /** What a mutation publishes is truthful by the time it is delivered. */
  lemma {:induction false} WiresAreSound(db: MongoRuns.Mongo, past: Past, op: MongoRuns.Op, subs: set<Key>, m: Msg)
    requires MongoRuns.Inv(db) && MongoRuns.Enabled(db, op) && PastInv(db, past)
    requires op.Modify? ==> Publishable(db.owned[op.id])
    requires m in Delivered(subs, MongoRuns.Wires(db, op))
    ensures var db' := MongoRuns.Perform(db, op);
            && Sound(db', Remember(past, db'.store, MongoRuns.Target(op)), m)
            && m.id == MongoRuns.Target(op)
            && (!m.Rem? ==> m.id in db'.store && m.version == db'.store[m.id].tag.v)
  {
    hide KeyOf, Valid, Do, DoAll, Truthful;
    var ws := MongoRuns.Wires(db, op);
    match op
    case Create(h, newId, onCreate) =>
      MongoRuns.CreatedIsRight(h, newId, onCreate);
      OneWireDelivered(subs, ws[0]);
      AddIsTruthful(past, CreateHandle(h, newId, onCreate));
    case Modify(i) =>
      assert MongoRuns.ObjectInv(db.owned[i], db.store[i], i);
      ModifyReachesOnce(subs, db.owned[i]);
      ModifyIsTruthful(past, db.owned[i]);
    case Delete(i) =>
      assert MongoRuns.ObjectInv(db.owned[i], db.store[i], i);
      OneWireDelivered(subs, ws[0]);
      RemIsTruthful(past, ws[0].msg);
    case Change(_, _) =>
      NothingDelivered(subs);
  }

  lemma AddIsTruthful(past: Past, r: Handle)
    requires r.tag.sub == GetPrevSubKey(r)
    ensures Truthful(past[(r.tag.id, r.tag.v) := HeldOf(Stored(r))], CreateWires(r, r.tag.sub)[0].msg)
  {}

  lemma ModifyIsTruthful(past: Past, h: Handle)
    requires Committed(past, h.tag.id, HeldOf(Stored(h))) && h.tag.typ == TypeKey(h.kind) && Publishable(h)
    ensures var past' := past[(h.tag.id, h.tag.v + 1) := HeldOf(Stored(ModifyHandle(h)))];
            Truthful(past', ModMsg(h)) && Truthful(past', MoveAddMsg(h))
  {
    hide KeyOf;
  }

  lemma RemIsTruthful(past: Past, m: Msg)
    requires m.Rem?
    ensures Truthful(past, m)
  {}

  lemma NothingDelivered(subs: set<Key>)
    ensures Delivered(subs, []) == []
  {}

  /** At most one message reaches a client. */
  lemma {:induction false} DeliveredOnce(db: MongoRuns.Mongo, op: MongoRuns.Op, subs: set<Key>)
    requires MongoRuns.Enabled(db, op)
    ensures |Delivered(subs, MongoRuns.Wires(db, op))| <= 1
    ensures op.Change? ==> Delivered(subs, MongoRuns.Wires(db, op)) == []
  {
    hide KeyOf, Valid, Do, DoAll;
    match op
    case Create(_, _, _) => OneWireDelivered(subs, MongoRuns.Wires(db, op)[0]);
    case Modify(i) => ModifyReachesOnce(subs, db.owned[i]);
    case Delete(_) => OneWireDelivered(subs, MongoRuns.Wires(db, op)[0]);
    case Change(_, _) => NothingDelivered(subs);
  }

  /** What a copy of the object may be before the step. */
  ghost predicate Possible(db: MongoRuns.Mongo, id: Id, o: Option<Held>) {
    && (o.Some? ==> id in db.store.Keys + db.retired)
    && (o.Some? && id in db.store ==>
          && o.value.version <= db.store[id].tag.v
          && (o.value.version == db.store[id].tag.v ==> o.value == HeldOf(db.store[id])))
  }

  /**
   What one mutation sends a client, replayed over any committed copy: a missing object stays missing
   while it is watched, an outdated copy stays outdated unless an add or a rem comes, and all else is right.
   */
  ghost predicate Meets(
      o: Option<Held>, want: Option<Held>, o': Option<Held>, want': Option<Held>, id: Id, ms: seq<Msg>)
  {
    && (o'.None? && want'.Some? <==> o.None? && want.Some? && want'.Some?)
    && (o'.Some? && o' != want' <==> o.Some? && o != want && forall m <- ms :: m.id == id ==> m.Mod?)
  }

  lemma {:induction false} MutationMeets(db: MongoRuns.Mongo, op: MongoRuns.Op, subs: set<Key>, o: Option<Held>, id: Id)
    requires MongoRuns.Inv(db) && MongoRuns.Enabled(db, op) && Possible(db, id, o)
    requires op.Modify? ==> Publishable(db.owned[op.id])
    ensures var ms := Delivered(subs, MongoRuns.Wires(db, op));
            Meets(o, Want(db.store, subs, id),
                  ReplaySlot(o, subs, ms, id), Want(MongoRuns.Perform(db, op).store, subs, id), id, ms)
  {
    hide KeyOf, Valid, Do, DoAll;
    match op
    case Create(h, newId, onCreate) => CreateMeets(db, op, subs, o, id);
    case Change(_, _) => NothingDelivered(subs);
    case Modify(i) =>
      if i == id {
        ModifyMeets(db, op, subs, o);
      } else {
        OthersSpared(db, op, subs, o, id);
      }
    case Delete(i) =>
      assert MongoRuns.ObjectInv(db.owned[i], db.store[i], i);
      OneWireDelivered(subs, MongoRuns.Wires(db, op)[0]);
      ReplayOne(o, subs, MongoRuns.Wires(db, op)[0].msg, id);
  }

  lemma {:induction false} CreateMeets(db: MongoRuns.Mongo, op: MongoRuns.Op, subs: set<Key>, o: Option<Held>, id: Id)
    requires MongoRuns.Inv(db) && MongoRuns.Enabled(db, op) && op.Create? && Possible(db, id, o)
    ensures var ms := Delivered(subs, MongoRuns.Wires(db, op));
            Meets(o, Want(db.store, subs, id),
                  ReplaySlot(o, subs, ms, id), Want(MongoRuns.Perform(db, op).store, subs, id), id, ms)
  {
    hide KeyOf, Valid, Do, DoAll;
    MongoRuns.CreatedIsRight(op.h, op.newId, op.onCreate);
    OneWireDelivered(subs, MongoRuns.Wires(db, op)[0]);
    ReplayOne(o, subs, MongoRuns.Wires(db, op)[0].msg, id);
  }

  lemma {:induction false} ModifyMeets(db: MongoRuns.Mongo, op: MongoRuns.Op, subs: set<Key>, o: Option<Held>)
    requires MongoRuns.Inv(db) && MongoRuns.Enabled(db, op) && op.Modify? && Publishable(db.owned[op.id])
    requires Possible(db, op.id, o)
    ensures var ms := Delivered(subs, MongoRuns.Wires(db, op));
            Meets(o, Want(db.store, subs, op.id),
                  ReplaySlot(o, subs, ms, op.id), Want(MongoRuns.Perform(db, op).store, subs, op.id), op.id, ms)
  {
    hide KeyOf, Valid, Do, DoAll;
    var h := db.owned[op.id];
    assert MongoRuns.ObjectInv(h, db.store[op.id], op.id);
    MongoRuns.ModifiedIsRight(h);
    ModifyReachesOnce(subs, h);
    if o == Want(db.store, subs, op.id) {
      ModifyUpdatesView(h, subs);
    } else {
      ModifyOfOutdated(h, o, subs);
    }
  }

  lemma {:induction false} OthersSpared(db: MongoRuns.Mongo, op: MongoRuns.Op, subs: set<Key>, o: Option<Held>, id: Id)
    requires MongoRuns.Inv(db) && MongoRuns.Enabled(db, op) && op.Modify? && id != op.id
    ensures var ms := Delivered(subs, MongoRuns.Wires(db, op));
            Meets(o, Want(db.store, subs, id),
                  ReplaySlot(o, subs, ms, id), Want(MongoRuns.Perform(db, op).store, subs, id), id, ms)
  {
    hide KeyOf, Valid, Do, DoAll;
    var h := db.owned[op.id];
    assert MongoRuns.ObjectInv(h, db.store[op.id], op.id);
    ModifyReachesOnce(subs, h);
    assert forall m <- Delivered(subs, ModifyWires(h)) :: m.id != id;
    ReplayNone(o, subs, Delivered(subs, ModifyWires(h)), id);
  }

  lemma OutcomePossible(db: MongoRuns.Mongo, past: Past, c: Client, id: Id)
    requires PastInv(db, past) && ClientInv(db, past, c)
    ensures Possible(db, id, Outcome(c, id))
    ensures Outcome(c, id).Some? ==> Committed(past, id, Outcome(c, id).value)
  {
    hide DocKey, HeldOf, Truthful;
    assert forall m <- Pending(c) :: Sound(db, past, m);
    ReplayIsCommitted(past, Slot(c.replica, id), c.subs, Pending(c), id);
    var o := Outcome(c, id);
    if o.Some? && id in db.store {
      assert Committed(past, id, HeldOf(db.store[id]));
      HeldVersions(db);
    }
  }

  /** The client after a mutation. */
  function Mutated(db: MongoRuns.Mongo, op: MongoRuns.Op, c: Client): Client
    requires MongoRuns.Enabled(db, op)
  {
    AfterMutation(c, MongoRuns.Wires(db, op), MongoRuns.Perform(db, op).store)
  }

  /** Only what is delivered matters to a client. */
  lemma {:induction false} DeliveryKeepsHeading(
      db: MongoRuns.Mongo, db': MongoRuns.Mongo, c: Client, ws: seq<Wire>, id: Id)
    requires Heading(db, c, id)
    requires var ms := Delivered(c.subs, ws);
             Meets(Outcome(c, id), Want(db.store, c.subs, id),
                   ReplaySlot(Outcome(c, id), c.subs, ms, id), Want(db'.store, c.subs, id), id, ms)
    ensures Heading(db', AfterMutation(c, ws, db'.store), id)
  {
    hide DocKey, HeldOf, Delivered, ReplaySlot;
    var ms := Delivered(c.subs, ws);
    assert Pending(AfterMutation(c, ws, db'.store)) == Pending(c) + ms;
    ReplayAppend(Slot(c.replica, id), c.subs, Pending(c), ms, id);
  }

  lemma {:induction false} MutationKeepsHeading(db: MongoRuns.Mongo, past: Past, op: MongoRuns.Op, c: Client, id: Id)
    requires MongoRuns.Inv(db) && MongoRuns.Enabled(db, op) && PastInv(db, past) && ClientInv(db, past, c)
    requires op.Modify? ==> Publishable(db.owned[op.id])
    ensures Heading(MongoRuns.Perform(db, op), Mutated(db, op, c), id)
  {
    OutcomePossible(db, past, c, id);
    hide MongoRuns.Inv, MongoRuns.Wires, MongoRuns.Perform, MongoRuns.Enabled, Possible, Meets, Outcome, Want;
    assert Heading(db, c, id);
    hide Heading, ClientInv, PastInv;
    MutationMeets(db, op, c.subs, Outcome(c, id), id);
    DeliveryKeepsHeading(db, MongoRuns.Perform(db, op), c, MongoRuns.Wires(db, op), id);
  }

  lemma {:induction false} MutationKeepsSound(db: MongoRuns.Mongo, past: Past, op: MongoRuns.Op, c: Client, m: Msg)
    requires MongoRuns.Inv(db) && MongoRuns.Enabled(db, op) && PastInv(db, past) && ClientInv(db, past, c)
    requires op.Modify? ==> Publishable(db.owned[op.id])
    requires m in Pending(Mutated(db, op, c))
    ensures var db' := MongoRuns.Perform(db, op);
            Sound(db', Remember(past, db'.store, MongoRuns.Target(op)), m)
  {
    hide KeyOf, Valid, Do, DoAll, MongoRuns.Inv, MongoRuns.Wires, MongoRuns.Enabled, Delivered, Truthful, Remember;
    var db' := MongoRuns.Perform(db, op);
    if m in Pending(c) {
      assert Sound(db, past, m);
      PerformStepsStore(db, op);
      PastGrows(db, past, db', MongoRuns.Target(op));
      TruthfulLater(past, Remember(past, db'.store, MongoRuns.Target(op)), m);
    } else {
      WiresAreSound(db, past, op, c.subs, m);
    }
  }

  /** A message about a living object is not newer than it, and is no rem. */
  lemma SoundIsNoNewer(db: MongoRuns.Mongo, past: Past, m: Msg)
    requires PastInv(db, past) && MongoRuns.Inv(db) && Sound(db, past, m)
    ensures m.id in db.store.Keys + db.retired
    ensures m.id in db.store ==> !m.Rem? && m.version <= db.store[m.id].tag.v
  {}

  lemma {:induction false} MutationKeepsOrdered(db: MongoRuns.Mongo, past: Past, op: MongoRuns.Op, c: Client)
    requires MongoRuns.Inv(db) && MongoRuns.Enabled(db, op) && PastInv(db, past) && ClientInv(db, past, c)
    requires op.Modify? ==> Publishable(db.owned[op.id])
    ensures Ordered(Mutated(db, op, c).queue)
  {
    hide KeyOf, Valid, Do, DoAll, MongoRuns.Inv, MongoRuns.Wires, MongoRuns.Enabled, MongoRuns.Perform, Delivered, Truthful, Heading;
    var ms := Delivered(c.subs, MongoRuns.Wires(db, op));
    DeliveredOnce(db, op, c.subs);
    if ms != [] {
      var m := ms[0];
      WiresAreSound(db, past, op, c.subs, m);
      NewIsNewest(db, past, op, m);
      forall q <- c.queue | q.id == m.id
        ensures !q.Rem? && (m.Rem? || q.version < m.version)
      {
        assert q in Pending(c);
        SoundIsNoNewer(db, past, q);
      }
      OrderedAppend(c.queue, m);
      assert ms == [m];
    }
  }

  lemma NewIsNewest(db: MongoRuns.Mongo, past: Past, op: MongoRuns.Op, m: Msg)
    requires MongoRuns.Inv(db) && MongoRuns.Enabled(db, op) && m.id == MongoRuns.Target(op) && !op.Change?
    requires m.Rem? || (m.id in MongoRuns.Perform(db, op).store && m.version == MongoRuns.Perform(db, op).store[m.id].tag.v)
    ensures m.id in db.store.Keys + db.retired ==> m.id in db.store && (m.Rem? || db.store[m.id].tag.v < m.version)
  {
    hide MongoRuns.Perform;
    MongoRuns.StoredVersion(db, op, m.id);
  }

  lemma OrderedAppend(ms: seq<Msg>, m: Msg)
    requires Ordered(ms) && forall q <- ms :: q.id == m.id ==> !q.Rem? && (m.Rem? || q.version < m.version)
    ensures Ordered(ms + [m])
  {}

  lemma {:induction false} MutationKeepsClient(db: MongoRuns.Mongo, past: Past, op: MongoRuns.Op, c: Client)
    requires MongoRuns.Inv(db) && MongoRuns.Enabled(db, op) && PastInv(db, past) && ClientInv(db, past, c)
    requires op.Modify? ==> Publishable(db.owned[op.id])
    ensures var db' := MongoRuns.Perform(db, op);
            ClientInv(db', Remember(past, db'.store, MongoRuns.Target(op)), Mutated(db, op, c))
  {
    var db' := MongoRuns.Perform(db, op);
    var past' := Remember(past, db'.store, MongoRuns.Target(op));
    var c' := Mutated(db, op, c);
    hide Heading, Sound, DocKey, MongoRuns.Perform, MongoRuns.Wires, MongoRuns.Inv, MongoRuns.Enabled, Delivered, Ordered, PastInv;
    forall id
      ensures Heading(db', c', id)
    {
      MutationKeepsHeading(db, past, op, c, id);
    }
    forall m <- Pending(c')
      ensures Sound(db', past', m)
    {
      MutationKeepsSound(db, past, op, c, m);
    }
    PerformStepsStore(db, op);
    PastGrows(db, past, db', MongoRuns.Target(op));
    MutationKeepsOrdered(db, past, op, c);
  }

  // ----- Changes of subscriptions -----

  lemma HeardOrNothing(c: Client, remove: set<Key>, id: Id)
    ensures id !in Heard(c) ==> CourseOf(c, remove, id).None?
  {
    if id !in Heard(c) {
      assert forall m <- c.queue :: m.id != id;
      FollowNone(None, c.queue, id);
    }
  }

  /** What a change of subscriptions makes of an object, whatever is pending. */
  lemma {:induction false} SubscribeOutcome(c: Client, add: set<Key>, remove: set<Key>, store: map<Id, Doc>, id: Id)
    requires Ordered(c.queue) && c.direct == []
    ensures var c' := AfterSubscribe(c, add, remove, store);
            Outcome(c', id) == Kept(CourseOf(c, remove, id), c'.subs)
  {
    var c' := AfterSubscribe(c, add, remove, store);
    assert Pending(c') == c.queue;
    FollowTells(Start(Slot(c'.replica, id)), c'.subs, c.queue, id);
  }

  lemma {:induction false} SubscribeOutcomePossible(
      db: MongoRuns.Mongo, past: Past, c: Client, add: set<Key>, remove: set<Key>, id: Id)
    requires PastInv(db, past) && ClientInv(db, past, c) && c.direct == []
    ensures Possible(db, id, Outcome(AfterSubscribe(c, add, remove, db.store), id))
  {
    hide DocKey, HeldOf, Truthful, Heading, PastInv, CourseOf, Ordered, Loses, Haunts;
    var c' := AfterSubscribe(c, add, remove, db.store);
    assert forall m <- c.queue :: m in Pending(c) && Sound(db, past, m);
    assert Pending(c') == c.queue;
    ReplayIsCommitted(past, Slot(c'.replica, id), c'.subs, c.queue, id);
    CommittedIsNoNewer(db, past, id, Outcome(c', id));
  }

  lemma {:induction false} SubscribeKeepsHeading(
      db: MongoRuns.Mongo, past: Past, c: Client, add: set<Key>, remove: set<Key>, id: Id)
    requires PastInv(db, past) && ClientInv(db, past, c) && c.direct == []
    ensures Heading(db, AfterSubscribe(c, add, remove, db.store), id)
  {
    SubscribeOutcome(c, add, remove, db.store, id);
    HeardOrNothing(c, remove, id);
    SubscribeOutcomePossible(db, past, c, add, remove, id);
    HeldVersions(db);
    hide CourseOf, DocKey, HeldOf, Outcome, Heard, ReplaySlot, ClientInv, PastInv, Truthful;
  }

  /**
   A change of subscriptions with anything pending goes wrong on exactly the objects it loses or leaves as
   ghosts.
   */
  lemma {:induction false} SubscribeKeepsClient(
      db: MongoRuns.Mongo, past: Past, c: Client, add: set<Key>, remove: set<Key>)
    requires PastInv(db, past) && ClientInv(db, past, c) && c.loading.None? && c.direct == []
    ensures ClientInv(db, past, AfterSubscribe(c, add, remove, db.store))
  {
    hide DocKey, Heading, Loses, Haunts, Sound, PastInv, Ordered;
    var c' := AfterSubscribe(c, add, remove, db.store);
    assert Pending(c') == Pending(c);
    forall id
      ensures Heading(db, c', id)
    {
      SubscribeKeepsHeading(db, past, c, add, remove, id);
    }
  }

  // ----- Loads -----

  lemma ListedAreFound(db: MongoRuns.Mongo, keys: set<Key>, docs: seq<Doc>, d: Doc)
    requires MongoRuns.Inv(db) && Lists(db.store, keys, docs) && d in docs
    ensures Under(db.store, d.tag.id, keys) && db.store[d.tag.id] == d
  {
    hide KeyOf, Valid;
    var i :| i in MongoRuns.FoundBySub(db.store, keys) && db.store[i] == d;
    assert MongoRuns.ObjectInv(db.owned[i], db.store[i], i);
  }

  lemma FoundAreListed(db: MongoRuns.Mongo, keys: set<Key>, docs: seq<Doc>, id: Id)
    requires MongoRuns.Inv(db) && Lists(db.store, keys, docs) && Under(db.store, id, keys)
    ensures db.store[id] in docs && db.store[id].tag.id == id
  {
    hide KeyOf, Valid;
    assert MongoRuns.ObjectInv(db.owned[id], db.store[id], id);
    assert id in MongoRuns.FoundBySub(db.store, keys);
  }

  /**
   A snapshot of the objects under any watched keys, written ahead of an arbitrary queue, gives those
   objects their committed state, whatever stale messages follow and however wrong the copy was, and
   touches no other object.
   */
  lemma {:induction false} LoadSettles(db: MongoRuns.Mongo, past: Past, c: Client, docs: seq<Doc>, id: Id)
    requires MongoRuns.Inv(db) && PastInv(db, past) && ClientInv(db, past, c) && c.loading.Some?
    requires Lists(db.store, c.loading.value, docs)
    ensures Outcome(AfterLoad(c, docs, db.store), id) ==
            if Under(db.store, id, c.loading.value) then Some(HeldOf(db.store[id])) else Outcome(c, id)
  {
    hide DocKey, Truthful, MongoRuns.Inv;
    var o := Slot(c.replica, id);
    assert Pending(c) == c.queue;
    ReplayAppend(o, c.subs, Snapshot(docs), c.queue, id);
    if Under(db.store, id, c.loading.value) {
      LoadHolds(db, past, c, docs, id);
    } else {
      forall e <- docs
        ensures e.tag.id != id
      {
        ListedAreFound(db, c.loading.value, docs, e);
      }
      SnapshotSpares(o, c.subs, docs, id);
    }
  }

  lemma {:induction false} LoadHolds(db: MongoRuns.Mongo, past: Past, c: Client, docs: seq<Doc>, id: Id)
    requires MongoRuns.Inv(db) && PastInv(db, past) && ClientInv(db, past, c) && c.loading.Some?
    requires Lists(db.store, c.loading.value, docs) && Under(db.store, id, c.loading.value)
    ensures var o := ReplaySlot(Slot(c.replica, id), c.subs, Snapshot(docs), id);
            ReplaySlot(o, c.subs, c.queue, id) == Some(HeldOf(db.store[id]))
  {
    hide DocKey, Truthful, MongoRuns.Inv, Heading;
    var o, d := Slot(c.replica, id), db.store[id];
    FoundAreListed(db, c.loading.value, docs, id);
    forall e <- docs | e.tag.id == d.tag.id
      ensures e == d
    {
      ListedAreFound(db, c.loading.value, docs, e);
    }
    CommittedIsNoNewer(db, past, id, o);
    SnapshotHolds(o, c.subs, docs, d);
    forall m <- c.queue | m.id == id
      ensures !m.Rem? && m.version <= d.tag.v
    {
      assert m in Pending(c);
      SoundIsNoNewer(db, past, m);
    }
    StaleIgnored(HeldOf(d), c.subs, c.queue, id);
  }

  lemma {:induction false} LoadKeepsHeading(db: MongoRuns.Mongo, past: Past, c: Client, docs: seq<Doc>, id: Id)
    requires MongoRuns.Inv(db) && PastInv(db, past) && ClientInv(db, past, c) && c.loading.Some?
    requires Lists(db.store, c.loading.value, docs)
    ensures Heading(db, AfterLoad(c, docs, db.store), id)
  {
    LoadSettles(db, past, c, docs, id);
    assert Heading(db, c, id);
    hide DocKey, Outcome, MongoRuns.Inv, PastInv;
  }

  lemma {:induction false} LoadKeepsClient(db: MongoRuns.Mongo, past: Past, c: Client, docs: seq<Doc>)
    requires MongoRuns.Inv(db) && PastInv(db, past) && ClientInv(db, past, c) && c.loading.Some?
    requires Lists(db.store, c.loading.value, docs)
    ensures ClientInv(db, past, AfterLoad(c, docs, db.store))
  {
    hide DocKey, Heading, PastInv, MongoRuns.Inv, Sound, Lists;
    var c' := AfterLoad(c, docs, db.store);
    forall id
      ensures Heading(db, c', id)
    {
      LoadKeepsHeading(db, past, c, docs, id);
    }
    forall m <- Pending(c')
      ensures Sound(db, past, m)
    {
      if m in c.queue {
        assert m in Pending(c);
      } else {
        var i :| 0 <= i < |docs| && m == SnapshotMsg(docs[i]);
        SnapshotIsSound(db, past, c.loading.value, docs, docs[i]);
      }
    }
  }

  lemma SnapshotIsSound(db: MongoRuns.Mongo, past: Past, keys: set<Key>, docs: seq<Doc>, d: Doc)
    requires MongoRuns.Inv(db) && PastInv(db, past) && Lists(db.store, keys, docs) && d in docs
    ensures Sound(db, past, SnapshotMsg(d))
  {
    hide DocKey, MongoRuns.Inv;
    ListedAreFound(db, keys, docs, d);
    assert Committed(past, d.tag.id, HeldOf(d));
  }

  // ----- Writing to the browser -----

  lemma HandOverKeepsHeading(db: MongoRuns.Mongo, c: Client, c': Client, id: Id)
    requires Heading(db, c, id) && Pending(c) != []
    requires c' == c.(direct := c'.direct, queue := c'.queue, replica := Apply(c.replica, c.subs, Pending(c)[0]))
    requires Pending(c') == Pending(c)[1..]
    ensures Heading(db, c', id)
  {
    hide DocKey, HeldOf, Apply;
    ApplyIsSlotwise(c.replica, c.subs, Pending(c)[0], id);
  }

  /** Handing the browser the next pending message changes nothing about where the client is heading. */
  lemma {:induction false} HandOverKeepsClient(db: MongoRuns.Mongo, past: Past, c: Client, c': Client)
    requires ClientInv(db, past, c) && Pending(c) != []
    requires c' == c.(direct := c'.direct, queue := c'.queue, replica := Apply(c.replica, c.subs, Pending(c)[0]))
    requires Pending(c') == Pending(c)[1..] && Ordered(c'.queue)
    requires c'.loading.None?
    ensures ClientInv(db, past, c')
  {
    hide DocKey, Heading, Ordered, Apply;
    var m := Pending(c)[0];
    forall id
      ensures Heading(db, c', id)
    {
      HandOverKeepsHeading(db, c, c', id);
    }
    forall q <- Pending(c')
      ensures Sound(db, past, q)
    {
      assert q in Pending(c);
    }
    forall id <- c'.replica
      ensures Committed(past, id, c'.replica[id])
    {
      assert Sound(db, past, m);
      ApplyIsSlotwise(c.replica, c.subs, m, id);
      ReplayIsCommitted(past, Slot(c.replica, id), c.subs, [m], id);
      ReplayOne(Slot(c.replica, id), c.subs, m, id);
    }
  }

  lemma WriteKeepsClient(db: MongoRuns.Mongo, past: Past, c: Client)
    requires ClientInv(db, past, c) && c.direct != []
    ensures ClientInv(db, past, AfterWrite(c))
  {
    hide Heading, Sound, Ordered;
    assert c.loading.None?;
    HandOverKeepsClient(db, past, c, AfterWrite(c));
  }

  lemma DrainKeepsClient(db: MongoRuns.Mongo, past: Past, c: Client)
    requires ClientInv(db, past, c) && c.loading.None? && c.direct == [] && c.queue != []
    ensures ClientInv(db, past, AfterDrain(c))
  {
    OrderedTail(c.queue);
    hide Heading, Sound, Ordered;
    HandOverKeepsClient(db, past, c, AfterDrain(c));
  }

  lemma FreshIsRight(db: MongoRuns.Mongo, past: Past)
    ensures ClientInv(db, past, FRESH)
  {
    assert Pending(FRESH) == [];
    assert forall id :: Heading(db, FRESH, id);
  }

  // ----- Every step keeps it -----

  lemma {:induction false} NextKeepsInv(s: System, a: Action)
    requires Inv(s) && Enabled(s, a)
    ensures Inv(Next(s, a))
  {
    var s' := Next(s, a);
    hide ClientInv, MongoRuns.Inv, PastInv, Lists;
    match a
    case Mutate(op) =>
      MongoRuns.PerformKeepsInv(s.db, op);
      PerformStepsStore(s.db, op);
      PastStays(s.db, s.past, s'.db, MongoRuns.Target(op));
      forall c <- s'.clients
        ensures ClientInv(s'.db, s'.past, s'.clients[c])
      {
        MutationKeepsClient(s.db, s.past, op, s.clients[c]);
      }
    case Connect(_) => FreshIsRight(s.db, s.past);
    case Disconnect(_) =>
    case Subscribe(c, add, remove) => SubscribeKeepsClient(s.db, s.past, s.clients[c], add, remove);
    case Load(c, docs) => LoadKeepsClient(s.db, s.past, s.clients[c], docs);
    case WriteLoaded(c) => WriteKeepsClient(s.db, s.past, s.clients[c]);
    case Drain(c) => DrainKeepsClient(s.db, s.past, s.clients[c]);
  }

  lemma {:induction false} RunKeepsInv(s: System, run: seq<Action>)
    requires Inv(s) && EnabledRun(s, run)
    ensures Inv(After(s, run))
  {
    if run != [] {
      RunKeepsInv(s, run[..|run| - 1]);
      NextKeepsInv(After(s, run[..|run| - 1]), run[|run| - 1]);
    }
  }

  // ----- What the messages of a run say -----

  /**
   In every run, what is written for a loaded object says what its document says: current state and version,
   under its stored `sub` and with its stored type, and no previous key.
   */
  lemma {:induction false} SnapshotSays(run: seq<Action>, id: Id)
    requires EnabledRun(INITIAL, run) && id in After(INITIAL, run).db.store
    ensures var d := After(INITIAL, run).db.store[id];
            SnapshotMsg(d) == Add(id, d.state, d.tag.sub, None, d.tag.v, d.tag.typ)
  {
    assert Inv(INITIAL);
    hide KeyOf, Valid, PastInv, ClientInv, After, EnabledRun;
    RunKeepsInv(INITIAL, run);
    var db := After(INITIAL, run).db;
    assert MongoRuns.ObjectInv(db.owned[id], db.store[id], id);
  }

  ghost predicate CleanHeaders(ws: seq<Wire>) {
    forall w <- ws :: w.from.Some? ==> '{' !in w.from.value
  }

  lemma StepKeepsClean(s: System, a: Action)
    requires Enabled(s, a) && CleanHeaders(s.db.published)
    ensures CleanHeaders(Next(s, a).db.published)
  {
    hide KeyOf, Valid, DoAll, Do, Loses, Haunts;
    if a.Mutate? {
      MongoRuns.PublishedGrows(s.db, a.op);
      assert CleanHeaders(MongoRuns.Wires(s.db, a.op));
    }
  }

  /** In every run, no header holds a `{`, so every receiver can read it. */
  lemma {:induction false} HeadersAreClean(run: seq<Action>)
    requires EnabledRun(INITIAL, run)
    ensures CleanHeaders(After(INITIAL, run).db.published)
  {
    hide Enabled, Next, CleanHeaders;
    if run == [] {
      NoneIsClean();
    } else {
      LastStep(INITIAL, run);
      HeadersAreClean(run[..|run| - 1]);
      StepKeepsClean(After(INITIAL, run[..|run| - 1]), run[|run| - 1]);
    }
  }

  lemma NoneIsClean()
    ensures CleanHeaders([])
  {}
}

/** What browsers hold at the end of a run. */
module Convergence {
  import opened Base
  import opened Objects
  import opened Mutations
  import MongoRuns
  import opened Replicas
  import opened Replication

  /** What a client should hold: every committed object whose key it subscribes to, as committed. */
  function Wanted(s: System, c: nat): Replica
    requires c in s.clients
  {
    View(s.db.store, s.clients[c].subs)
  }

  /** The client is not going to hold the object as it should. */
  predicate Wrong(c: Client, id: Id) {
    id in c.blind || id in c.ghosts
  }

  lemma NothingWrong(c: Client)
    ensures c.blind == {} && c.ghosts == {} <==> forall id :: !Wrong(c, id)
  {
    if c.blind != {} {
      var id :| id in c.blind;
      assert Wrong(c, id);
    }
    if c.ghosts != {} {
      var id :| id in c.ghosts;
      assert Wrong(c, id);
    }
  }

  /** Exactly the blind objects are missing, exactly the ghosts are held wrongly, all else is right. */
  ghost predicate RightBut(replica: Replica, wanted: Replica, blind: set<Id>, ghosts: set<Id>) {
    && (forall id :: id in blind <==> id in wanted && id !in replica)
    && (forall id :: id in ghosts <==> id in replica && !(id in wanted && wanted[id] == replica[id]))
    && (replica == wanted <==> blind == {} && ghosts == {})
  }

  lemma SettledSlot(db: MongoRuns.Mongo, client: Client, id: Id)
    requires Heading(db, client, id) && Pending(client) == []
    ensures var v := View(db.store, client.subs);
            && (id in client.blind <==> id in v && id !in client.replica)
            && (id in client.ghosts <==> id in client.replica && !(id in v && v[id] == client.replica[id]))
  {
    hide KeyOf;
    assert Outcome(client, id) == Slot(client.replica, id);
  }

  lemma SettledIsView(db: MongoRuns.Mongo, past: Past, client: Client)
    requires ClientInv(db, past, client) && Pending(client) == []
    ensures RightBut(client.replica, View(db.store, client.subs), client.blind, client.ghosts)
  {
    forall id
      ensures Heading(db, client, id)
    {}
    hide KeyOf, View, ClientInv, Heading;
    var v := View(db.store, client.subs);
    forall id
      ensures id in client.blind <==> id in v && id !in client.replica
      ensures id in client.ghosts <==> id in client.replica && !(id in v && v[id] == client.replica[id])
    {
      SettledSlot(db, client, id);
    }
    if client.blind == {} && client.ghosts == {} {
      assert forall id :: id in v <==> id in client.replica;
      assert client.replica == v;
    }
  }

  lemma InitialIsRight()
    ensures Inv(INITIAL)
  {}

  lemma {:induction false} ReachedIsRight(run: seq<Action>, c: nat)
    requires EnabledRun(INITIAL, run) && c in After(INITIAL, run).clients
    ensures Inv(After(INITIAL, run))
    ensures ClientInv(After(INITIAL, run).db, After(INITIAL, run).past, After(INITIAL, run).clients[c])
  {
    InitialIsRight();
    RunKeepsInv(INITIAL, run);
  }

  /**
   In every run, over any objects and clients and with subscriptions changed at any time: once a client
   has nothing pending, its replica differs from what it should be on exactly the blind objects and the
   ghosts.
   */
  lemma {:induction false} ReplicaIsView(run: seq<Action>, c: nat)
    requires EnabledRun(INITIAL, run) && c in After(INITIAL, run).clients
    ensures var s := After(INITIAL, run);
            var client := s.clients[c];
            Pending(client) == [] ==> RightBut(client.replica, Wanted(s, c), client.blind, client.ghosts)
  {
    hide RightBut, View, ClientInv;
    ReachedIsRight(run, c);
    var s := After(INITIAL, run);
    if Pending(s.clients[c]) == [] {
      SettledIsView(s.db, s.past, s.clients[c]);
    }
  }

  // ----- Every copy was committed -----

  /** Some state of the run held the object as `held` has it. */
  ghost predicate WasCommitted(run: seq<Action>, id: Id, held: Held)
    requires EnabledRun(INITIAL, run)
    decreases |run|
  {
    || (id in After(INITIAL, run).db.store && held == HeldOf(After(INITIAL, run).db.store[id]))
    || (run != [] && WasCommitted(run[..|run| - 1], id, held))
  }

  lemma {:induction false} PastWasCommitted(run: seq<Action>, id: Id, held: Held)
    requires EnabledRun(INITIAL, run) && Committed(After(INITIAL, run).past, id, held)
    ensures WasCommitted(run, id, held)
  {
    if run != [] {
      hide DocKey, Loses, Haunts, MongoRuns.Perform, MongoRuns.Enabled;
      var init := run[..|run| - 1];
      if Committed(After(INITIAL, init).past, id, held) {
        PastWasCommitted(init, id, held);
      }
    }
  }

  /** At every moment, whatever is pending, each copy a browser holds is the object as it once was committed. */
  lemma {:induction false} CopiesWereCommitted(run: seq<Action>, c: nat, id: Id)
    requires EnabledRun(INITIAL, run) && c in After(INITIAL, run).clients
    requires id in After(INITIAL, run).clients[c].replica
    ensures WasCommitted(run, id, After(INITIAL, run).clients[c].replica[id])
  {
    ReachedIsRight(run, c);
    PastWasCommitted(run, id, After(INITIAL, run).clients[c].replica[id]);
  }

  // ----- Which objects a change of subscriptions goes wrong on -----

  /** Where the queue leads on an object whose copy is not under a removed key. */
  function Route(c: Client, id: Id): Option<Course> {
    Follow(Start(Slot(c.replica, id)), c.queue, id)
  }

  /** The object came through a removed key on its way to a key the client keeps and does not load. */
  predicate PassedRemoved(c: Client, add: set<Key>, remove: set<Key>, store: map<Id, Doc>, id: Id) {
    var t := Route(c, id);
    && Under(store, id, c.subs - remove) && !Under(store, id, add)
    && t.Some? && !(t.value.moves <= NewSubs(c.subs, add, remove))
  }

  /** The object is under a key the client gives up, and an add, with no move since, is what put it there. */
  predicate AddedToRemoved(c: Client, add: set<Key>, remove: set<Key>, store: map<Id, Doc>, id: Id) {
    var t := Route(c, id);
    Under(store, id, c.subs) && !Under(store, id, NewSubs(c.subs, add, remove)) && t.Some? && t.value.moves == {}
  }

  /** The last queued move is into a newly added key, and the object is under none of the added ones. */
  predicate LeftThroughAdded(c: Client, add: set<Key>, remove: set<Key>, store: map<Id, Doc>, id: Id) {
    var t := Route(c, id);
    && !Under(store, id, add)
    && t.Some? && t.value.moves <= NewSubs(c.subs, add, remove) && !(t.value.moves <= c.subs)
  }

  lemma NotForgotten(c: Client, remove: set<Key>, id: Id)
    requires id in c.replica ==> c.replica[id].key !in remove
    ensures CourseOf(c, remove, id) == Route(c, id)
  {}

  lemma {:induction false} RouteTells(db: MongoRuns.Mongo, past: Past, c: Client, id: Id)
    requires ClientInv(db, past, c) && c.direct == [] && !Wrong(c, id)
    ensures Kept(Route(c, id), c.subs) == Want(db.store, c.subs, id)
    ensures Route(c, id).Some? && Route(c, id).value.moves != {} ==> Route(c, id).value.held.key in Route(c, id).value.moves
  {
    assert Pending(c) == c.queue;
    assert Heading(db, c, id);
    FollowTells(Start(Slot(c.replica, id)), c.subs, c.queue, id);
    FollowEnds(Start(Slot(c.replica, id)), c.queue, id);
  }

  /**
   For an object the client was going to hold as it should, and whose copy is not under a removed key, the
   change of subscriptions, with its load, goes wrong in exactly three cases.
   */
  lemma {:induction false} GoesWrongIff(
      db: MongoRuns.Mongo, past: Past, c: Client, add: set<Key>, remove: set<Key>, id: Id)
    requires ClientInv(db, past, c) && c.direct == [] && !Wrong(c, id)
    requires id in c.replica ==> c.replica[id].key !in remove
    ensures !Under(db.store, id, add) && (Loses(c, add, remove, db.store, id) || Haunts(c, add, remove, db.store, id))
            <==> || PassedRemoved(c, add, remove, db.store, id)
                 || AddedToRemoved(c, add, remove, db.store, id)
                 || LeftThroughAdded(c, add, remove, db.store, id)
  {
    NotForgotten(c, remove, id);
    RouteTells(db, past, c, id);
    hide ClientInv, CourseOf, Route, KeyOf;
  }

  /**
   An object held under a removed key, about which no add is queued, goes wrong in one case only: by now it
   is under a key the client keeps and does not load.
   */
  lemma {:induction false} HeldUnderRemoved(
      db: MongoRuns.Mongo, c: Client, add: set<Key>, remove: set<Key>, id: Id)
    requires id in c.replica && c.replica[id].key in remove
    requires forall m <- c.queue :: m.id == id ==> !m.Add?
    ensures !Under(db.store, id, add) && (Loses(c, add, remove, db.store, id) || Haunts(c, add, remove, db.store, id))
            <==> Under(db.store, id, c.subs - remove) && !Under(db.store, id, add)
  {
    hide KeyOf;
    NothingAdded(c.queue, id);
  }

  lemma {:induction false} NothingAdded(ms: seq<Msg>, id: Id)
    requires forall m <- ms :: m.id == id ==> !m.Add?
    ensures Follow(None, ms, id).None?
    decreases |ms|
  {
    if ms != [] {
      assert ms[0] in ms && forall m <- ms[1..] :: m in ms;
      NothingAdded(ms[1..], id);
    }
  }

  /** With nothing pending, a client that is right misses what is under newly watched keys, and no more. */
  lemma {:induction false} IdleChange(s: System, c: nat, add: set<Key>, remove: set<Key>, id: Id)
    requires c in s.clients && Pending(s.clients[c]) == [] && s.clients[c].replica == Wanted(s, c)
    ensures var client := s.clients[c];
            && !Haunts(client, add, remove, s.db.store, id)
            && (Loses(client, add, remove, s.db.store, id) <==>
                  Under(s.db.store, id, add) && !Under(s.db.store, id, client.subs - remove))
  {
    hide KeyOf;
    assert s.clients[c].queue == [];
  }

  // ----- The window between a change of subscriptions and its load -----

  /** A step by anybody else, or the client's own writing. */
  predicate Spares(a: Action, c: nat) {
    match a
    case Mutate(_) => true
    case Connect(d) => d != c
    case Disconnect(d) => d != c
    case Subscribe(d, _, _) => d != c
    case Load(d, _) => d != c
    case WriteLoaded(_) => true
    case Drain(_) => true
  }

  predicate AllSpare(run: seq<Action>, c: nat) {
    forall a <- run :: Spares(a, c)
  }

  /** No add or rem about the object reaches a client with these subscriptions in the step. */
  ghost predicate Untold(s: System, a: Action, id: Id, subs: set<Key>)
    requires Enabled(s, a)
  {
    a.Mutate? ==> forall m <- Delivered(subs, MongoRuns.Wires(s.db, a.op)) :: m.id == id ==> m.Mod?
  }

  lemma OneStepSpares(s: System, a: Action, c: nat, id: Id)
    requires Enabled(s, a) && Spares(a, c) && c in s.clients
    ensures c in Next(s, a).clients
    ensures var before, later := s.clients[c], Next(s, a).clients[c];
            && later.subs == before.subs && later.loading == before.loading
            && (id in later.blind <==> id in before.blind && (a.Mutate? ==> Under(Next(s, a).db.store, id, before.subs)))
            && (id in later.ghosts <==> id in before.ghosts && Untold(s, a, id, before.subs))
  {
    hide MongoRuns.Perform, MongoRuns.Wires, Delivered, DocKey, Loses, Haunts;
  }

  /** The object is never deleted or out of sight of `subs` from the start of the window to its end. */
  ghost predicate StaysWatched(s: System, window: seq<Action>, id: Id, subs: set<Key>)
    requires EnabledRun(s, window)
    decreases |window|
  {
    && Under(After(s, window).db.store, id, subs)
    && (window == [] || StaysWatched(s, window[..|window| - 1], id, subs))
  }

  /** Through the window the object neither comes into sight of `subs` nor is deleted in sight of them. */
  ghost predicate StaysUntold(s: System, window: seq<Action>, id: Id, subs: set<Key>)
    requires EnabledRun(s, window)
    decreases |window|
  {
    window == [] ||
    var init := window[..|window| - 1];
    StaysUntold(s, init, id, subs) && Untold(After(s, init), window[|window| - 1], id, subs)
  }

  /** What becomes of an object that goes wrong, while the client does not change its subscriptions. */
  lemma {:induction false} WrongInWindow(s: System, window: seq<Action>, c: nat, id: Id)
    requires Inv(s) && EnabledRun(s, window) && AllSpare(window, c) && c in s.clients
    ensures c in After(s, window).clients
    ensures After(s, window).clients[c].subs == s.clients[c].subs
    ensures After(s, window).clients[c].loading == s.clients[c].loading
    ensures id in After(s, window).clients[c].blind <==>
            id in s.clients[c].blind && StaysWatched(s, window, id, s.clients[c].subs)
    ensures id in After(s, window).clients[c].ghosts <==>
            id in s.clients[c].ghosts && StaysUntold(s, window, id, s.clients[c].subs)
  {
    hide Enabled, Next, Untold, DocKey;
    if window == [] {
      BlindAreWatched(s, c, id);
    } else {
      var init, a := window[..|window| - 1], window[|window| - 1];
      assert a in window && forall b <- init :: b in window;
      WrongInWindow(s, init, c, id);
      OneStepSpares(After(s, init), a, c, id);
      RunKeepsInv(s, window);
      BlindAreWatched(After(s, window), c, id);
      if !a.Mutate? {
        OnlyMutationsStore(After(s, init), a);
      }
    }
  }

  lemma OnlyMutationsStore(s: System, a: Action)
    requires Enabled(s, a) && !a.Mutate?
    ensures Next(s, a).db == s.db
  {
    hide Loses, Haunts, DocKey;
  }

  lemma BlindAreWatched(s: System, c: nat, id: Id)
    requires Inv(s) && c in s.clients
    ensures id in s.clients[c].blind ==> Under(s.db.store, id, s.clients[c].subs)
  {
    hide DocKey, HeldOf, Outcome;
    assert ClientInv(s.db, s.past, s.clients[c]);
    assert Heading(s.db, s.clients[c], id);
  }

  /** A client in `s0` changes its subscriptions, then a window of steps by others. */
  ghost predicate Opens(s0: System, c: nat, add: set<Key>, remove: set<Key>, window: seq<Action>) {
    && Enabled(s0, Subscribe(c, add, remove))
    && EnabledRun(Next(s0, Subscribe(c, add, remove)), window) && AllSpare(window, c)
  }

  /**
   By the end of the window the object is under none of the keys being loaded, and either the change lost
   it and it stayed watched since, or the change left a ghost of it and nothing was said about it since.
   */
  ghost predicate Escapes(s0: System, c: nat, add: set<Key>, remove: set<Key>, window: seq<Action>, id: Id)
    requires Opens(s0, c, add, remove, window)
  {
    var client, s1 := s0.clients[c], Next(s0, Subscribe(c, add, remove));
    var subs := NewSubs(client.subs, add, remove);
    && !Under(After(s1, window).db.store, id, add)
    && (|| (Loses(client, add, remove, s0.db.store, id) && StaysWatched(s1, window, id, subs))
        || (Haunts(client, add, remove, s0.db.store, id) && StaysUntold(s1, window, id, subs)))
  }

  lemma {:induction false} WrongAfterChange(s0: System, c: nat, add: set<Key>, remove: set<Key>, id: Id)
    requires Inv(s0) && Enabled(s0, Subscribe(c, add, remove))
    ensures var client, s1 := s0.clients[c], Next(s0, Subscribe(c, add, remove));
            && Inv(s1) && c in s1.clients && s1.db == s0.db
            && s1.clients[c].subs == NewSubs(client.subs, add, remove)
            && s1.clients[c].loading == (if add == {} then None else Some(add))
            && (id in s1.clients[c].blind <==> Loses(client, add, remove, s0.db.store, id))
            && (id in s1.clients[c].ghosts <==> Haunts(client, add, remove, s0.db.store, id))
  {
    NextKeepsInv(s0, Subscribe(c, add, remove));
    HeardOrNothing(s0.clients[c], remove, id);
    hide Inv, CourseOf, Heard, DocKey;
  }

  lemma LoadStep(s: System, c: nat, docs: seq<Doc>, id: Id)
    requires Enabled(s, Load(c, docs))
    ensures c in s.clients && s.clients[c].loading.Some?
    ensures var before, s' := s.clients[c], Next(s, Load(c, docs));
            && s'.db == s.db && c in s'.clients
            && s'.clients[c].subs == before.subs && s'.clients[c].loading.None?
            && (id in s'.clients[c].blind <==> id in before.blind && !Under(s.db.store, id, before.loading.value))
            && (id in s'.clients[c].ghosts <==> id in before.ghosts && !Under(s.db.store, id, before.loading.value))
  {
    hide DocKey, Lists;
  }

  /** After the load, exactly the objects that escaped are wrong. */
  lemma {:induction false} WrongIffEscaped(
      s0: System, c: nat, add: set<Key>, remove: set<Key>, window: seq<Action>, docs: seq<Doc>, id: Id)
    requires Inv(s0) && add != {} && Opens(s0, c, add, remove, window)
    requires Enabled(After(Next(s0, Subscribe(c, add, remove)), window), Load(c, docs))
    ensures var s3 := Next(After(Next(s0, Subscribe(c, add, remove)), window), Load(c, docs));
            && Inv(s3) && c in s3.clients
            && s3.clients[c].subs == NewSubs(s0.clients[c].subs, add, remove) && s3.clients[c].loading.None?
            && (Wrong(s3.clients[c], id) <==> Escapes(s0, c, add, remove, window, id))
  {
    hide Inv, Loses, Haunts, DocKey, StaysWatched, StaysUntold, EnabledRun, After, Enabled, Next;
    var s1 := Next(s0, Subscribe(c, add, remove));
    var s2 := After(s1, window);
    WrongAfterChange(s0, c, add, remove, id);
    WrongInWindow(s1, window, c, id);
    RunKeepsInv(s1, window);
    NextKeepsInv(s2, Load(c, docs));
    LoadStep(s2, c, docs, id);
  }

  /**
   A change whose load follows at once, with anything pending: afterwards the client is wrong on exactly the
   objects the change loses or leaves as ghosts and the load does not find. If it was going to be right on the
   object, and holds no copy of it under a removed key, there are three ways to go wrong.
   */
  lemma {:induction false} ChangeAndLoadIff(
      s: System, c: nat, add: set<Key>, remove: set<Key>, docs: seq<Doc>, id: Id)
    requires Inv(s) && add != {} && Enabled(s, Subscribe(c, add, remove))
    requires Enabled(Next(s, Subscribe(c, add, remove)), Load(c, docs))
    ensures var client, later := s.clients[c], Next(Next(s, Subscribe(c, add, remove)), Load(c, docs));
            && c in later.clients
            && (Wrong(later.clients[c], id) <==>
                  && !Under(s.db.store, id, add)
                  && (Loses(client, add, remove, s.db.store, id) || Haunts(client, add, remove, s.db.store, id)))
            && (!Wrong(client, id) && (id in client.replica ==> client.replica[id].key !in remove) ==>
                  (Wrong(later.clients[c], id) <==>
                     || PassedRemoved(client, add, remove, s.db.store, id)
                     || AddedToRemoved(client, add, remove, s.db.store, id)
                     || LeftThroughAdded(client, add, remove, s.db.store, id)))
  {
    var client := s.clients[c];
    assert ClientInv(s.db, s.past, client);
    WrongAfterChange(s, c, add, remove, id);
    LoadStep(Next(s, Subscribe(c, add, remove)), c, docs, id);
    if !Wrong(client, id) && (id in client.replica ==> client.replica[id].key !in remove) {
      GoesWrongIff(s.db, s.past, client, add, remove, id);
    }
    hide Inv, ClientInv, Loses, Haunts, DocKey, PassedRemoved, AddedToRemoved, LeftThroughAdded, Lists, Next;
  }

  // ----- One change of subscriptions -----

  /** A run; client `c` asks for `add`; a window of other steps; its load; any further steps. */
  ghost predicate SubscribeRun(
      before: seq<Action>, c: nat, add: set<Key>, remove: set<Key>,
      window: seq<Action>, docs: seq<Doc>, rest: seq<Action>)
  {
    && EnabledRun(INITIAL, before) && add != {}
    && var s0 := After(INITIAL, before);
    && Opens(s0, c, add, remove, window)
    && var s2 := After(Next(s0, Subscribe(c, add, remove)), window);
    && Enabled(s2, Load(c, docs))
    && EnabledRun(Next(s2, Load(c, docs)), rest) && AllSpare(rest, c)
  }

  ghost function Loaded(
      before: seq<Action>, c: nat, add: set<Key>, remove: set<Key>,
      window: seq<Action>, docs: seq<Doc>, rest: seq<Action>): System
    requires SubscribeRun(before, c, add, remove, window, docs, rest)
  {
    Next(After(Next(After(INITIAL, before), Subscribe(c, add, remove)), window), Load(c, docs))
  }

  ghost function Finally(
      before: seq<Action>, c: nat, add: set<Key>, remove: set<Key>,
      window: seq<Action>, docs: seq<Doc>, rest: seq<Action>): System
    requires SubscribeRun(before, c, add, remove, window, docs, rest)
  {
    After(Loaded(before, c, add, remove, window, docs, rest), rest)
  }

  ghost predicate NoneEscapes(before: seq<Action>, c: nat, add: set<Key>, remove: set<Key>, window: seq<Action>)
    requires EnabledRun(INITIAL, before) && Opens(After(INITIAL, before), c, add, remove, window)
  {
    forall id :: !Escapes(After(INITIAL, before), c, add, remove, window, id)
  }

  lemma {:induction false} RightAfterLoad(
      before: seq<Action>, c: nat, add: set<Key>, remove: set<Key>,
      window: seq<Action>, docs: seq<Doc>, rest: seq<Action>)
    requires SubscribeRun(before, c, add, remove, window, docs, rest)
    ensures var s3 := Loaded(before, c, add, remove, window, docs, rest);
            && Inv(s3) && c in s3.clients
            && s3.clients[c].subs == NewSubs(After(INITIAL, before).clients[c].subs, add, remove)
            && (s3.clients[c].blind == {} && s3.clients[c].ghosts == {} <==> NoneEscapes(before, c, add, remove, window))
  {
    hide Next, Enabled, Inv, EnabledRun, After, Escapes;
    var s0 := After(INITIAL, before);
    InitialIsRight();
    RunKeepsInv(INITIAL, before);
    WrongIffEscaped(s0, c, add, remove, window, docs, "");
    var s3 := Loaded(before, c, add, remove, window, docs, rest);
    forall id
      ensures Wrong(s3.clients[c], id) <==> Escapes(s0, c, add, remove, window, id)
    {
      WrongIffEscaped(s0, c, add, remove, window, docs, id);
    }
    NothingWrong(s3.clients[c]);
  }

  /** From a state in which nothing is wrong with a client, and until it changes its subscriptions. */
  lemma {:induction false} RightStaysRight(s: System, c: nat, rest: seq<Action>)
    requires Inv(s) && c in s.clients && s.clients[c].blind == {} && s.clients[c].ghosts == {}
    requires EnabledRun(s, rest) && AllSpare(rest, c)
    ensures var s' := After(s, rest);
            && c in s'.clients && s'.clients[c].subs == s.clients[c].subs
            && s'.clients[c].blind == {} && s'.clients[c].ghosts == {}
            && (Pending(s'.clients[c]) == [] ==> s'.clients[c].replica == Wanted(s', c))
  {
    hide Enabled, Next, EnabledRun, After, View, StaysWatched, StaysUntold, ClientInv;
    var s' := After(s, rest);
    WrongInWindow(s, rest, c, "");
    forall id
      ensures !Wrong(s'.clients[c], id)
    {
      WrongInWindow(s, rest, c, id);
    }
    NothingWrong(s'.clients[c]);
    RunKeepsInv(s, rest);
    if Pending(s'.clients[c]) == [] {
      SettledIsView(s'.db, s'.past, s'.clients[c]);
    }
  }

  /**
   The subscribe window. A client changes its subscriptions, with anything pending; any steps by others run
   before the objects under the added keys are loaded, and no object escapes; the snapshot goes out ahead
   of whatever was queued; any further steps run. Once the client has nothing pending it holds exactly what
   it should.
   */
  lemma {:induction false} SubscribeWindowConverges(
      before: seq<Action>, c: nat, add: set<Key>, remove: set<Key>,
      window: seq<Action>, docs: seq<Doc>, rest: seq<Action>)
    requires SubscribeRun(before, c, add, remove, window, docs, rest)
    requires NoneEscapes(before, c, add, remove, window)
    ensures var s := Finally(before, c, add, remove, window, docs, rest);
            && c in s.clients
            && s.clients[c].subs == NewSubs(After(INITIAL, before).clients[c].subs, add, remove)
            && (Pending(s.clients[c]) == [] ==> s.clients[c].replica == Wanted(s, c))
  {
    hide Next, Enabled, Inv, NoneEscapes;
    RightAfterLoad(before, c, add, remove, window, docs, rest);
    RightStaysRight(Loaded(before, c, add, remove, window, docs, rest), c, rest);
  }

  lemma {:induction false} WholeLoadSpares(
      s0: System, c: nat, add: set<Key>, remove: set<Key>, window: seq<Action>, id: Id)
    requires Opens(s0, c, add, remove, window) && s0.clients[c].subs - remove <= add
    requires !Haunts(s0.clients[c], add, remove, s0.db.store, id)
    ensures !Escapes(s0, c, add, remove, window, id)
  {
    hide Next, DocKey, Loses, Haunts, EnabledRun, After;
    assert NewSubs(s0.clients[c].subs, add, remove) == add;
  }

  /**
   When the added keys are all the keys the client then watches, and the change leaves no ghost, nothing
   that happens in the window, or happened before, can make it miss an object.
   */
  lemma {:induction false} WholeLoadConverges(
      before: seq<Action>, c: nat, add: set<Key>, remove: set<Key>,
      window: seq<Action>, docs: seq<Doc>, rest: seq<Action>)
    requires SubscribeRun(before, c, add, remove, window, docs, rest)
    requires After(INITIAL, before).clients[c].subs - remove <= add
    requires var s0 := After(INITIAL, before); forall id :: !Haunts(s0.clients[c], add, remove, s0.db.store, id)
    ensures var s := Finally(before, c, add, remove, window, docs, rest);
            && c in s.clients && s.clients[c].subs == add
            && (Pending(s.clients[c]) == [] ==> s.clients[c].replica == Wanted(s, c))
  {
    assert NewSubs(After(INITIAL, before).clients[c].subs, add, remove) == add;
    hide Next, Enabled, Inv, Haunts, EnabledRun, After, Escapes;
    forall id
      ensures !Escapes(After(INITIAL, before), c, add, remove, window, id)
    {
      WholeLoadSpares(After(INITIAL, before), c, add, remove, window, id);
    }
    SubscribeWindowConverges(before, c, add, remove, window, docs, rest);
  }

  lemma FreshStep(s: System, a: Action, c: nat)
    requires Enabled(s, a) && Spares(a, c) && c in s.clients && s.clients[c] == FRESH
    ensures c in Next(s, a).clients && Next(s, a).clients[c] == FRESH
  {
    hide MongoRuns.Perform, MongoRuns.Wires, DocKey, Loses, Haunts;
    if a.Mutate? {
      NothingWatched(MongoRuns.Wires(s.db, a.op));
    }
  }

  /** A client that has not subscribed to anything yet is handed nothing. */
  lemma {:induction false} FreshStaysFresh(s: System, run: seq<Action>, c: nat)
    requires EnabledRun(s, run) && AllSpare(run, c) && c in s.clients && s.clients[c] == FRESH
    ensures c in After(s, run).clients && After(s, run).clients[c] == FRESH
  {
    hide Enabled, Next, EnabledRun, After;
    if run == [] {
      NoSteps(s);
    } else {
      var init, a := run[..|run| - 1], run[|run| - 1];
      assert a in run && forall b <- init :: b in run;
      LastStep(s, run);
      FreshStaysFresh(s, init, c);
      FreshStep(After(s, init), a, c);
    }
  }

  lemma {:induction false} NothingWatched(ws: seq<Wire>)
    ensures Delivered({}, ws) == []
  {
    if ws != [] {
      NothingWatched(ws[1..]);
    }
  }

  /** The first subscription of a client converges whatever runs before it, in its window and after it. */
  lemma {:induction false} FreshClientConverges(
      before: seq<Action>, idle: seq<Action>, c: nat, add: set<Key>, remove: set<Key>,
      window: seq<Action>, docs: seq<Doc>, rest: seq<Action>)
    requires EnabledRun(INITIAL, before) && Enabled(After(INITIAL, before), Connect(c))
    requires EnabledRun(Next(After(INITIAL, before), Connect(c)), idle) && AllSpare(idle, c)
    requires SubscribeRun(before + [Connect(c)] + idle, c, add, remove, window, docs, rest)
    ensures var s := Finally(before + [Connect(c)] + idle, c, add, remove, window, docs, rest);
            && c in s.clients && s.clients[c].subs == add
            && (Pending(s.clients[c]) == [] ==> s.clients[c].replica == Wanted(s, c))
  {
    Extend(INITIAL, before, Connect(c));
    FreshStaysFresh(After(INITIAL, before + [Connect(c)]), idle, c);
    Concat(INITIAL, before + [Connect(c)], idle);
    hide Next, Enabled, Inv, EnabledRun, After;
    WholeLoadConverges(before + [Connect(c)] + idle, c, add, remove, window, docs, rest);
  }

  // ----- Exactly when the window goes wrong -----

  /** The client only writes out what it has. */
  predicate OnlyWrites(rest: seq<Action>) {
    forall a <- rest :: a.WriteLoaded? || a.Drain?
  }

  lemma {:induction false} WritingPutsNothingRight(s: System, rest: seq<Action>, c: nat)
    requires EnabledRun(s, rest) && OnlyWrites(rest) && c in s.clients
    ensures c in After(s, rest).clients
    ensures After(s, rest).clients[c].blind == s.clients[c].blind && After(s, rest).clients[c].ghosts == s.clients[c].ghosts
  {
    if rest != [] {
      hide DocKey, Loses, Haunts;
      assert rest[|rest| - 1] in rest;
      WritingPutsNothingRight(s, rest[..|rest| - 1], c);
    }
  }

  /**
   Once all that was queued and loaded is written out, a client holds what it should exactly when no object
   escaped, whatever it held, missed or had pending before.
   */
  lemma {:induction false} WindowConvergesIff(
      before: seq<Action>, c: nat, add: set<Key>, remove: set<Key>,
      window: seq<Action>, docs: seq<Doc>, rest: seq<Action>)
    requires SubscribeRun(before, c, add, remove, window, docs, rest) && OnlyWrites(rest)
    requires var s := Finally(before, c, add, remove, window, docs, rest);
             c in s.clients ==> Pending(s.clients[c]) == []
    ensures var s := Finally(before, c, add, remove, window, docs, rest);
            c in s.clients
            && (s.clients[c].replica == Wanted(s, c) <==> NoneEscapes(before, c, add, remove, window))
  {
    hide Next, Enabled, NoneEscapes, EnabledRun, After, View, ClientInv;
    RightAfterLoad(before, c, add, remove, window, docs, rest);
    var s3 := Loaded(before, c, add, remove, window, docs, rest);
    WritingPutsNothingRight(s3, rest, c);
    RunKeepsInv(s3, rest);
    var s := After(s3, rest);
    SettledIsView(s.db, s.past, s.clients[c]);
  }
}

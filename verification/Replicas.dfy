/**
 The browser's copy of the objects it watches. The browser is not in this repository; it is taken to
 be this fold over messages, as the comments on the message types and on Tag.V describe it:
 an add inserts unless an equal or newer version is held; a mod applies to the version just before
 it and drops the object when it moves out of sight; a rem removes the object.
 */
module Replicas {
  import opened Base
  import opened Objects
  import opened Mutations

  datatype Held = Held(key: Key, state: State, version: nat, typ: string)

  type Replica = map<Id, Held>

  /** A copy with a diff applied. */
  function Moved(held: Held, m: Msg): Held
    requires m.Mod?
  {
    Held(if m.nsKey.Some? then m.nsKey.value else held.key, held.state + m.diff, m.version, held.typ)
  }

  function Apply(r: Replica, subs: set<Key>, m: Msg): Replica {
    match m
    case Add(id, state, sKey, _, v, typ) =>
      if id in r && r[id].version >= v then r else r[id := Held(sKey, state, v, typ)]
    case Mod(id, _, _, nsKey, v) =>
      if id !in r || r[id].version + 1 != v then r
      else if nsKey.Some? && nsKey.value !in subs then r - {id}
      else
        r[id := Moved(r[id], m)]
    case Rem(id, _, _) => r - {id}
  }

  function ApplyAll(r: Replica, subs: set<Key>, ms: seq<Msg>): Replica
    decreases |ms|
  {
    if ms == [] then r else ApplyAll(Apply(r, subs, ms[0]), subs, ms[1..])
  }

  /** Unsubscribing drops what is held under the removed keys. */
  function Forget(r: Replica, removed: set<Key>): Replica {
    map id | id in r && r[id].key !in removed :: r[id]
  }

  function HeldOf(d: Doc): Held {
    Held(DocKey(d), d.state, d.tag.v, TypeKey(d.kind))
  }

  /** What a client should hold: every committed object whose key it watches, as committed. */
  function View(store: map<Id, Doc>, subs: set<Key>): Replica {
    map id | id in store && DocKey(store[id]) in subs :: HeldOf(store[id])
  }

  /** The add message written for a loaded object, ahead of the queue. */
  function SnapshotMsg(d: Doc): Msg {
    Add(d.tag.id, d.state, DocKey(d), None, d.tag.v, TypeKey(d.kind))
  }

  function Snapshot(docs: seq<Doc>): seq<Msg> {
    seq(|docs|, i requires 0 <= i < |docs| => SnapshotMsg(docs[i]))
  }

  // ----- One object at a time -----

  function Slot<V>(r: map<Id, V>, id: Id): Option<V> {
    if id in r then Some(r[id]) else None
  }

  function ApplySlot(o: Option<Held>, subs: set<Key>, m: Msg): Option<Held> {
    match m
    case Add(_, state, sKey, _, v, typ) =>
      if o.Some? && o.value.version >= v then o else Some(Held(sKey, state, v, typ))
    case Mod(_, _, _, nsKey, v) =>
      if o.None? || o.value.version + 1 != v then o
      else if nsKey.Some? && nsKey.value !in subs then None
      else Some(Moved(o.value, m))
    case Rem(_, _, _) => None
  }

  function ReplaySlot(o: Option<Held>, subs: set<Key>, ms: seq<Msg>, id: Id): Option<Held>
    decreases |ms|
  {
    if ms == [] then o
    else ReplaySlot(if ms[0].id == id then ApplySlot(o, subs, ms[0]) else o, subs, ms[1..], id)
  }

  lemma ApplyIsSlotwise(r: Replica, subs: set<Key>, m: Msg, id: Id)
    ensures Slot(Apply(r, subs, m), id) ==
            if m.id == id then ApplySlot(Slot(r, id), subs, m) else Slot(r, id)
  {}

  lemma {:induction false} ApplyAllIsSlotwise(r: Replica, subs: set<Key>, ms: seq<Msg>, id: Id)
    ensures Slot(ApplyAll(r, subs, ms), id) == ReplaySlot(Slot(r, id), subs, ms, id)
    decreases |ms|
  {
    if ms != [] {
      ApplyIsSlotwise(r, subs, ms[0], id);
      ApplyAllIsSlotwise(Apply(r, subs, ms[0]), subs, ms[1..], id);
    }
  }

  lemma {:induction false} ReplayAppend(o: Option<Held>, subs: set<Key>, a: seq<Msg>, b: seq<Msg>, id: Id)
    ensures ReplaySlot(o, subs, a + b, id) == ReplaySlot(ReplaySlot(o, subs, a, id), subs, b, id)
    decreases |a|
  {
    if a == [] {
      assert a + b == b;
    } else {
      assert (a + b)[1..] == a[1..] + b;
      ReplayAppend(if a[0].id == id then ApplySlot(o, subs, a[0]) else o, subs, a[1..], b, id);
    }
  }

  lemma {:induction false} ReplayOne(o: Option<Held>, subs: set<Key>, m: Msg, id: Id)
    ensures ReplaySlot(o, subs, [m], id) == if m.id == id then ApplySlot(o, subs, m) else o
  {}

  lemma {:induction false} ReplayNone(o: Option<Held>, subs: set<Key>, ms: seq<Msg>, id: Id)
    requires forall m <- ms :: m.id != id
    ensures ReplaySlot(o, subs, ms, id) == o
    decreases |ms|
  {
    if ms != [] {
      assert ms[0] in ms;
      ReplayNone(o, subs, ms[1..], id);
    }
  }

  // ----- Where a queue leads, apart from subscriptions -----

  /** Messages about one object come in the order of their versions, and nothing comes after a rem. */
  ghost predicate Ordered(ms: seq<Msg>) {
    forall i, j :: 0 <= i < j < |ms| && ms[i].id == ms[j].id ==>
      !ms[i].Rem? && (ms[j].Rem? || ms[i].version < ms[j].version)
  }

  /** A copy, and the keys it was moved to since it was last added. */
  datatype Course = Course(held: Held, moves: set<Key>)

  function Start(o: Option<Held>): Option<Course> {
    if o.None? then None else Some(Course(o.value, {}))
  }

  function MovedTo(m: Msg): set<Key> {
    if m.Mod? && m.nsKey.Some? then {m.nsKey.value} else {}
  }

  function Advance(t: Option<Course>, m: Msg): Option<Course> {
    match m
    case Add(_, state, sKey, _, v, typ) =>
      if t.Some? && t.value.held.version >= v then t else Some(Course(Held(sKey, state, v, typ), {}))
    case Mod(_, _, _, _, v) =>
      if t.None? || t.value.held.version + 1 != v then t
      else Some(Course(Moved(t.value.held, m), t.value.moves + MovedTo(m)))
    case Rem(_, _, _) => None
  }

  /** Where a browser that watched every key would get; no subscriptions are involved. */
  function Follow(t: Option<Course>, ms: seq<Msg>, id: Id): Option<Course>
    decreases |ms|
  {
    if ms == [] then t else Follow(if ms[0].id == id then Advance(t, ms[0]) else t, ms[1..], id)
  }

  /** What is left of a course for a browser that watches `subs`: nothing, once it moved out of sight. */
  function Kept(t: Option<Course>, subs: set<Key>): Option<Held> {
    if t.Some? && t.value.moves <= subs then Some(t.value.held) else None
  }

  /** A course that moved since it was added is older than what follows. */
  ghost predicate AheadOf(ms: seq<Msg>, id: Id, t: Option<Course>) {
    t.Some? && t.value.moves != {} ==> forall m <- ms :: m.id == id && !m.Rem? ==> t.value.held.version < m.version
  }

  lemma {:induction false} AdvanceTells(t: Option<Course>, subs: set<Key>, m: Msg)
    requires AheadOf([m], m.id, t)
    ensures ApplySlot(Kept(t, subs), subs, m) == Kept(Advance(t, m), subs)
  {
    assert m in [m];
  }

  lemma AdvanceStaysAhead(t: Option<Course>, ms: seq<Msg>)
    requires ms != [] && Ordered(ms) && AheadOf(ms, ms[0].id, t)
    ensures AheadOf(ms[1..], ms[0].id, Advance(t, ms[0]))
  {
    forall m <- ms[1..] | m.id == ms[0].id && !m.Rem?
      ensures !ms[0].Rem? && ms[0].version < m.version
    {
      var j :| 0 <= j < |ms[1..]| && ms[1..][j] == m;
      assert ms[j + 1] == m;
    }
  }

  lemma OrderedTail(ms: seq<Msg>)
    requires ms != [] && Ordered(ms)
    ensures Ordered(ms[1..])
  {
    forall i, j | 0 <= i < j < |ms[1..]| && ms[1..][i].id == ms[1..][j].id
      ensures !ms[1..][i].Rem? && (ms[1..][j].Rem? || ms[1..][i].version < ms[1..][j].version)
    {
      assert ms[1..][i] == ms[i + 1] && ms[1..][j] == ms[j + 1];
    }
  }

  /**
   What replaying an ordered queue gives depends on the subscriptions in one way only: the copy survives
   exactly when every key it moved to since it was last added is watched.
   */
  lemma {:induction false} FollowTells(t: Option<Course>, subs: set<Key>, ms: seq<Msg>, id: Id)
    requires Ordered(ms) && AheadOf(ms, id, t)
    ensures ReplaySlot(Kept(t, subs), subs, ms, id) == Kept(Follow(t, ms, id), subs)
    decreases |ms|
  {
    if ms != [] {
      hide Kept, Advance, ApplySlot;
      OrderedTail(ms);
      assert ms[0] in ms && forall m <- ms[1..] :: m in ms;
      if ms[0].id == id {
        AdvanceTells(t, subs, ms[0]);
        AdvanceStaysAhead(t, ms);
        FollowTells(Advance(t, ms[0]), subs, ms[1..], id);
      } else {
        FollowTells(t, subs, ms[1..], id);
      }
    }
  }

  lemma {:induction false} FollowNone(t: Option<Course>, ms: seq<Msg>, id: Id)
    requires forall m <- ms :: m.id != id
    ensures Follow(t, ms, id) == t
    decreases |ms|
  {
    if ms != [] {
      assert ms[0] in ms;
      FollowNone(t, ms[1..], id);
    }
  }

  /** A copy that moved is under the key it moved to last. */
  lemma {:induction false} FollowEnds(t: Option<Course>, ms: seq<Msg>, id: Id)
    requires t.Some? && t.value.moves != {} ==> t.value.held.key in t.value.moves
    ensures var r := Follow(t, ms, id); r.Some? && r.value.moves != {} ==> r.value.held.key in r.value.moves
    decreases |ms|
  {
    if ms != [] {
      FollowEnds(if ms[0].id == id then Advance(t, ms[0]) else t, ms[1..], id);
    }
  }

  // ----- Committed versions -----

  /** The committed versions of every object so far. */
  type Past = map<(Id, nat), Held>

  predicate Committed(past: Past, id: Id, held: Held) {
    (id, held.version) in past && past[(id, held.version)] == held
  }

  /** An add carries a committed version; a mod takes a committed version to the next one. */
  ghost predicate Truthful(past: Past, m: Msg) {
    match m
    case Add(id, state, sKey, _, v, typ) => Committed(past, id, Held(sKey, state, v, typ))
    case Mod(id, _, _, _, v) =>
      (id, v) in past && forall h :: Committed(past, id, h) && h.version + 1 == v ==> Committed(past, id, Moved(h, m))
    case Rem(_, _, _) => true
  }

  lemma {:induction false} ReplayIsCommitted(past: Past, o: Option<Held>, subs: set<Key>, ms: seq<Msg>, id: Id)
    requires o.Some? ==> Committed(past, id, o.value)
    requires forall m <- ms :: Truthful(past, m)
    ensures var r := ReplaySlot(o, subs, ms, id); r.Some? ==> Committed(past, id, r.value)
    decreases |ms|
  {
    if ms != [] {
      assert Truthful(past, ms[0]);
      assert forall m <- ms[1..] :: m in ms;
      ReplayIsCommitted(past, if ms[0].id == id then ApplySlot(o, subs, ms[0]) else o, subs, ms[1..], id);
    }
  }

  /** Messages about an object that are no newer than the held version. */
  ghost predicate Stale(ms: seq<Msg>, id: Id, version: nat) {
    forall m <- ms :: m.id == id ==> !m.Rem? && m.version <= version
  }

  /** Stale adds, mods and move-aways never undo a newer copy. */
  lemma {:induction false} StaleIgnored(held: Held, subs: set<Key>, ms: seq<Msg>, id: Id)
    requires Stale(ms, id, held.version)
    ensures ReplaySlot(Some(held), subs, ms, id) == Some(held)
  {
    if ms != [] {
      assert ms[0] in ms;
      StaleIgnored(held, subs, ms[1..], id);
    }
  }

  /** Writing a snapshot leaves an object at its loaded state, whatever older copy was held. */
  lemma {:induction false} SnapshotHolds(o: Option<Held>, subs: set<Key>, docs: seq<Doc>, d: Doc)
    requires forall e <- docs :: e.tag.id == d.tag.id ==> e == d
    requires d in docs || o == Some(HeldOf(d))
    requires o.Some? ==> o.value.version < d.tag.v || o.value == HeldOf(d)
    ensures ReplaySlot(o, subs, Snapshot(docs), d.tag.id) == Some(HeldOf(d))
    decreases |docs|
  {
    if docs != [] {
      assert Snapshot(docs)[1..] == Snapshot(docs[1..]);
      assert docs[0] in docs;
      var o' := if docs[0].tag.id == d.tag.id then ApplySlot(o, subs, SnapshotMsg(docs[0])) else o;
      SnapshotHolds(o', subs, docs[1..], d);
    }
  }

  lemma {:induction false} SnapshotSpares(o: Option<Held>, subs: set<Key>, docs: seq<Doc>, id: Id)
    requires forall e <- docs :: e.tag.id != id
    ensures ReplaySlot(o, subs, Snapshot(docs), id) == o
  {
    if docs != [] {
      assert Snapshot(docs)[1..] == Snapshot(docs[1..]);
      assert docs[0] in docs;
      SnapshotSpares(o, subs, docs[1..], id);
    }
  }

  // ----- One mutation, one client -----

  function DocHeld(o: Option<Doc>, subs: set<Key>): Option<Held> {
    if o.Some? && DocKey(o.value) in subs then Some(HeldOf(o.value)) else None
  }

  /** A move to the empty key is not announced as a move, so it is the one a replica gets wrong. */
  predicate MovesCleanly(h: Handle) {
    Simple(h) || GetSubKey(h) != ""
  }

  /**
   For an up-to-date client, what it is sent about a Modify takes its copy to the new committed view,
   in all four cases of old and new key subscribed or not, exactly when the move is not to the empty
   key from a key it watches.
   */
  lemma ModifyUpdatesView(h: Handle, subs: set<Key>)
    requires h.tag.typ == TypeKey(h.kind)
    ensures ReplaySlot(DocHeld(Some(Stored(h)), subs), subs, Delivered(subs, ModifyWires(h)), h.tag.id)
            == DocHeld(Some(Stored(ModifyHandle(h))), subs)
            <==> MovesCleanly(h) || GetPrevSubKey(h) !in subs
  {
    hide KeyOf;
    ModifyReachesOnce(subs, h);
    var o := DocHeld(Some(Stored(h)), subs);
    if GetPrevSubKey(h) in subs {
      ReplayOne(o, subs, ModMsg(h), h.tag.id);
    } else if GetSubKey(h) in subs {
      ReplayOne(o, subs, MoveAddMsg(h), h.tag.id);
    }
  }

  /** A copy that is no newer than the object and, if it is as new, is equal to it. */
  predicate NoNewer(o: Option<Held>, h: Handle) {
    o.Some? ==> o.value.version <= h.tag.v && (o.value.version == h.tag.v ==> o.value == HeldOf(Stored(h)))
  }

  /**
   For a client that is out of date on the object, what it is sent about a Modify puts it right exactly
   when the object comes into its sight, or was merely missing and goes out of it; otherwise its copy,
   or the lack of one, stays as it is.
   */
  lemma ModifyOfOutdated(h: Handle, o: Option<Held>, subs: set<Key>)
    requires NoNewer(o, h) && o != DocHeld(Some(Stored(h)), subs) && MovesCleanly(h)
    requires h.tag.typ == TypeKey(h.kind)
    ensures var o' := ReplaySlot(o, subs, Delivered(subs, ModifyWires(h)), h.tag.id);
            var want := DocHeld(Some(Stored(ModifyHandle(h))), subs);
            && (GetPrevSubKey(h) !in subs && GetSubKey(h) in subs ==> o' == want)
            && (GetPrevSubKey(h) in subs || GetSubKey(h) !in subs ==>
                  o' == o && (o' == want <==> o.None? && GetSubKey(h) !in subs))
  {
    hide KeyOf;
    ModifyReachesOnce(subs, h);
    if GetPrevSubKey(h) in subs {
      ReplayOne(o, subs, ModMsg(h), h.tag.id);
    } else if GetSubKey(h) in subs {
      ReplayOne(o, subs, MoveAddMsg(h), h.tag.id);
    }
  }

  /** A client that misses an object keeps missing it while it is under a key the client watches. */
  lemma ModifyKeepsMissing(h: Handle, subs: set<Key>)
    requires GetPrevSubKey(h) in subs
    ensures ReplaySlot(None, subs, Delivered(subs, ModifyWires(h)), h.tag.id) == None
  {
    hide KeyOf;
    ModifyReachesOnce(subs, h);
    ReplayOne(None, subs, ModMsg(h), h.tag.id);
  }
}

/**
 The value of a tracked object: committed fields, pending diff and tag.

 Human and Orc are two field lists of one generated pattern, so the pattern is written once over
 fields. TrackedObjects.dfy holds the same object on the heap and is proved against these functions.
 */
module Objects {
  import opened Base
  import opened ChunkKeys

  datatype Field = X | Y | CY | CX | CI | MapID | ID | SubKey | Name

  datatype Value = Num(n: int) | Str(s: string)

  datatype Kind = Human | Orc

  /** Field values: a full state, or a diff that mentions only some fields. */
  type State = map<Field, Value>

  /** The fields of a kind, in the order in which Resolve applies them. */
  function FieldOrder(kind: Kind): seq<Field> {
    match kind
    case Human => [X, Y, CY, CX, CI, MapID]
    case Orc => [ID, SubKey, Name]
  }

  function Fields(kind: Kind): set<Field> {
    set f | f in FieldOrder(kind)
  }

  predicate Fits(f: Field, v: Value) {
    v.Str? <==> f in {MapID, ID, SubKey, Name}
  }

  predicate WellTyped(state: State) {
    forall f <- state :: Fits(f, state[f])
  }

  function TypeKey(kind: Kind): string {
    match kind
    case Human => "c:h"
    case Orc => "c:o"
  }

  /** The container constructor registered with the stores; None is Go's nil. */
  function Creator(typeKey: string): Option<Kind> {
    if typeKey == "c:h" then Some(Human)
    else if typeKey == "c:o" then Some(Orc)
    else None
  }

  datatype Tag = Tag(id: Id, sub: Key, typ: string, v: nat)

  /** An object in memory. `pending` holds the fields whose diff pointer is not nil. */
  datatype Handle = Handle(kind: Kind, tag: Tag, committed: State, pending: State)

  predicate Valid(h: Handle) {
    && h.committed.Keys == Fields(h.kind)
    && h.pending.Keys <= Fields(h.kind)
    && WellTyped(h.committed)
    && WellTyped(h.pending)
  }

  function Effective(h: Handle): State {
    h.committed + h.pending
  }

  // A field that is not there reads as Go's zero value.

  function IntOf(state: State, f: Field): int {
    if f in state && state[f].Num? then state[f].n else 0
  }

  function StringOf(state: State, f: Field): string {
    if f in state && state[f].Str? then state[f].s else ""
  }

  /** The subscription key computed from an object's fields. */
  function KeyOf(kind: Kind, state: State): Key {
    match kind
    case Human => ChunkKey(StringOf(state, MapID), IntOf(state, CX), IntOf(state, CY))
    case Orc => StringOf(state, SubKey)
  }

  function GetSubKey(h: Handle): Key {
    KeyOf(h.kind, Effective(h))
  }

  function GetPrevSubKey(h: Handle): Key {
    KeyOf(h.kind, h.committed)
  }

  function Changed(h: Handle): bool {
    h.pending != map[]
  }

  // ----- What changes an object -----

  /** A setter: pending when the value differs from the committed one, cancelled when it does not. */
  function SetField(h: Handle, f: Field, v: Value): Handle {
    if f in h.committed && v == h.committed[f]
    then h.(pending := h.pending - {f})
    else h.(pending := h.pending[f := v])
  }

  /** Resolve returns `h.pending` and leaves this object. */
  function Resolve(h: Handle): Handle {
    h.(committed := Effective(h), pending := map[], tag := h.tag.(v := h.tag.v + 1))
  }

  /** Init puts every field in the diff, at its committed value. */
  function InitAll(h: Handle): Handle {
    h.(pending := h.committed)
  }

  datatype Edit = Assign(f: Field, v: Value) | ResolveEdit | InitEdit

  predicate Applicable(kind: Kind, e: Edit) {
    e.Assign? ==> e.f in Fields(kind) && Fits(e.f, e.v)
  }

  predicate AllApplicable(kind: Kind, es: seq<Edit>) {
    forall e <- es :: Applicable(kind, e)
  }

  function Do(h: Handle, e: Edit): Handle {
    match e
    case Assign(f, v) => SetField(h, f, v)
    case ResolveEdit => Resolve(h)
    case InitEdit => InitAll(h)
  }

  function DoAll(h: Handle, es: seq<Edit>): Handle {
    if es == [] then h else Do(DoAll(h, es[..|es| - 1]), es[|es| - 1])
  }

  /** The diffs that the Resolve calls among `es` return, in order. */
  function Diffs(h: Handle, es: seq<Edit>): seq<State> {
    if es == [] then [] else
    var init := es[..|es| - 1];
    Diffs(h, init) + if es[|es| - 1].ResolveEdit? then [DoAll(h, init).pending] else []
  }

  function Replay(state: State, diffs: seq<State>): State {
    if diffs == [] then state else Replay(state, diffs[..|diffs| - 1]) + diffs[|diffs| - 1]
  }

  // ----- The simple model: a pair of full states -----

  datatype Pair = Pair(committed: State, effective: State)

  function PairOf(h: Handle): Pair {
    Pair(h.committed, Effective(h))
  }

  function DoPair(p: Pair, e: Edit): Pair {
    match e
    case Assign(f, v) => p.(effective := p.effective[f := v])
    case ResolveEdit => Pair(p.effective, p.effective)
    case InitEdit => Pair(p.committed, p.committed)
  }

  function DoPairAll(p: Pair, es: seq<Edit>): Pair {
    if es == [] then p else DoPair(DoPairAll(p, es[..|es| - 1]), es[|es| - 1])
  }

  /** The smallest diff that takes the committed state to the effective one. */
  function Difference(p: Pair): State {
    map f | f in p.effective && !(f in p.committed && p.committed[f] == p.effective[f]) :: p.effective[f]
  }

  /** Whether Init ran since the last Resolve. */
  predicate InitPending(es: seq<Edit>) {
    es != [] && (es[|es| - 1].InitEdit? || (!es[|es| - 1].ResolveEdit? && InitPending(es[..|es| - 1])))
  }

  // ----- Theorems -----

  lemma DoValid(h: Handle, e: Edit)
    requires Valid(h) && Applicable(h.kind, e)
    ensures Valid(Do(h, e)) && Do(h, e).kind == h.kind
  {}

  lemma {:induction false} DoAllValid(h: Handle, es: seq<Edit>)
    requires Valid(h) && AllApplicable(h.kind, es)
    ensures Valid(DoAll(h, es)) && DoAll(h, es).kind == h.kind
  {
    hide Valid, Do, Applicable;
    if es != [] {
      DoAllValid(h, es[..|es| - 1]);
      assert es[|es| - 1] in es;
      DoValid(DoAll(h, es[..|es| - 1]), es[|es| - 1]);
    }
  }

  lemma DoRefinesPair(g: Handle, e: Edit)
    requires Valid(g) && Applicable(g.kind, e)
    ensures PairOf(Do(g, e)) == DoPair(PairOf(g), e)
  {
    hide Fields, WellTyped;
    match e
    case Assign(f, v) => assert Effective(SetField(g, f, v)) == Effective(g)[f := v];
    case ResolveEdit => assert Effective(Resolve(g)) == Effective(g);
    case InitEdit => assert Effective(InitAll(g)) == g.committed;
  }

  lemma ResolveValid(h: Handle)
    requires Valid(h)
    ensures Valid(Resolve(h)) && Effective(Resolve(h)) == Effective(h)
  {}

  /** Every run of setters, Resolve and Init moves the pair of full states as the simple model does. */
  lemma {:induction false} RefinesPair(h: Handle, es: seq<Edit>)
    requires Valid(h) && AllApplicable(h.kind, es)
    ensures PairOf(DoAll(h, es)) == DoPairAll(PairOf(h), es)
  {
    if es != [] {
      var init := es[..|es| - 1];
      RefinesPair(h, init);
      DoAllValid(h, init);
      assert es[|es| - 1] in es;
      DoRefinesPair(DoAll(h, init), es[|es| - 1]);
    }
  }

  /** No field is in the diff with the value it already has. */
  ghost predicate Minimal(h: Handle) {
    forall f <- h.pending :: f in h.committed ==> h.pending[f] != h.committed[f]
  }

  lemma MinimalIsDifference(h: Handle)
    requires Valid(h) && Minimal(h)
    ensures h.pending == Difference(PairOf(h))
  {
    var d := Difference(PairOf(h));
    assert forall f :: f in h.pending <==> f in d;
  }

  lemma {:induction false} DoAllMinimal(h: Handle, es: seq<Edit>)
    requires Valid(h) && AllApplicable(h.kind, es) && !InitPending(es) && Minimal(h)
    ensures Minimal(DoAll(h, es))
  {
    if es != [] {
      var init, e := es[..|es| - 1], es[|es| - 1];
      DoAllValid(h, init);
      assert e in es;
      if e.Assign? {
        DoAllMinimal(h, init);
      }
    }
  }

  /**
   Unless Init ran since the last Resolve, the diff is the smallest one: a field is in it exactly when
   its effective value differs from its committed one, and Changed tells whether any does.
   */
  lemma PendingIsDifference(h: Handle, es: seq<Edit>)
    requires Valid(h) && AllApplicable(h.kind, es) && !InitPending(es) && Minimal(h)
    ensures DoAll(h, es).pending == Difference(DoPairAll(PairOf(h), es))
    ensures Changed(DoAll(h, es)) <==> DoAll(h, es).committed != Effective(DoAll(h, es))
  {
    RefinesPair(h, es);
    DoAllMinimal(h, es);
    DoAllValid(h, es);
    var g := DoAll(h, es);
    MinimalIsDifference(g);
    if Changed(g) {
      var f :| f in g.pending;
      assert Effective(g)[f] != g.committed[f];
    }
  }

  /** A setter given the committed value cancels whatever was pending on the field. */
  lemma SettingBackCancels(h: Handle, f: Field, v: Value)
    requires Valid(h) && f in Fields(h.kind) && f !in h.pending
    ensures SetField(SetField(h, f, v), f, h.committed[f]) == h
  {
    assert h.pending[f := v] - {f} == h.pending;
    assert h.pending - {f} == h.pending;
  }

  /**
   Folding every diff a run returned over the first committed state gives the last one, and the
   version counts the diffs. Init is allowed anywhere.
   */
  lemma {:induction false} DiffLogReplays(h: Handle, es: seq<Edit>)
    ensures Replay(h.committed, Diffs(h, es)) == DoAll(h, es).committed
    ensures DoAll(h, es).tag.v == h.tag.v + |Diffs(h, es)|
  {
    if es != [] {
      var init := es[..|es| - 1];
      DiffLogReplays(h, init);
      if es[|es| - 1].ResolveEdit? {
        var log := Diffs(h, es);
        assert log[..|log| - 1] == Diffs(h, init);
        assert Replay(h.committed, log) == Effective(DoAll(h, init));
      } else {
        assert Diffs(h, es) == Diffs(h, init);
      }
    }
  }

  /** A Human on map `m`, in column `x` and row `y`, has a key that reads back so, and no other Human has it. */
  lemma HumanKeyReads(state: State, m: string, x: int, y: int)
    requires {MapID, CX, CY} <= state.Keys && WellTyped(state)
    ensures state[MapID] == Str(m) && state[CX] == Num(x) && state[CY] == Num(y) <==> KeyOf(Human, state) == ChunkKey(m, x, y)
    ensures state[MapID] == Str(m) && state[CX] == Num(x) && state[CY] == Num(y) <==>
            ParseChunkKey(KeyOf(Human, state)) == Some((m, x, y))
  {
    hide ChunkKey, ParseChunkKey;
    assert Fits(MapID, state[MapID]) && Fits(CX, state[CX]) && Fits(CY, state[CY]);
    ParseInvertsChunkKey(state[MapID].s, state[CX].n, state[CY].n);
    ChunkKeyInjective(state[MapID].s, state[CX].n, state[CY].n, m, x, y);
  }

  /** An Orc's key is its SubKey field. */
  lemma OrcKeyReads(state: State, key: Key)
    requires SubKey in state && WellTyped(state)
    ensures KeyOf(Orc, state) == key <==> state[SubKey] == Str(key)
  {
    assert Fits(SubKey, state[SubKey]);
  }

  /** The fields of the two kinds and their Go types, as declared. */
  lemma FieldsAsDeclared(kind: Kind, f: Field, v: Value)
    ensures f in Fields(kind) <==> f in if kind.Human? then {X, Y, CY, CX, CI, MapID} else {ID, SubKey, Name}
    ensures f in Fields(kind) ==> (Fits(f, v) <==> if kind.Orc? || f == MapID then v.Str? else v.Num?)
  {
    assert f in Fields(kind) <==> f in FieldOrder(kind);
  }

  /** A container is found for exactly the type keys of the two kinds, and it is of that kind. */
  lemma CreatorIff(typeKey: string, kind: Kind)
    ensures Creator(typeKey) == Some(kind) <==> typeKey == (if kind.Human? then "c:h" else "c:o")
    ensures TypeKey(kind) == typeKey <==> Creator(typeKey) == Some(kind)
  {}

  /** A Human changes key exactly when its map name or a chunk coordinate changes. */
  lemma {:induction false} HumanKeyChanges(h: Handle)
    requires Valid(h) && h.kind.Human?
    ensures GetSubKey(h) == GetPrevSubKey(h) <==>
            forall f :: f in {MapID, CX, CY} ==> Effective(h)[f] == h.committed[f]
  {
    hide ChunkKey;
    var c, e := h.committed, Effective(h);
    ChunkKeyInjective(StringOf(e, MapID), IntOf(e, CX), IntOf(e, CY),
                      StringOf(c, MapID), IntOf(c, CX), IntOf(c, CY));
    assert Fields(Human) == {X, Y, CY, CX, CI, MapID};
    assert Fits(MapID, c[MapID]) && Fits(CX, c[CX]) && Fits(CY, c[CY]);
    assert Fits(MapID, e[MapID]) && Fits(CX, e[CX]) && Fits(CY, e[CY]);
  }
}

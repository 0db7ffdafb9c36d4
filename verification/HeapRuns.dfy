/**
 Arbitrary runs of setters, Resolve, Init and Copy over any number of objects on the heap.

 No method writes an existing variable, so what can be seen of the heap is a world of plain values in which
 one kind of sharing is left: Init makes a diff refer to the committed fields of its object.
 */
module HeapRuns {
  import O = Objects
  import opened TrackedObjects

  datatype Act = On(i: nat, e: O.Edit) | CopyOf(i: nat)

  /** What a diff has for a field: a value nobody can change, or whatever the object's field holds. */
  datatype Ref = Fixed(v: Value) | FieldOf(i: nat, f: Field)

  type Refs = map<Field, Ref>

  datatype Object = Object(kind: O.Kind, tag: O.Tag, state: State, diff: Refs)

  /** The objects, and the diffs handed out so far. */
  datatype World = World(objs: seq<Object>, diffs: seq<Refs>)

  function ReadRef(w: World, r: Ref): Value {
    match r
    case Fixed(v) => v
    case FieldOf(i, f) => if i < |w.objs| && f in w.objs[i].state then w.objs[i].state[f] else O.Num(0)
  }

  /** The values a diff shows. */
  function Shown(w: World, d: Refs): State {
    map f | f in d :: ReadRef(w, d[f])
  }

  /** An object's value, as Objects has it. */
  function HandleOf(w: World, j: nat): O.Handle
    requires j < |w.objs|
  {
    O.Handle(w.objs[j].kind, w.objs[j].tag, w.objs[j].state, Shown(w, w.objs[j].diff))
  }

  predicate Possible(w: World, a: Act) {
    a.i < |w.objs| && (a.On? ==> O.Applicable(w.objs[a.i].kind, a.e))
  }

  function Edited(w: World, i: nat, e: O.Edit): Object
    requires i < |w.objs|
  {
    var o := w.objs[i];
    match e
    case Assign(f, v) =>
      o.(diff := if f in o.state && v == o.state[f] then o.diff - {f} else o.diff[f := Fixed(v)])
    case ResolveEdit =>
      o.(state := o.state + Shown(w, o.diff), diff := map[], tag := o.tag.(v := o.tag.v + 1))
    case InitEdit => o.(diff := map f | f in o.state :: FieldOf(i, f))
  }

  function Step(w: World, a: Act): World
    requires Possible(w, a)
  {
    match a
    case On(i, e) => World(w.objs[i := Edited(w, i, e)], w.diffs + if e.ResolveEdit? then [w.objs[i].diff] else [])
    case CopyOf(i) => w.(objs := w.objs + [w.objs[i]])
  }

  ghost predicate AllPossible(w: World, acts: seq<Act>)
    decreases |acts|
  {
    acts == [] || (Possible(w, acts[0]) && AllPossible(Step(w, acts[0]), acts[1..]))
  }

  ghost function StepAll(w: World, acts: seq<Act>): World
    requires AllPossible(w, acts)
    decreases |acts|
  {
    if acts == [] then w else StepAll(Step(w, acts[0]), acts[1..])
  }

  // ----- Well-formed worlds -----

  /** A diff entry for field `f` fits the field; one that refers to an object refers to the same field of it. */
  predicate FitsRef(w: World, f: Field, r: Ref) {
    match r
    case Fixed(v) => O.Fits(f, v)
    case FieldOf(i, g) => g == f && i < |w.objs| && f in w.objs[i].state
  }

  ghost predicate FitsRefs(w: World, d: Refs) {
    forall f <- d :: FitsRef(w, f, d[f])
  }

  ghost predicate Sound(w: World) {
    && (forall i :: 0 <= i < |w.objs| ==>
          && w.objs[i].state.Keys == O.Fields(w.objs[i].kind) && O.WellTyped(w.objs[i].state)
          && w.objs[i].diff.Keys <= O.Fields(w.objs[i].kind) && FitsRefs(w, w.objs[i].diff))
    && (forall d <- w.diffs :: FitsRefs(w, d))
  }

  lemma SoundIsValid(w: World, j: nat)
    requires Sound(w) && j < |w.objs|
    ensures O.Valid(HandleOf(w, j))
  {
    hide O.Fields, O.Fits, O.KeyOf;
    assert FitsRefs(w, w.objs[j].diff);
    forall f <- w.objs[j].diff
      ensures O.Fits(f, ReadRef(w, w.objs[j].diff[f]))
    {
      assert FitsRef(w, f, w.objs[j].diff[f]);
    }
  }

  lemma StepKeepsRefs(w: World, a: Act, d: Refs)
    requires Sound(w) && Possible(w, a) && FitsRefs(w, d)
    ensures FitsRefs(Step(w, a), d)
  {
    hide O.Fields, O.Fits, O.KeyOf, O.WellTyped;
    forall f <- d
      ensures FitsRef(Step(w, a), f, d[f])
    {
      assert FitsRef(w, f, d[f]);
    }
  }

  lemma EditedFits(w: World, i: nat, e: O.Edit)
    requires Sound(w) && Possible(w, On(i, e))
    ensures var o := Edited(w, i, e);
            && o.kind == w.objs[i].kind && o.state.Keys == O.Fields(o.kind) && O.WellTyped(o.state)
            && o.diff.Keys <= O.Fields(o.kind) && FitsRefs(w, o.diff)
  {
    hide O.Fields, O.Fits, O.KeyOf;
    SoundIsValid(w, i);
    O.DoValid(HandleOf(w, i), e);
    assert FitsRefs(w, w.objs[i].diff);
  }

  lemma StepKeepsSound(w: World, a: Act)
    requires Sound(w) && Possible(w, a)
    ensures Sound(Step(w, a))
  {
    hide O.Fields, O.Fits, O.KeyOf, O.WellTyped, FitsRefs, Edited;
    var w' := Step(w, a);
    if a.On? {
      EditedFits(w, a.i, a.e);
      StepKeepsRefs(w, a, Edited(w, a.i, a.e).diff);
    }
    forall i | 0 <= i < |w.objs|
      ensures FitsRefs(w', w.objs[i].diff)
    {
      StepKeepsRefs(w, a, w.objs[i].diff);
    }
    forall d <- w.diffs
      ensures FitsRefs(w', d)
    {
      StepKeepsRefs(w, a, d);
    }
  }

  lemma {:induction false} RunKeepsSound(w: World, acts: seq<Act>)
    requires Sound(w) && AllPossible(w, acts)
    ensures Sound(StepAll(w, acts)) && |w.objs| <= |StepAll(w, acts).objs|
    decreases |acts|
  {
    if acts != [] {
      StepKeepsSound(w, acts[0]);
      RunKeepsSound(Step(w, acts[0]), acts[1..]);
    }
  }

  // ----- Frozen diffs -----

  predicate AllFixed(d: Refs) {
    forall f <- d :: d[f].Fixed?
  }

  /** However the run goes on, the diff shows what it shows now. */
  ghost predicate Frozen(w: World, d: Refs) {
    forall acts :: AllPossible(w, acts) ==> Shown(StepAll(w, acts), d) == Shown(w, d)
  }

  lemma FixedShowsTheSame(w: World, w': World, d: Refs)
    requires AllFixed(d)
    ensures Shown(w', d) == Shown(w, d)
  {}

  /** Diffs are only added. */
  lemma {:induction false} DiffsStay(w: World, acts: seq<Act>)
    requires AllPossible(w, acts)
    ensures w.diffs <= StepAll(w, acts).diffs
    decreases |acts|
  {
    if acts != [] {
      DiffsStay(Step(w, acts[0]), acts[1..]);
    }
  }

  /** A value of the same type that is not the given one. */
  function Other(v: Value): (r: Value)
    ensures r != v && forall f :: O.Fits(f, r) <==> O.Fits(f, v)
  {
    match v
    case Num(n) => O.Num(n + 1)
    case Str(s) => O.Str(s + "'")
  }

  /** One more change of field `f` of object `i`, resolved. */
  function Change(w: World, i: nat, f: Field): seq<Act>
    requires i < |w.objs| && f in w.objs[i].state
  {
    [On(i, O.Assign(f, Other(w.objs[i].state[f]))), On(i, O.ResolveEdit)]
  }

  lemma {:induction false} ChangeShows(w: World, i: nat, f: Field)
    requires Sound(w) && i < |w.objs| && f in w.objs[i].state
    ensures AllPossible(w, Change(w, i, f))
    ensures var w' := StepAll(w, Change(w, i, f));
            |w'.objs| == |w.objs| && f in w'.objs[i].state && w'.objs[i].state[f] == Other(w.objs[i].state[f])
    ensures forall j :: 0 <= j < |w.objs| && j != i ==> StepAll(w, Change(w, i, f)).objs[j] == w.objs[j]
  {
    hide O.Fields, O.Fits, O.KeyOf, Other;
    var acts := Change(w, i, f);
    assert O.Fits(f, w.objs[i].state[f]) && f in O.Fields(w.objs[i].kind);
    var v := Other(w.objs[i].state[f]);
    assert O.Fits(f, v);
    var w1 := Step(w, acts[0]);
    assert acts[1..] == [acts[1]] && acts[1..][1..] == [];
    assert w1.objs[i].diff[f] == Fixed(v);
    var w2 := Step(w1, acts[1]);
    assert AllPossible(w2, []) && AllPossible(w1, acts[1..]);
    assert StepAll(w1, acts[1..]) == w2;
  }

  /** A diff handed out, or pending, is frozen exactly when it refers to no object's fields. */
  lemma {:induction false} FrozenIff(w: World, d: Refs)
    requires Sound(w) && FitsRefs(w, d)
    ensures Frozen(w, d) <==> AllFixed(d)
  {
    hide O.Fields, O.KeyOf;
    if AllFixed(d) {
      forall w': World
        ensures Shown(w', d) == Shown(w, d)
      {
        FixedShowsTheSame(w, w', d);
      }
    } else {
      var f :| f in d && !d[f].Fixed?;
      assert FitsRef(w, f, d[f]);
      ChangeShows(w, d[f].i, f);
      assert Shown(StepAll(w, Change(w, d[f].i, f)), d)[f] != Shown(w, d)[f];
    }
  }

  // ----- Which diffs refer to fields -----

  function SharedIn(d: Refs): set<Field> {
    set f | f in d && d[f].FieldOf?
  }

  /** The fields Init shared since the last Resolve that were not set again since. */
  function SharedBy(kind: O.Kind, start: set<Field>, es: seq<O.Edit>): set<Field> {
    if es == [] then start else
    var before := SharedBy(kind, start, es[..|es| - 1]);
    match es[|es| - 1]
    case Assign(f, _) => before - {f}
    case ResolveEdit => {}
    case InitEdit => O.Fields(kind)
  }

  lemma {:induction false} SharedByFront(kind: O.Kind, start: set<Field>, e: O.Edit, es: seq<O.Edit>)
    ensures SharedBy(kind, start, [e] + es) == SharedBy(kind, SharedBy(kind, start, [e]), es)
  {
    if es == [] {
      assert [e] + es == [e];
    } else {
      SharedByFront(kind, start, e, es[..|es| - 1]);
      assert ([e] + es)[..|es|] == [e] + es[..|es| - 1];
    }
  }

  /** Nothing is shared unless Init ran since the last Resolve. */
  lemma {:induction false} SharedOnlyByInit(kind: O.Kind, es: seq<O.Edit>)
    requires !O.InitPending(es)
    ensures SharedBy(kind, {}, es) == {}
  {
    if es != [] && es[|es| - 1].Assign? {
      SharedOnlyByInit(kind, es[..|es| - 1]);
    }
  }

  /** The edits a run makes of object `j`. */
  function EditsOf(acts: seq<Act>, j: nat): seq<O.Edit> {
    if acts == [] then [] else
    (if acts[0].On? && acts[0].i == j then [acts[0].e] else []) + EditsOf(acts[1..], j)
  }

  lemma {:induction false} StepShares(w: World, a: Act, j: nat)
    requires Sound(w) && Possible(w, a) && j < |w.objs|
    ensures j < |Step(w, a).objs| && Step(w, a).objs[j].kind == w.objs[j].kind
    ensures SharedIn(Step(w, a).objs[j].diff) ==
            if a.On? && a.i == j then SharedBy(w.objs[j].kind, SharedIn(w.objs[j].diff), [a.e])
            else SharedIn(w.objs[j].diff)
  {
    hide O.Fields, O.KeyOf, O.WellTyped;
    if a.On? && a.i == j {
      assert [a.e][..0] == [];
      assert w.objs[j].state.Keys == O.Fields(w.objs[j].kind);
    }
  }

  /** What a diff shares is a matter of the edits of its object alone, Init included. */
  lemma {:induction false} RunShares(w: World, acts: seq<Act>, j: nat)
    requires Sound(w) && AllPossible(w, acts) && j < |w.objs|
    ensures j < |StepAll(w, acts).objs|
    ensures SharedIn(StepAll(w, acts).objs[j].diff) ==
            SharedBy(w.objs[j].kind, SharedIn(w.objs[j].diff), EditsOf(acts, j))
    decreases |acts|
  {
    if acts != [] {
      hide Step, SharedBy, SharedIn, Possible;
      StepKeepsSound(w, acts[0]);
      StepShares(w, acts[0], j);
      RunShares(Step(w, acts[0]), acts[1..], j);
      if acts[0].On? && acts[0].i == j {
        SharedByFront(w.objs[j].kind, SharedIn(w.objs[j].diff), acts[0].e, EditsOf(acts[1..], j));
      } else {
        assert EditsOf(acts, j) == EditsOf(acts[1..], j);
      }
    } else {
      assert EditsOf(acts, j) == [];
    }
  }

  /**
   Exactly when the diff that Resolve hands out is frozen for good: no field of it is as Init left it. Without
   an Init since the object's last Resolve it always is.
   */
  lemma {:induction false} HandedOutFrozenIff(w: World, acts: seq<Act>, j: nat)
    requires Sound(w) && AllPossible(w, acts) && j < |w.objs|
    ensures j < |StepAll(w, acts).objs|
    ensures var w1 := StepAll(w, acts);
            var d := w1.objs[j].diff;
            var w2 := Step(w1, On(j, O.ResolveEdit));
            && w2.diffs == w1.diffs + [d]
            && Shown(w2, d) == HandleOf(w1, j).pending
            && (Frozen(w2, d) <==> SharedBy(w.objs[j].kind, SharedIn(w.objs[j].diff), EditsOf(acts, j)) == {})
            && (SharedIn(w.objs[j].diff) == {} && !O.InitPending(EditsOf(acts, j)) ==> Frozen(w2, d))
  {
    RunKeepsSound(w, acts);
    RunShares(w, acts, j);
    var w1 := StepAll(w, acts);
    var a := On(j, O.ResolveEdit);
    StepKeepsSound(w1, a);
    StepKeepsRefs(w1, a, w1.objs[j].diff);
    FrozenIff(Step(w1, a), w1.objs[j].diff);
    ResolveShows(w1, j);
    FixedIsUnshared(w1.objs[j].diff);
    if SharedIn(w.objs[j].diff) == {} && !O.InitPending(EditsOf(acts, j)) {
      SharedOnlyByInit(w.objs[j].kind, EditsOf(acts, j));
    }
    hide Step, Shown, Frozen, AllFixed, SharedIn, SharedBy, StepAll, AllPossible;
  }

  lemma FixedIsUnshared(d: Refs)
    ensures AllFixed(d) <==> SharedIn(d) == {}
  {
    if !AllFixed(d) {
      var f :| f in d && !d[f].Fixed?;
      assert f in SharedIn(d);
    }
  }

  lemma ResolveShows(w: World, j: nat)
    requires Sound(w) && j < |w.objs|
    ensures Shown(Step(w, On(j, O.ResolveEdit)), w.objs[j].diff) == Shown(w, w.objs[j].diff)
  {
    hide O.Fields, O.KeyOf, O.WellTyped, O.Fits;
    var d := w.objs[j].diff;
    assert FitsRefs(w, d);
    forall f <- d
      ensures ReadRef(Step(w, On(j, O.ResolveEdit)), d[f]) == ReadRef(w, d[f])
    {
      assert FitsRef(w, f, d[f]);
    }
  }

  // ----- Objects and their copies -----

  /** The object's diff refers to no other object. */
  predicate Alone(w: World, j: nat)
    requires j < |w.objs|
  {
    forall f <- w.objs[j].diff :: w.objs[j].diff[f].FieldOf? ==> w.objs[j].diff[f].i == j
  }

  lemma StepAlone(w: World, a: Act, j: nat)
    requires Sound(w) && Possible(w, a) && j < |w.objs| && Alone(w, j)
    ensures j < |Step(w, a).objs| && Alone(Step(w, a), j)
    ensures HandleOf(Step(w, a), j) == if a.On? && a.i == j then O.Do(HandleOf(w, j), a.e) else HandleOf(w, j)
  {
    hide O.Fields, O.KeyOf, O.WellTyped, O.Fits;
    var w' := Step(w, a);
    assert FitsRefs(w, w.objs[j].diff);
    if a.On? && a.i == j {
      match a.e
      case Assign(f, v) => assert Shown(w', w'.objs[j].diff) == O.SetField(HandleOf(w, j), f, v).pending;
      case ResolveEdit => assert Shown(w', w'.objs[j].diff) == map[];
      case InitEdit => assert Shown(w', w'.objs[j].diff) == w.objs[j].state;
    } else {
      assert w'.objs[j] == w.objs[j];
      assert Shown(w', w'.objs[j].diff) == Shown(w, w.objs[j].diff);
    }
  }

  lemma {:induction false} DoAllFront(h: O.Handle, e: O.Edit, es: seq<O.Edit>)
    ensures O.DoAll(h, [e] + es) == O.DoAll(O.Do(h, e), es)
  {
    if es == [] {
      assert ([e] + es)[..0] == [];
    } else {
      DoAllFront(h, e, es[..|es| - 1]);
      assert ([e] + es)[..|es|] == [e] + es[..|es| - 1];
    }
  }

  /** An object ends as its own edits make it, whatever happens to others, its copies among them. */
  lemma {:induction false} EvolvesAlone(w: World, acts: seq<Act>, j: nat)
    requires Sound(w) && AllPossible(w, acts) && j < |w.objs| && Alone(w, j)
    ensures j < |StepAll(w, acts).objs|
    ensures HandleOf(StepAll(w, acts), j) == O.DoAll(HandleOf(w, j), EditsOf(acts, j))
    decreases |acts|
  {
    if acts != [] {
      hide Step, HandleOf, Alone, Possible, O.Do;
      StepKeepsSound(w, acts[0]);
      StepAlone(w, acts[0], j);
      EvolvesAlone(Step(w, acts[0]), acts[1..], j);
      if acts[0].On? && acts[0].i == j {
        DoAllFront(HandleOf(w, j), acts[0].e, EditsOf(acts[1..], j));
      } else {
        assert EditsOf(acts, j) == EditsOf(acts[1..], j);
      }
    } else {
      assert EditsOf(acts, j) == [];
    }
  }

  ghost predicate Independent(w: World, j: nat)
    requires j < |w.objs|
  {
    forall acts :: AllPossible(w, acts) ==>
      j < |StepAll(w, acts).objs| && HandleOf(StepAll(w, acts), j) == O.DoAll(HandleOf(w, j), EditsOf(acts, j))
  }

  lemma {:induction false} NoEditsOf(acts: seq<Act>, j: nat)
    requires forall a <- acts :: a.On? ==> a.i != j
    ensures EditsOf(acts, j) == []
  {
    if acts != [] {
      assert acts[0] in acts && forall a <- acts[1..] :: a in acts;
      NoEditsOf(acts[1..], j);
    }
  }

  /** A change of another object's field that the diff refers to is seen through the diff. */
  lemma {:induction false} Entangled(w: World, j: nat, f: Field)
    requires Sound(w) && j < |w.objs| && f in w.objs[j].diff
    requires w.objs[j].diff[f].FieldOf? && w.objs[j].diff[f].i != j
    ensures !Independent(w, j)
  {
    hide O.Fields, O.KeyOf, O.WellTyped, O.Fits, Other, Independent;
    var r := w.objs[j].diff[f];
    assert FitsRefs(w, w.objs[j].diff);
    assert FitsRef(w, f, r);
    ChangeShows(w, r.i, f);
    var acts := Change(w, r.i, f);
    NoEditsOf(acts, j);
    var w' := StepAll(w, acts);
    assert w'.objs[j] == w.objs[j];
    assert HandleOf(w', j).pending[f] != HandleOf(w, j).pending[f];
    NotIndependent(w, acts, j);
  }

  lemma NotIndependent(w: World, acts: seq<Act>, j: nat)
    requires j < |w.objs| && AllPossible(w, acts) && j < |StepAll(w, acts).objs|
    requires EditsOf(acts, j) == [] && HandleOf(StepAll(w, acts), j) != HandleOf(w, j)
    ensures !Independent(w, j)
  {
    hide HandleOf, AllPossible, StepAll;
    assert O.DoAll(HandleOf(w, j), []) == HandleOf(w, j);
  }

  /** An object is independent of all others, whatever they do, exactly when its diff refers to none of them. */
  lemma {:induction false} IndependentIff(w: World, j: nat)
    requires Sound(w) && j < |w.objs|
    ensures Independent(w, j) <==> Alone(w, j)
  {
    hide HandleOf, AllPossible, StepAll, Sound;
    if Alone(w, j) {
      forall acts | AllPossible(w, acts)
        ensures j < |StepAll(w, acts).objs| && HandleOf(StepAll(w, acts), j) == O.DoAll(HandleOf(w, j), EditsOf(acts, j))
      {
        EvolvesAlone(w, acts, j);
      }
    } else {
      var f :| f in w.objs[j].diff && w.objs[j].diff[f].FieldOf? && w.objs[j].diff[f].i != j;
      Entangled(w, j, f);
    }
  }

  /**
   A new copy and its original go their own ways, whatever either does next, exactly when the original's diff
   refers to no object's fields at that time; the original does if it did before.
   */
  lemma {:induction false} CopyIndependentIff(w: World, i: nat)
    requires Sound(w) && i < |w.objs|
    ensures var w' := Step(w, CopyOf(i));
            && (Independent(w', |w.objs|) <==> AllFixed(w.objs[i].diff))
            && (Independent(w', i) <==> Independent(w, i))
  {
    var w' := Step(w, CopyOf(i));
    StepKeepsSound(w, CopyOf(i));
    IndependentIff(w', |w.objs|);
    IndependentIff(w', i);
    IndependentIff(w, i);
    hide Independent, O.Fields, O.KeyOf, O.WellTyped, O.Fits;
    var d := w.objs[i].diff;
    assert FitsRefs(w, d);
    assert forall f <- d :: FitsRef(w, f, d[f]);
    assert w'.objs[|w.objs|] == w.objs[i];
  }

  // ----- The heap -----

  /** The variables a diff points to. */
  function Cells(d: Diff): set<Cell> {
    set f | f in d && d[f].ToVar? :: d[f].cell
  }

  /** The heap's diff has for each field what the world's has: a variable's value, or an object's field. */
  ghost predicate Refers(objs: seq<TrackedObject>, d: Diff, r: Refs)
    reads Cells(d)
  {
    && d.Keys == r.Keys
    && forall f <- d ::
         match d[f]
         case ToVar(c) => r[f] == Fixed(c.value)
         case ToField(o, g) => r[f].FieldOf? && r[f].i < |objs| && objs[r[f].i] == o && r[f].f == g
  }

  /** The heap shows the world: in the objects, which are distinct, and in every diff handed out. */
  ghost predicate Shows(objs: seq<TrackedObject>, diffs: seq<Diff>, w: World)
    reads objs, set o, x | o in objs && x in Cells(o.diff) :: x
    reads set d, x | d in diffs && x in Cells(d) :: x
  {
    && Sound(w)
    && |objs| == |w.objs| && |diffs| == |w.diffs|
    && (forall i, j :: 0 <= i < j < |objs| ==> objs[i] != objs[j])
    && (forall i :: 0 <= i < |objs| ==>
          && objs[i].kind == w.objs[i].kind && objs[i].tag == w.objs[i].tag && objs[i].state == w.objs[i].state
          && O.AllApplicable(objs[i].kind, objs[i].onCreate)
          && Refers(objs, objs[i].diff, w.objs[i].diff))
    && (forall k :: 0 <= k < |diffs| ==> Refers(objs, diffs[k], w.diffs[k]))
  }

  /** A diff on the heap has the values the world's shows. */
  lemma RefersShown(objs: seq<TrackedObject>, d: Diff, w: World, r: Refs)
    requires |objs| == |w.objs| && (forall i :: 0 <= i < |objs| ==> objs[i].state == w.objs[i].state)
    requires Refers(objs, d, r) && FitsRefs(w, r)
    ensures Deref(d) == Shown(w, r)
    ensures forall f <- d :: d[f].ToField? ==> d[f].field == f
  {
    forall f <- d
      ensures Read(d[f]) == ReadRef(w, r[f])
    {
      assert FitsRef(w, f, r[f]);
    }
  }

  /** What a world says of objects and diffs is true of those on the heap. */
  lemma ShowsMeans(objs: seq<TrackedObject>, diffs: seq<Diff>, w: World)
    requires Shows(objs, diffs, w)
    ensures |objs| == |w.objs| && |diffs| == |w.diffs|
    ensures forall i :: 0 <= i < |objs| ==> objs[i].Valid() && objs[i].Model() == HandleOf(w, i)
    ensures forall k :: 0 <= k < |diffs| ==> Deref(diffs[k]) == Shown(w, w.diffs[k])
    ensures forall k :: 0 <= k < |diffs| ==> (Loose(diffs[k]) <==> AllFixed(w.diffs[k]))
  {
    hide O.Fields, O.KeyOf, O.WellTyped, O.Fits, O.Valid, O.AllApplicable;
    forall i | 0 <= i < |objs|
      ensures objs[i].Valid() && objs[i].Model() == HandleOf(w, i)
    {
      RefersShown(objs, objs[i].diff, w, w.objs[i].diff);
      SoundIsValid(w, i);
    }
    forall k | 0 <= k < |diffs|
      ensures Deref(diffs[k]) == Shown(w, w.diffs[k])
      ensures Loose(diffs[k]) <==> AllFixed(w.diffs[k])
    {
      assert w.diffs[k] in w.diffs;
      RefersShown(objs, diffs[k], w, w.diffs[k]);
    }
  }

  lemma SetRefers(objs: seq<TrackedObject>, d: Diff, r: Refs, f: Field)
    requires Refers(objs, d, r)
    ensures Refers(objs, d - {f}, r - {f})
  {}

  lemma PutRefers(objs: seq<TrackedObject>, d: Diff, r: Refs, f: Field, c: Cell)
    requires Refers(objs, d, r)
    ensures Refers(objs, d[f := ToVar(c)], r[f := Fixed(c.value)])
  {}

  lemma InitRefers(objs: seq<TrackedObject>, i: nat, state: State)
    requires i < |objs|
    ensures Refers(objs, map f | f in state :: ToField(objs[i], f), map f | f in state :: FieldOf(i, f))
  {}

  lemma GrowRefers(objs: seq<TrackedObject>, n: TrackedObject, d: Diff, r: Refs)
    requires Refers(objs, d, r)
    ensures Refers(objs + [n], d, r)
  {}

  /** The variables that were there have kept their values, so every diff there was still has what it had. */
  method Set(objs: seq<TrackedObject>, diffs: seq<Diff>, i: nat, o: TrackedObject, f: Field, v: Value, ghost w: World)
    requires Shows(objs, diffs, w) && Possible(w, On(i, O.Assign(f, v))) && o == objs[i]
    modifies o`diff
    ensures forall k :: 0 <= k < |objs| ==> Refers(objs, old(objs[k].diff), w.objs[k].diff)
    ensures forall k :: 0 <= k < |diffs| ==> Refers(objs, diffs[k], w.diffs[k])
    ensures if f in o.state && v == o.state[f] then o.diff == old(o.diff) - {f}
            else f in o.diff && o.diff[f].ToVar? && o.diff[f].cell.value == v && o.diff == old(o.diff)[f := o.diff[f]]
  {
    hide O.Fields, O.WellTyped, O.Fits, O.Valid, O.AllApplicable, O.SetField, Sound, Deref, HandleOf, Shown;
    ShowsMeans(objs, diffs, w);
    o.Set(f, v);
  }

  method RunSet(objs: seq<TrackedObject>, diffs: seq<Diff>, i: nat, f: Field, v: Value, ghost w: World)
    requires Shows(objs, diffs, w) && Possible(w, On(i, O.Assign(f, v)))
    modifies objs
    ensures Shows(objs, diffs, Step(w, On(i, O.Assign(f, v))))
  {
    hide O.Fields, O.WellTyped, O.Fits, O.Valid, O.AllApplicable, O.SetField, Sound, Refers, Deref, HandleOf, Shown;
    StepKeepsSound(w, On(i, O.Assign(f, v)));
    var o := objs[i];
    ghost var before := o.diff;
    Set(objs, diffs, i, o, f, v, w);
    SetRefers(objs, before, w.objs[i].diff, f);
    if f in o.diff && o.diff[f].ToVar? {
      PutRefers(objs, before, w.objs[i].diff, f, o.diff[f].cell);
    }
  }

  method Resolve(objs: seq<TrackedObject>, diffs: seq<Diff>, i: nat, ghost w: World) returns (d: Diff)
    requires Shows(objs, diffs, w) && Possible(w, On(i, O.ResolveEdit))
    modifies objs[i]
    ensures forall k :: 0 <= k < |objs| ==> Refers(objs, old(objs[k].diff), w.objs[k].diff)
    ensures forall k :: 0 <= k < |diffs| ==> Refers(objs, diffs[k], w.diffs[k])
    ensures d == old(objs[i].diff) && objs[i].diff == map[]
    ensures objs[i].state == w.objs[i].state + Shown(w, w.objs[i].diff)
    ensures objs[i].tag == w.objs[i].tag.(v := w.objs[i].tag.v + 1)
  {
    hide O.Fields, O.WellTyped, O.Fits, O.Valid, O.AllApplicable, Sound, Deref, Shown;
    ShowsMeans(objs, diffs, w);
    d := objs[i].Resolve();
  }

  method RunResolve(objs: seq<TrackedObject>, diffs: seq<Diff>, i: nat, ghost w: World) returns (diffs': seq<Diff>)
    requires Shows(objs, diffs, w) && Possible(w, On(i, O.ResolveEdit))
    modifies objs
    ensures Shows(objs, diffs', Step(w, On(i, O.ResolveEdit))) && diffs <= diffs'
  {
    hide O.Fields, O.WellTyped, O.Fits, O.Valid, O.AllApplicable, O.SetField, Sound, Refers, Deref, HandleOf, Shown;
    StepKeepsSound(w, On(i, O.ResolveEdit));
    var d := Resolve(objs, diffs, i, w);
    diffs' := diffs + [d];
    NothingRefers(objs);
  }

  lemma NothingRefers(objs: seq<TrackedObject>)
    ensures Refers(objs, map[], map[])
  {}

  method Init(objs: seq<TrackedObject>, diffs: seq<Diff>, i: nat, o: TrackedObject, ghost w: World)
    requires Shows(objs, diffs, w) && Possible(w, On(i, O.InitEdit)) && o == objs[i]
    modifies o`diff
    ensures forall k :: 0 <= k < |objs| ==> Refers(objs, old(objs[k].diff), w.objs[k].diff)
    ensures forall k :: 0 <= k < |diffs| ==> Refers(objs, diffs[k], w.diffs[k])
    ensures o.diff == map f | f in o.state :: ToField(o, f)
  {
    hide O.Fields, O.WellTyped, O.Fits, O.Valid, O.AllApplicable, Sound, Deref, HandleOf, Shown;
    ShowsMeans(objs, diffs, w);
    o.Init();
  }

  method RunInit(objs: seq<TrackedObject>, diffs: seq<Diff>, i: nat, ghost w: World)
    requires Shows(objs, diffs, w) && Possible(w, On(i, O.InitEdit))
    modifies objs
    ensures Shows(objs, diffs, Step(w, On(i, O.InitEdit)))
  {
    hide O.Fields, O.WellTyped, O.Fits, O.Valid, O.AllApplicable, O.SetField, Sound, Refers, Deref, HandleOf, Shown;
    StepKeepsSound(w, On(i, O.InitEdit));
    Init(objs, diffs, i, objs[i], w);
    InitRefers(objs, i, objs[i].state);
  }

  method Copy(objs: seq<TrackedObject>, diffs: seq<Diff>, i: nat, ghost w: World) returns (n: TrackedObject)
    requires Shows(objs, diffs, w) && Possible(w, CopyOf(i))
    ensures forall k :: 0 <= k < |objs| ==> Refers(objs, objs[k].diff, w.objs[k].diff)
    ensures forall k :: 0 <= k < |diffs| ==> Refers(objs, diffs[k], w.diffs[k])
    ensures fresh(n) && n.diff == objs[i].diff && n.onCreate == objs[i].onCreate
    ensures n.kind == objs[i].kind && n.tag == objs[i].tag && n.state == objs[i].state
  {
    hide O.Fields, O.WellTyped, O.Fits, O.Valid, O.AllApplicable, Sound, Deref, HandleOf, Shown;
    ShowsMeans(objs, diffs, w);
    n := objs[i].Copy();
  }

  method RunCopy(objs: seq<TrackedObject>, diffs: seq<Diff>, i: nat, ghost w: World) returns (objs': seq<TrackedObject>)
    requires Shows(objs, diffs, w) && Possible(w, CopyOf(i))
    ensures Shows(objs', diffs, Step(w, CopyOf(i)))
    ensures objs <= objs' && forall k :: 0 <= k < |objs'| ==> objs'[k] in objs || fresh(objs'[k])
  {
    hide O.Fields, O.WellTyped, O.Fits, O.Valid, O.AllApplicable, O.SetField, Sound, Refers, Deref, HandleOf, Shown;
    StepKeepsSound(w, CopyOf(i));
    var n := Copy(objs, diffs, i, w);
    objs' := objs + [n];
    assert n !in objs;
    forall k | 0 <= k < |objs|
      ensures Refers(objs', objs[k].diff, w.objs[k].diff)
    {
      GrowRefers(objs, n, objs[k].diff, w.objs[k].diff);
    }
    forall k | 0 <= k < |diffs|
      ensures Refers(objs', diffs[k], w.diffs[k])
    {
      GrowRefers(objs, n, diffs[k], w.diffs[k]);
    }
  }

  method RunOne(objs: seq<TrackedObject>, diffs: seq<Diff>, a: Act, ghost w: World)
    returns (objs': seq<TrackedObject>, diffs': seq<Diff>)
    requires Shows(objs, diffs, w) && Possible(w, a)
    modifies objs
    ensures Shows(objs', diffs', Step(w, a))
    ensures objs <= objs' && forall i :: 0 <= i < |objs'| ==> objs'[i] in objs || fresh(objs'[i])
    ensures diffs <= diffs'
  {
    hide Shows, Step;
    objs', diffs' := objs, diffs;
    match a
    case On(i, Assign(f, v)) => RunSet(objs, diffs, i, f, v, w);
    case On(i, ResolveEdit) => diffs' := RunResolve(objs, diffs, i, w);
    case On(i, InitEdit) => RunInit(objs, diffs, i, w);
    case CopyOf(i) => objs' := RunCopy(objs, diffs, i, w);
  }

  /**
   Any run, Init included, leaves the heap as the run on values leaves the world: every object has the value
   it has there, and every diff handed out the values it shows there. A diff handed out before that points to
   variables only keeps the values it had.
   */
  method RunAll(objs: seq<TrackedObject>, diffs: seq<Diff>, acts: seq<Act>, ghost w: World)
    returns (objs': seq<TrackedObject>, diffs': seq<Diff>)
    requires Shows(objs, diffs, w) && AllPossible(w, acts)
    modifies objs
    ensures objs <= objs' && diffs <= diffs' && Shows(objs', diffs', StepAll(w, acts))
    ensures forall i :: 0 <= i < |objs'| ==> objs'[i].Model() == HandleOf(StepAll(w, acts), i)
    ensures forall k :: 0 <= k < |diffs'| ==> Deref(diffs'[k]) == Shown(StepAll(w, acts), StepAll(w, acts).diffs[k])
    ensures forall k :: 0 <= k < |diffs| && AllFixed(w.diffs[k]) ==> Deref(diffs[k]) == Shown(w, w.diffs[k])
  {
    ShowsMeans(objs, diffs, w);
    hide Shows, Possible, Step, HandleOf, Shown, Loose, AllFixed;
    objs', diffs' := objs, diffs;
    ghost var now := w;
    for k := 0 to |acts|
      invariant objs <= objs' && diffs <= diffs' && Shows(objs', diffs', now)
      invariant forall i :: 0 <= i < |objs'| ==> objs'[i] in objs || fresh(objs'[i])
      invariant AllPossible(now, acts[k..]) && StepAll(now, acts[k..]) == StepAll(w, acts)
    {
      assert acts[k..][0] == acts[k] && acts[k..][1..] == acts[k + 1..];
      objs', diffs' := RunOne(objs', diffs', acts[k], now);
      now := Step(now, acts[k]);
    }
    ShowsMeans(objs', diffs', now);
    DiffsStay(w, acts);
    forall k | 0 <= k < |diffs| && AllFixed(w.diffs[k])
      ensures Deref(diffs[k]) == Shown(w, w.diffs[k])
    {
      FixedShowsTheSame(w, now, w.diffs[k]);
      assert diffs'[k] == diffs[k] && now.diffs[k] == w.diffs[k];
    }
  }

  // ----- What Init shares, on the heap -----

  method InitAndResolve(o: TrackedObject) returns (d: Diff)
    requires o.Valid()
    modifies o
    ensures o.Valid() && o.diff == map[] && o.state == old(o.state)
    ensures d == map f | f in o.state :: ToField(o, f)
  {
    hide O.Fields, O.KeyOf, O.Valid;
    o.Init();
    assert O.Effective(o.Model()) == o.state;
    d := o.Resolve();
  }

  method SetAndResolve(o: TrackedObject, f: Field, v: Value)
    requires o.Valid() && o.diff == map[]
    requires f in O.Fields(o.kind) && O.Fits(f, v) && f in o.state
    modifies o
    ensures o.state == old(o.state)[f := v]
  {
    hide O.Fields, O.KeyOf, O.Valid, O.Fits;
    ghost var first := o.Model();
    assert first.pending == map[];
    assert O.Effective(O.SetField(first, f, v)) == first.committed[f := v];
    o.Set(f, v);
    var _ := o.Resolve();
  }

  /** A diff handed out after Init points into the object: the next Resolve rewrites it. */
  method InitSharesFields(o: TrackedObject, f: Field, v: Value) returns (d: Diff)
    requires o.Valid() && f in O.Fields(o.kind) && O.Fits(f, v) && f in o.state && v != o.state[f]
    modifies o
    ensures d == map g | g in old(o.state) :: ToField(o, g)
    ensures o.state == old(o.state)[f := v] && Deref(d) == o.state
  {
    hide O.Fields, O.Fits;
    d := InitAndResolve(o);
    SetAndResolve(o, f, v);
  }

  method InitAndCopy(o: TrackedObject) returns (n: TrackedObject)
    requires o.Valid()
    modifies o
    ensures o.Valid() && o.state == old(o.state)
    ensures fresh(n) && n.diff == map f | f in o.state :: ToField(o, f)
  {
    hide O.Fields, O.KeyOf, O.Valid;
    o.Init();
    n := o.Copy();
  }

  /** A copy made after Init sees a change that only its original was given. */
  method CopyAfterInitShares(o: TrackedObject, f: Field, v: Value) returns (n: TrackedObject)
    requires o.Valid() && f in O.Fields(o.kind) && O.Fits(f, v) && f in o.state && v != o.state[f]
    modifies o
    ensures fresh(n) && n.Model().pending == old(o.state)[f := v]
  {
    hide O.Fields, O.Fits, O.Valid;
    n := InitAndCopy(o);
    var _ := InitAndResolve(o);
    SetAndResolve(o, f, v);
  }
}

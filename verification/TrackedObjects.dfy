/**
 Tracked objects on the heap (stest/setters.go). A diff holds pointers: to a variable of its own, as a
 setter makes, or into an object's committed fields, as State and Init make. `Model` is the object's
 value, and every method is proved against the functions of Objects.
 */
module TrackedObjects {
  import opened Base
  import O = Objects
  import M = Mutations

  type State = O.State
  type Field = O.Field
  type Value = O.Value

  /** A variable whose address a setter took. */
  class Cell {
    var value: Value

    constructor (v: Value)
      ensures value == v
    {
      value := v;
    }
  }

  datatype Pointer = ToVar(cell: Cell) | ToField(obj: TrackedObject, field: Field)

  /** A diff struct; a nil pointer is a missing field. */
  type Diff = map<Field, Pointer>

  function Target(p: Pointer): object {
    match p
    case ToVar(c) => c
    case ToField(o, _) => o
  }

  function Targets(d: Diff): set<object> {
    set f | f in d :: Target(d[f])
  }

  function Read(p: Pointer): Value
    reads Target(p)
  {
    match p
    case ToVar(c) => c.value
    case ToField(o, f) => if f in o.state then o.state[f] else O.Num(0)
  }

  /** The values a diff points to, now. */
  function Deref(d: Diff): State
    reads Targets(d)
  {
    map f | f in d :: Read(d[f])
  }

  /** A diff none of whose pointers lead into an object. */
  predicate Loose(d: Diff) {
    forall f <- d :: d[f].ToVar?
  }

  /** Committed values with the pending ones of the fields in `done` on top. */
  ghost function Merged(committed: State, pending: State, done: set<Field>): State {
    map f | f in committed :: if f in pending && f in done then pending[f] else committed[f]
  }

  lemma MergedStep(committed: State, pending: State, done: set<Field>, f: Field)
    requires f in committed
    ensures f in Merged(committed, pending, done)
    ensures Merged(committed, pending, done + {f}) ==
            if f in pending then Merged(committed, pending, done)[f := pending[f]] else Merged(committed, pending, done)
  {}

  lemma MergedEnds(committed: State, pending: State)
    requires pending.Keys <= committed.Keys
    ensures Merged(committed, pending, {}) == committed
    ensures Merged(committed, pending, committed.Keys) == committed + pending
  {}

  class TrackedObject {
    const kind: O.Kind
    var state: State             // the committed fields
    var diff: Diff
    var tag: O.Tag
    const onCreate: seq<O.Edit>  // what the kind's OnCreate callback does

    function Model(): O.Handle
      reads this, Targets(diff)
    {
      O.Handle(kind, tag, state, Deref(diff))
    }

    ghost predicate Valid()
      reads this, Targets(diff)
    {
      && O.Valid(Model())
      && O.AllApplicable(kind, onCreate)
      && forall f <- diff :: diff[f].ToField? && diff[f].obj == this ==> diff[f].field == f
    }

    /** A struct literal: given committed values, nothing pending. */
    constructor (kind: O.Kind, tag: O.Tag, state: State, onCreate: seq<O.Edit>)
      requires state.Keys == O.Fields(kind) && O.WellTyped(state) && O.AllApplicable(kind, onCreate)
      ensures Valid() && Model() == O.Handle(kind, tag, state, map[])
      ensures diff == map[] && this.onCreate == onCreate
    {
      this.kind := kind;
      this.tag := tag;
      this.state := state;
      this.diff := map[];
      this.onCreate := onCreate;
    }

    /** A getter: the pending value, or the committed one. */
    function Get(f: Field): (v: Value)
      requires Valid() && f in O.Fields(kind)
      reads this, Targets(diff)
      ensures v == O.Effective(Model())[f]
    {
      if f in diff then Read(diff[f]) else state[f]
    }

    /** State: pointers to all committed fields. */
    method StatePointers() returns (d: Diff)
      ensures d == map f | f in state :: ToField(this, f)
      ensures Deref(d) == state
    {
      d := map f | f in state :: ToField(this, f);
    }

    /** A setter of field `f`. A new value goes to a new variable; no existing one is written. */
    method Set(f: Field, v: Value)
      requires Valid() && f in O.Fields(kind) && O.Fits(f, v)
      modifies this`diff
      ensures Valid() && Model() == O.SetField(old(Model()), f, v)
      ensures f in state && v == state[f] ==> diff == old(diff) - {f}
      ensures !(f in state && v == state[f]) ==>
                && f in diff && diff == old(diff)[f := diff[f]]
                && diff[f].ToVar? && fresh(diff[f].cell) && diff[f].cell.value == v
    {
      hide O.Fields, O.KeyOf, O.Valid, O.WellTyped, O.AllApplicable;
      ghost var before := Model();
      SetFieldValid(before, f, v);
      if f in state && v == state[f] {
        diff := diff - {f};
      } else {
        var c := new Cell(v);
        diff := diff[f := ToVar(c)];
      }
      assert Deref(diff) == O.SetField(before, f, v).pending;
    }

    /** Init points the diff at the committed fields. */
    method Init()
      requires Valid()
      modifies this`diff
      ensures Valid() && Model() == O.InitAll(old(Model()))
      ensures diff == map f | f in state :: ToField(this, f)
    {
      hide O.Fields, O.KeyOf, O.Valid, O.WellTyped, O.AllApplicable;
      ghost var before := Model();
      InitAllValid(before);
      diff := StatePointers();
      assert Model() == O.InitAll(before);
    }

    /** `if o.diff.F != nil { o.F = *o.diff.F }` changes no other value the diff points to. */
    method ApplyField(f: Field)
      requires forall g <- diff :: diff[g].ToField? && diff[g].obj == this ==> diff[g].field == g
      modifies this`state
      ensures state == if f in diff then old(state)[f := old(Read(diff[f]))] else old(state)
      ensures f in old(state) ==> Deref(diff) == old(Deref(diff))
    {
      if f in diff {
        state := state[f := Read(diff[f])];
      }
    }

    /** The first part of Resolve: every pending value is copied into its field, in field order. */
    method ApplyPending()
      requires Valid()
      modifies this`state
      ensures state == O.Effective(old(Model())) && Deref(diff) == old(Model()).pending
    {
      hide O.Fields, O.KeyOf, O.FieldOrder, O.Valid, Merged, Read;
      ghost var before := Model();
      OrderCovers(before);
      MergedEnds(before.committed, before.pending);
      var order := O.FieldOrder(kind);
      ghost var done: set<Field> := {};
      for i := 0 to |order|
        invariant state == Merged(before.committed, before.pending, done)
        invariant done <= before.committed.Keys && forall k :: 0 <= k < i ==> order[k] in done
        invariant Deref(diff) == before.pending
      {
        MergedStep(before.committed, before.pending, done, order[i]);
        ApplyField(order[i]);
        done := done + {order[i]};
      }
      assert forall f <- before.committed :: f in order;
      assert done == before.committed.Keys;
    }

    /** Resolve copies every pending value into its field and hands out the diff. */
    method Resolve() returns (d: Diff)
      requires Valid()
      modifies this`diff, this`tag, this`state
      ensures Valid() && Model() == O.Resolve(old(Model()))
      ensures d == old(diff) && diff == map[]
      ensures Deref(d) == old(Model()).pending
    {
      hide O.Fields, O.KeyOf, O.Valid;
      O.ResolveValid(Model());
      ApplyPending();
      tag := tag.(v := tag.v + 1);
      d := diff;
      diff := map[];
    }

    /** Copy duplicates the fields; the copy's diff has the same pointers. */
    method Copy() returns (n: TrackedObject)
      requires Valid()
      ensures fresh(n) && n.diff == diff && n.onCreate == onCreate
      ensures n.Model() == Model() && n.Valid()
    {
      hide O.Fields, O.KeyOf, O.Valid, O.WellTyped, O.AllApplicable;
      ghost var before := Model();
      OrderCovers(before);
      n := new TrackedObject(kind, tag, state, onCreate);
      n.diff := diff;
      assert forall f <- diff :: diff[f].ToField? ==> allocated(diff[f].obj) && diff[f].obj != n;
      assert n.Model() == before;
    }

    /** TagInit fills in what is unset; `newId` is the random ID it would draw. */
    method TagInit(typeKey: string, newId: Id)
      requires typeKey == O.TypeKey(kind)
      modifies this`tag
      ensures Model() == M.TagInit(old(Model()), newId)
      ensures tag == old(tag).(typ := tag.typ, id := tag.id)
      ensures tag.typ == (if old(tag.typ) != "" then old(tag.typ) else typeKey)
      ensures tag.id == (if old(tag.id) != "" then old(tag.id) else newId)
    {
      if tag.typ == "" {
        tag := tag.(typ := typeKey);
      }
      if tag.id == "" {
        tag := tag.(id := newId);
      }
    }

    method TagSetSub(sKey: Key)
      modifies this`tag
      ensures tag == old(tag).(sub := sKey)
    {
      tag := tag.(sub := sKey);
    }

    /** One step of a callback that uses the object's own methods. */
    method Apply(e: O.Edit)
      requires Valid() && O.Applicable(kind, e)
      modifies this
      ensures Valid() && Model() == O.Do(old(Model()), e)
    {
      match e
      case Assign(f, v) => Set(f, v);
      case ResolveEdit => var _ := Resolve();
      case InitEdit => Init();
    }

    method OnCreate()
      requires Valid()
      modifies this
      ensures Valid() && Model() == O.DoAll(old(Model()), onCreate)
    {
      ghost var before := Model();
      for i := 0 to |onCreate|
        invariant Valid() && Model() == O.DoAll(before, onCreate[..i])
      {
        hide O.Valid, O.Fields, O.Do;
        assert onCreate[..i + 1][..i] == onCreate[..i];
        assert onCreate[i] in onCreate;
        Apply(onCreate[i]);
      }
      assert onCreate[..|onCreate|] == onCreate;
    }
  }

  lemma SetFieldValid(h: O.Handle, f: Field, v: Value)
    requires O.Valid(h) && f in O.Fields(h.kind) && O.Fits(f, v)
    ensures O.Valid(O.SetField(h, f, v))
  {
    O.DoValid(h, O.Assign(f, v));
  }

  lemma InitAllValid(h: O.Handle)
    requires O.Valid(h)
    ensures O.Valid(O.InitAll(h))
  {
    O.DoValid(h, O.InitEdit);
  }

  lemma OrderCovers(h: O.Handle)
    requires O.Valid(h)
    ensures O.WellTyped(h.committed) && h.committed.Keys == O.Fields(h.kind) && h.pending.Keys <= O.Fields(h.kind)
    ensures forall f :: f in O.Fields(h.kind) <==> f in O.FieldOrder(h.kind)
  {}
}

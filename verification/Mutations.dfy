/**
 What Create, Modify and Delete make of an object and what they publish, as functions of the
 object's value. The stores are proved against these functions.
 */
module Mutations {
  import opened Base
  import opened Framing
  import opened Objects

  /** An object as encoded in a store: exported fields and tag, no diff. */
  datatype Doc = Doc(kind: Kind, tag: Tag, state: State)

  function Stored(h: Handle): Doc {
    Doc(h.kind, h.tag, h.committed)
  }

  function DocKey(d: Doc): Key {
    KeyOf(d.kind, d.state)
  }

  /** The messages for browsers. A key tagged `omitempty` is None on the wire when it is "". */
  datatype Msg =
    | Add(id: Id, state: State, sKey: Key, psKey: Option<Key>, version: nat, typ: string)
    | Mod(id: Id, diff: State, sKey: Key, nsKey: Option<Key>, version: nat)
    | Rem(id: Id, sKey: Key, typ: string)

  /** A published message: its channel and, after a move, the key named in the `from` header. */
  datatype Wire = Wire(channel: Key, from: Option<Key>, msg: Msg)

  function OmitEmpty(key: Key): Option<Key> {
    if key == "" then None else Some(key)
  }

  // ----- Create -----

  /** TagInit sets the type and the ID, each only when unset; `newId` is the random ID drawn. */
  function TagInit(h: Handle, newId: Id): Handle {
    h.(tag := h.tag.(typ := if h.tag.typ == "" then TypeKey(h.kind) else h.tag.typ,
                     id := if h.tag.id == "" then newId else h.tag.id))
  }

  lemma TagInitValid(h: Handle, newId: Id)
    requires Valid(h)
    ensures Valid(TagInit(h, newId)) && TagInit(h, newId).kind == h.kind
  {}

  /** `onCreate` is what the object's OnCreate callback does; empty when it has none. */
  function CreateHandle(h: Handle, newId: Id, onCreate: seq<Edit>): Handle {
    var r := Resolve(DoAll(TagInit(h, newId), onCreate));
    r.(tag := r.tag.(sub := GetSubKey(r)))
  }

  /**
   Create commits what the object shows after its pending setters and OnCreate: nothing set before it is
   lost, the subscription stored is the key of that state, and the version counts every Resolve.
   */
  lemma {:induction false} CreateCommits(h: Handle, newId: Id, onCreate: seq<Edit>)
    requires Valid(h) && AllApplicable(h.kind, onCreate)
    ensures var r := CreateHandle(h, newId, onCreate);
            var shown := DoPairAll(PairOf(h), onCreate).effective;
            && r.committed == shown && r.pending == map[] && r.kind == h.kind
            && r.tag.sub == KeyOf(h.kind, shown)
            && r.tag.v == h.tag.v + |Diffs(TagInit(h, newId), onCreate)| + 1
  {
    hide KeyOf, Valid, AllApplicable, DoPairAll;
    var t := TagInit(h, newId);
    TagInitValid(h, newId);
    assert PairOf(t) == PairOf(h);
    RefinesPair(t, onCreate);
    DiffLogReplays(t, onCreate);
    DoAllValid(t, onCreate);
    var g := DoAll(t, onCreate);
    assert PairOf(g).effective == Effective(g);
    assert Effective(Resolve(g)) == Effective(g);
  }

  /** The add message for a freshly created object, announced under `sKey`. */
  function CreateWires(r: Handle, sKey: Key): seq<Wire> {
    [Wire(sKey, None, Add(r.tag.id, r.committed, sKey, None, r.tag.v, TypeKey(r.kind)))]
  }

  // ----- Modify -----

  predicate Simple(h: Handle) {
    GetSubKey(h) == GetPrevSubKey(h)
  }

  function ModifyHandle(h: Handle): Handle {
    var r := Resolve(h);
    if Simple(h) then r else r.(tag := r.tag.(sub := GetSubKey(h)))
  }

  function ModMsg(h: Handle): Msg {
    Mod(h.tag.id, h.pending, GetPrevSubKey(h),
        if Simple(h) then None else OmitEmpty(GetSubKey(h)), Resolve(h).tag.v)
  }

  function MoveAddMsg(h: Handle): Msg {
    var r := Resolve(h);
    Add(h.tag.id, r.committed, GetSubKey(h), OmitEmpty(GetPrevSubKey(h)), r.tag.v, TypeKey(h.kind))
  }

  /** The diff goes to the old key; after a move the full state goes to the new key as well. */
  function ModifyWires(h: Handle): seq<Wire> {
    [Wire(GetPrevSubKey(h), None, ModMsg(h))] +
    if Simple(h) then [] else [Wire(GetSubKey(h), Some(GetPrevSubKey(h)), MoveAddMsg(h))]
  }

  // ----- Delete -----

  /** Clients know an object with an unresolved move under its previous key. */
  function DeleteWires(h: Handle): seq<Wire> {
    [Wire(GetPrevSubKey(h), None, Rem(h.tag.id, GetPrevSubKey(h), TypeKey(h.kind)))]
  }

  // ----- Delivery to one client -----

  /** Whether a client subscribed to `subs` is handed the message and forwards it. */
  predicate Admits(subs: set<Key>, w: Wire) {
    w.channel in subs && !(w.from.Some? && w.from.value in subs)
  }

  function Delivered(subs: set<Key>, ws: seq<Wire>): seq<Msg> {
    if ws == [] then [] else
    (if Admits(subs, ws[0]) then [ws[0].msg] else []) + Delivered(subs, ws[1..])
  }

  /** The text published for a message, for a given JSON encoding. */
  function Text(encode: Msg -> string, w: Wire): string {
    if w.from.Some? then Frame(w.from.value, encode(w.msg)) else encode(w.msg)
  }

  /** On text, the receiver's filter is `Admits`, as long as the key in the header holds no `{`. */
  lemma ReceiverAdmits(encode: Msg -> string, subs: set<Key>, w: Wire)
    requires IsJsonObject(encode(w.msg)) && w.channel in subs
    requires w.from.Some? ==> '{' !in w.from.value
    ensures Forwarded(subs, Text(encode, w)) == if Admits(subs, w) then [encode(w.msg)] else []
  {
    if w.from.Some? {
      FrameRoundTrip(w.from.value, encode(w.msg));
    } else {
      UnframedPasses(subs, encode(w.msg));
    }
  }

  /**
   A Modify reaches a client at most once: with the diff if it watches the old key, with the full
   state if it watches only the new one, not at all otherwise.
   */
  lemma ModifyReachesOnce(subs: set<Key>, h: Handle)
    ensures Delivered(subs, ModifyWires(h)) ==
            if GetPrevSubKey(h) in subs then [ModMsg(h)]
            else if GetSubKey(h) in subs then [MoveAddMsg(h)]
            else []
  {
    var ws := ModifyWires(h);
    assert Delivered(subs, ws[1..]) ==
           if |ws| == 2 && Admits(subs, ws[1]) then [ws[1].msg] else [] by {
      if |ws| == 2 {
        assert ws[1..] == [ws[1]];
      }
    }
  }

  lemma OneWireDelivered(subs: set<Key>, w: Wire)
    ensures Delivered(subs, [w]) == if Admits(subs, w) then [w.msg] else []
  {}
}

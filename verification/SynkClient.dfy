/** One connected client as a class (Client.go): its subscriptions, its queue and what it wrote to the browser. */
module ClientSide {
  import opened Base
  import opened Framing
  import O = Objects
  import opened Mutations
  import MongoRuns
  import Replicas
  import Replication
  import opened TrackedObjects
  import opened MongoStore

  function EncodeAll(encode: Msg -> string, ms: seq<Msg>): (r: seq<string>)
    ensures |r| == |ms|
  {
    seq(|ms|, i requires 0 <= i < |ms| => encode(ms[i]))
  }

  function KeySet(keys: seq<Key>): set<Key> {
    set k | k in keys
  }

  class SynkClient {
    var subscriptions: map<Key, bool>
    var channels: set<Key>          // the channels the pub/sub agents hand to this client
    var toWebSocket: seq<string>
    var socket: seq<string>         // everything written to the browser
    const encode: Msg -> string     // the JSON encoding

    ghost predicate Valid()
      reads this
    {
      channels == subscriptions.Keys
    }

    constructor (encode: Msg -> string)
      ensures Valid() && subscriptions == map[] && toWebSocket == [] && socket == []
      ensures this.encode == encode
    {
      this.encode := encode;
      subscriptions, channels, toWebSocket, socket := map[], {}, [], [];
    }

    /** A published text arrives. */
    method Receive(bytes: string)
      modifies this`toWebSocket
      ensures toWebSocket == old(toWebSocket) + Forwarded(subscriptions.Keys, bytes)
    {
      var split := Index(bytes, '{');
      if split == 0 {
        toWebSocket := toWebSocket + [bytes];
        return;
      }
      if split == -1 {
        return;
      }
      var json := bytes[split..];
      var header := bytes[..split];
      if FROM <= header {
        var fromWhere := header[5..];
        if fromWhere !in subscriptions {
          toWebSocket := toWebSocket + [json];
        }
      } else {
        toWebSocket := toWebSocket + [json];
      }
    }

    /** The main loop takes one queued message. */
    method Drain()
      requires toWebSocket != []
      modifies this`toWebSocket, this`socket
      ensures socket == old(socket) + [old(toWebSocket)[0]] && toWebSocket == old(toWebSocket)[1..]
    {
      WriteToWebSocket(toWebSocket[0]);
      toWebSocket := toWebSocket[1..];
    }

    method WriteToWebSocket(message: string)
      modifies this`socket
      ensures socket == old(socket) + [message]
    {
      socket := socket + [message];
    }

    /** First half of updateSubscription: the map, then the pub/sub agents. */
    method ChangeSubscriptions(add: seq<Key>, remove: seq<Key>)
      requires Valid()
      modifies this`subscriptions, this`channels
      ensures Valid()
      ensures subscriptions.Keys == Replication.NewSubs(old(subscriptions.Keys), KeySet(add), KeySet(remove))
    {
      for i := 0 to |remove|
        invariant subscriptions.Keys == old(subscriptions.Keys) - KeySet(remove[..i])
        invariant channels == old(channels)
      {
        subscriptions := subscriptions - {remove[i]};
        assert remove[..i + 1] == remove[..i] + [remove[i]];
      }
      assert remove[..|remove|] == remove;
      for i := 0 to |add|
        invariant subscriptions.Keys == old(subscriptions.Keys) - KeySet(remove) + KeySet(add[..i])
        invariant channels == old(channels)
      {
        subscriptions := subscriptions[add[i] := true];
        assert add[..i + 1] == add[..i] + [add[i]];
      }
      assert add[..|add|] == add;
      channels := channels - KeySet(remove) + KeySet(add);
    }

    /** Second half: the current state of each loaded object goes straight to the browser. */
    method WriteSnapshot(objs: seq<TrackedObject>, ghost docs: seq<Doc>)
      requires ShowDocs(objs, docs)
      modifies this`socket
      ensures socket == old(socket) + EncodeAll(encode, Replicas.Snapshot(docs))
    {
      hide O.Valid, O.KeyOf, O.Fields;
      for i := 0 to |objs|
        invariant socket == old(socket) + EncodeAll(encode, Replicas.Snapshot(docs))[..i]
      {
        var state := objs[i].StatePointers();
        var msg := Add(objs[i].tag.id, Deref(state), O.GetSubKey(objs[i].Model()), None,
                       objs[i].tag.v, O.TypeKey(objs[i].kind));
        LoadedSnapshot(docs[i]);
        WriteToWebSocket(encode(msg));
      }
    }

    /**
     updateSubscription without interference. The subscriptions change; if keys are added, the objects
     the store finds under them are written to the browser, and the queue is left as it is.
     */
    method UpdateSubscription(add: seq<Key>, remove: seq<Key>, loader: MongoSynk)
      requires Valid() && loader.Valid()
      modifies this
      ensures Valid() && toWebSocket == old(toWebSocket)
      ensures subscriptions.Keys == Replication.NewSubs(old(subscriptions.Keys), KeySet(add), KeySet(remove))
      ensures add == [] ==> socket == old(socket)
      ensures add != [] ==>
                (exists raw :: Answers(loader.coll, add, raw)
                               && socket == old(socket) + EncodeAll(encode, Replicas.Snapshot(WithContainer(raw))))
    {
      ChangeSubscriptions(add, remove);
      if |add| > 0 {
        var objs := loader.Load(add);
        ghost var raw :| Answers(loader.coll, add, raw) && ShowDocs(objs, WithContainer(raw));
        WriteSnapshot(objs, WithContainer(raw));
      }
    }
  }

  /** The add message built from a loaded object is the snapshot message of its document. */
  lemma LoadedSnapshot(d: Doc)
    ensures var h := Loaded(d);
            Add(h.tag.id, h.committed, O.GetSubKey(h), None, h.tag.v, O.TypeKey(h.kind)) == Replicas.SnapshotMsg(d)
  {
    assert O.Effective(Loaded(d)) == d.state;
  }

  /** What the store answers is a load as the replication protocol has it. */
  lemma AnswersAreLists(coll: map<Id, Doc>, sKeys: seq<Key>, raw: seq<Doc>)
    requires Answers(coll, sKeys, raw)
    ensures Replication.Lists(coll, KeySet(sKeys), raw)
  {
    hide DocKey;
    var found := MongoRuns.FoundBySub(coll, KeySet(sKeys));
    forall d <- raw
      ensures exists id :: id in found && coll[id] == d
    {
      assert d.tag.id in found;
    }
    forall id <- found
      ensures coll[id] in raw
    {
      var d :| d in raw && d.tag.id == id;
    }
  }

  // ----- From texts to messages -----

  /** What Receive queues of the texts published on the channels in `subs`. */
  function ReceivedTexts(encode: Msg -> string, subs: set<Key>, ws: seq<Wire>): seq<string> {
    if ws == [] then [] else
    (if ws[0].channel in subs then Forwarded(subs, Text(encode, ws[0])) else []) +
    ReceivedTexts(encode, subs, ws[1..])
  }

  lemma EncodeAppended(encode: Msg -> string, a: seq<Msg>, b: seq<Msg>)
    ensures EncodeAll(encode, a + b) == EncodeAll(encode, a) + EncodeAll(encode, b)
  {}

  /** What one published message adds to the queue, as text. */
  lemma TextIsDelivered(encode: Msg -> string, subs: set<Key>, w: Wire)
    requires IsJsonObject(encode(w.msg)) && (w.from.Some? ==> '{' !in w.from.value)
    ensures (if w.channel in subs then Forwarded(subs, Text(encode, w)) else [])
            == EncodeAll(encode, if Admits(subs, w) then [w.msg] else [])
  {
    hide Forwarded, Text, IsJsonObject;
    if w.channel in subs {
      ReceiverAdmits(encode, subs, w);
    }
  }

  /**
   The queue of texts is the encoded queue of messages, for every encoding that makes JSON objects and
   every sequence of messages whose headers hold no `{`.
   */
  lemma {:induction false} TextsAreDelivered(encode: Msg -> string, subs: set<Key>, ws: seq<Wire>)
    requires forall m :: IsJsonObject(encode(m))
    requires forall w <- ws :: w.from.Some? ==> '{' !in w.from.value
    ensures ReceivedTexts(encode, subs, ws) == EncodeAll(encode, Delivered(subs, ws))
  {
    if ws != [] {
      hide Forwarded, Text, IsJsonObject, Admits, EncodeAll;
      assert ws[0] in ws && forall w <- ws[1..] :: w in ws;
      TextsAreDelivered(encode, subs, ws[1..]);
      TextIsDelivered(encode, subs, ws[0]);
      EncodeAppended(encode, if Admits(subs, ws[0]) then [ws[0].msg] else [], Delivered(subs, ws[1..]));
    } else {
      assert EncodeAll(encode, []) == [];
    }
  }

  /**
   In every run, what a client makes of all the texts published is what the protocol delivers of the
   messages, for any subscriptions and any encoding that makes JSON objects.
   */
  lemma {:induction false} RunTextsAreDelivered(run: seq<Replication.Action>, encode: Msg -> string, subs: set<Key>)
    requires Replication.EnabledRun(Replication.INITIAL, run) && forall m :: IsJsonObject(encode(m))
    ensures var ws := Replication.After(Replication.INITIAL, run).db.published;
            ReceivedTexts(encode, subs, ws) == EncodeAll(encode, Delivered(subs, ws))
  {
    Replication.HeadersAreClean(run);
    TextsAreDelivered(encode, subs, Replication.After(Replication.INITIAL, run).db.published);
  }
}

/** The `from <key>` header put in front of an add message that follows a move. */
module Framing {
  import opened Base

  const FROM := "from "

  /** The text published for a move: header, previous key and JSON object, joined. */
  function Frame(psk: Key, json: string): string {
    FROM + psk + json
  }

  /** What a client makes of published text (Client.go, Receive). */
  datatype Parsed =
    | Plain(json: string)                  // no header
    | From(psk: Key, json: string)         // a recognised header
    | Unknown(header: string, json: string)
    | Malformed                            // no `{` at all

  function Parse(text: string): Parsed {
    var split := Index(text, '{');
    if split == 0 then Plain(text)
    else if split == -1 then Malformed
    else if FROM <= text[..split] then From(text[..split][|FROM|..], text[split..])
    else Unknown(text[..split], text[split..])
  }

  /** The messages a client with the given subscriptions forwards when it receives `text`. */
  function Forwarded(subscriptions: set<Key>, text: string): seq<string> {
    match Parse(text)
    case Plain(json) => [json]
    case From(psk, json) => if psk in subscriptions then [] else [json]
    case Unknown(_, json) => [json]
    case Malformed => []
  }

  ghost predicate IsJsonObject(json: string) {
    json != [] && json[0] == '{'
  }

  /** The receiver recovers key and object exactly when the key holds no `{`. */
  lemma FrameRoundTrip(psk: Key, json: string)
    requires IsJsonObject(json)
    ensures Parse(Frame(psk, json)) == From(psk, json) <==> '{' !in psk
  {
    var text := Frame(psk, json);
    if '{' !in psk {
      assert text == (FROM + psk) + ['{'] + json[1..];
      FirstIndexIs(FROM + psk, '{', json[1..]);
      assert text[..|FROM + psk|] == FROM + psk && text[|FROM + psk|..] == json;
    } else {
      var k := Index(psk, '{');
      assert text == (FROM + psk[..k]) + ['{'] + (psk[k + 1..] + json);
      FirstIndexIs(FROM + psk[..k], '{', psk[k + 1..] + json);
    }
  }

  /** Messages sent without a header pass unchanged, whoever is subscribed to what. */
  lemma UnframedPasses(subscriptions: set<Key>, json: string)
    requires IsJsonObject(json)
    ensures Forwarded(subscriptions, json) == [json]
  {
    assert json == [] + ['{'] + json[1..];
    FirstIndexIs([], '{', json[1..]);
  }

  /**
   Whatever stands before the first `{` is a header: after `from ` the object is forwarded unless the key named
   is subscribed to, and after anything else it is forwarded to everybody, without the header.
   */
  lemma HeaderDecides(subscriptions: set<Key>, header: string, json: string)
    requires '{' !in header && IsJsonObject(json)
    ensures FROM <= header ==>
              Forwarded(subscriptions, header + json) == if header[|FROM|..] in subscriptions then [] else [json]
    ensures !(FROM <= header) ==> Forwarded(subscriptions, header + json) == [json]
  {
    assert header + json == header + ['{'] + json[1..];
    FirstIndexIs(header, '{', json[1..]);
    assert (header + json)[..|header|] == header && (header + json)[|header|..] == json;
  }

  /** Text without an object is dropped. */
  lemma NoObjectDropped(subscriptions: set<Key>, text: string)
    requires '{' !in text
    ensures Forwarded(subscriptions, text) == []
  {}
}

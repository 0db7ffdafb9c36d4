/** Types and string searches shared by every other module. */
module Base {

  datatype Option<+T> = None | Some(value: T)

  /** A subscription key; it also names the channel the key's messages are published on. */
  type Key = string

  /** The unique part of an object's identity. */
  type Id = string

  /** The position of the first `c` in `s`, or -1, as Go's strings.Index has it. */
  function Index(s: string, c: char): (i: int)
    ensures -1 <= i < |s|
    ensures i == -1 ==> c !in s
    ensures i >= 0 ==> s[i] == c && forall k :: 0 <= k < i ==> s[k] != c
  {
    if s == [] then -1
    else if s[0] == c then 0
    else
      var j := Index(s[1..], c);
      if j == -1 then -1 else j + 1
  }

  /** The position of the last `c` in `s`, or -1, as Go's strings.LastIndex has it. */
  function LastIndex(s: string, c: char): (i: int)
    ensures -1 <= i < |s|
    ensures i == -1 ==> c !in s
    ensures i >= 0 ==> s[i] == c && forall k :: i < k < |s| ==> s[k] != c
  {
    if s == [] then -1
    else if s[|s| - 1] == c then |s| - 1
    else LastIndex(s[..|s| - 1], c)
  }

  lemma {:induction false} FirstIndexIs(prefix: string, c: char, suffix: string)
    requires c !in prefix
    ensures Index(prefix + [c] + suffix, c) == |prefix|
  {
    var s := prefix + [c] + suffix;
    assert s[|prefix|] == c;
    assert forall k :: 0 <= k < |prefix| ==> s[k] == prefix[k];
  }

  lemma {:induction false} LastIndexIs(prefix: string, c: char, suffix: string)
    requires c !in suffix
    ensures LastIndex(prefix + [c] + suffix, c) == |prefix|
  {
    var s := prefix + [c] + suffix;
    assert s[|prefix|] == c;
    forall k | |prefix| < k < |s|
      ensures s[k] != c
    {
      assert s[k] == suffix[k - |prefix| - 1];
    }
    LastIndexUnique(s, c, |prefix|);
  }

  lemma {:induction false} LastIndexUnique(s: string, c: char, i: nat)
    requires i < |s| && s[i] == c
    requires forall k :: i < k < |s| ==> s[k] != c
    ensures LastIndex(s, c) == i
  {}
}

/** Printing a map name and signed chunk coordinates to a subscription key (stest/char.go). */
module ChunkKeys {
  import opened Base

  function Digit(d: nat): char
    requires d < 10
  {
    ('0' as int + d) as char
  }

  /** The decimal digits of a natural number, most significant first. */
  function Digits(n: nat): (s: string)
    ensures s != []
    ensures forall c <- s :: '0' <= c <= '9'
  {
    if n < 10 then [Digit(n)] else Digits(n / 10) + [Digit(n % 10)]
  }

  /** What `fmt.Sprintf("%v", n)` prints for an int. */
  function Decimal(n: int): string {
    if n < 0 then "-" + Digits(-n) else Digits(n)
  }

  /** Subscription key of a chunk: map name, `:`, column, `|`, row. */
  function ChunkKey(mapId: string, cx: int, cy: int): Key {
    mapId + ":" + Decimal(cx) + "|" + Decimal(cy)
  }

  // ----- Reading a key back, from the right -----

  function ReadDigits(s: string): int {
    if s == [] then 0
    else 10 * ReadDigits(s[..|s| - 1]) + (s[|s| - 1] as int - '0' as int)
  }

  function ReadDecimal(s: string): int {
    if s != [] && s[0] == '-' then -ReadDigits(s[1..]) else ReadDigits(s)
  }

  /** The map name may itself hold `:` and `|`, so both separators are sought from the right. */
  function ParseChunkKey(key: Key): Option<(string, int, int)> {
    var bar := LastIndex(key, '|');
    if bar == -1 then None else
    var left := key[..bar];
    var colon := LastIndex(left, ':');
    if colon == -1 then None else
    Some((left[..colon], ReadDecimal(left[colon + 1..]), ReadDecimal(key[bar + 1..])))
  }

  lemma {:induction false} ReadDigitsInvertsDigits(n: nat)
    ensures ReadDigits(Digits(n)) == n
  {
    if n >= 10 {
      ReadDigitsInvertsDigits(n / 10);
      assert Digits(n)[..|Digits(n)| - 1] == Digits(n / 10);
    } else {
      assert Digits(n)[..0] == [];
    }
  }

  lemma {:induction false} ReadDecimalInvertsDecimal(n: int)
    ensures ReadDecimal(Decimal(n)) == n
    ensures '|' !in Decimal(n) && ':' !in Decimal(n)
  {
    if n < 0 {
      ReadDigitsInvertsDigits(-n);
      assert Decimal(n)[1..] == Digits(-n);
    } else {
      ReadDigitsInvertsDigits(n);
      assert Digits(n)[0] in Digits(n);
    }
  }

  lemma {:induction false} LeadingDigitCounts(s: string)
    requires s != [] && s[0] != '0' && forall c <- s :: '0' <= c <= '9'
    ensures ReadDigits(s) >= 1
  {
    if |s| > 1 {
      var front := s[..|s| - 1];
      assert s[|s| - 1] in s && forall c <- front :: c in s;
      LeadingDigitCounts(front);
    } else {
      assert s[..0] == [] && s[0] in s;
    }
  }

  lemma DigitsStep(m: nat, d: nat)
    requires m >= 1 && d < 10
    ensures Digits(10 * m + d) == Digits(m) + [Digit(d)]
  {
    assert (10 * m + d) / 10 == m && (10 * m + d) % 10 == d;
  }

  /** The printed number is the one numeral without a leading zero that reads back as the number. */
  lemma {:induction false} OnlyNumeral(s: string)
    requires s != [] && (|s| > 1 ==> s[0] != '0') && forall c <- s :: '0' <= c <= '9'
    ensures ReadDigits(s) >= 0 && Digits(ReadDigits(s)) == s
  {
    var front, last := s[..|s| - 1], s[|s| - 1];
    assert last in s && forall c <- front :: c in s;
    var d := last as int - '0' as int;
    assert Digit(d) == last && ReadDigits(s) == 10 * ReadDigits(front) + d;
    if front == [] {
      assert s == [last];
    } else {
      LeadingDigitCounts(front);
      OnlyNumeral(front);
      hide Digits, ReadDigits;
      DigitsStep(ReadDigits(front), d);
      assert s == front + [last];
    }
  }

  lemma {:induction false} DigitsHaveNoLeadingZero(n: nat)
    ensures Digits(n)[0] == '0' ==> n == 0
  {
    if n >= 10 {
      DigitsHaveNoLeadingZero(n / 10);
    }
  }

  /** A number is printed in decimal without leading zeros, and with a sign exactly when it is negative. */
  lemma {:induction false} DecimalIs(n: int, s: string)
    requires s != [] && (|s| > 1 ==> s[0] != '0') && forall c <- s :: '0' <= c <= '9'
    ensures Decimal(n) == s <==> n >= 0 && ReadDigits(s) == n
    ensures Decimal(n) == "-" + s <==> n < 0 && ReadDigits(s) == -n
  {
    OnlyNumeral(s);
    assert Digits(if n < 0 then -n else n)[0] in Digits(if n < 0 then -n else n);
    ReadDigitsInvertsDigits(if n < 0 then -n else n);
    assert s[0] in s;
    assert ("-" + s)[1..] == s && ("-" + Digits(if n < 0 then -n else n))[1..] == Digits(if n < 0 then -n else n);
  }

  /** Separators, order and digits as printed. */
  lemma ChunkKeyPrints()
    ensures ChunkKey("m", 1, -20) == "m:1|-20"
  {
    assert Digits(20) == "20";
  }

  /** Parsing inverts printing, whatever characters the map name holds. */
  lemma ParseInvertsChunkKey(mapId: string, cx: int, cy: int)
    ensures ParseChunkKey(ChunkKey(mapId, cx, cy)) == Some((mapId, cx, cy))
  {
    hide Decimal, ReadDecimal;
    ReadDecimalInvertsDecimal(cx);
    ReadDecimalInvertsDecimal(cy);
    var left := mapId + [':'] + Decimal(cx);
    var key := left + ['|'] + Decimal(cy);
    assert key == ChunkKey(mapId, cx, cy);
    LastIndexIs(left, '|', Decimal(cy));
    assert key[..|left|] == left && key[|left| + 1..] == Decimal(cy);
    LastIndexIs(mapId, ':', Decimal(cx));
    assert left[..|mapId|] == mapId && left[|mapId| + 1..] == Decimal(cx);
  }

  /** Two chunks share a key exactly when they are the same chunk of the same map. */
  lemma ChunkKeyInjective(m1: string, x1: int, y1: int, m2: string, x2: int, y2: int)
    ensures ChunkKey(m1, x1, y1) == ChunkKey(m2, x2, y2) <==> m1 == m2 && x1 == x2 && y1 == y2
  {
    ParseInvertsChunkKey(m1, x1, y1);
    ParseInvertsChunkKey(m2, x2, y2);
  }
}

/** Small shared vocabulary: optional values, Python-style rendering of integers
    with `str()`, string prefixes and `str.join`. */
module Basics {

  datatype Option<+T> = None | Some(value: T)

  function Max(a: int, b: int): (r: int)
    ensures r >= a && r >= b && (r == a || r == b)
  {
    if a >= b then a else b
  }

  function Min(a: int, b: int): (r: int)
    ensures r <= a && r <= b && (r == a || r == b)
  {
    if a <= b then a else b
  }

  /** `part / whole * 100` on exact rationals: a share of `whole`, so never
      above 100 when `part` is one of its members. */
  function Percentage(part: nat, whole: nat): (r: real)
    requires whole > 0
    ensures r * whole as real == 100.0 * part as real
    ensures 0.0 <= r && (part <= whole ==> r <= 100.0)
  {
    var q := part as real / whole as real;
    assert q * whole as real == part as real;
    assert q > 1.0 ==> q * whole as real > 1.0 * whole as real;
    q * 100.0
  }

  // ---------------------------------------------------------------------------
  // Decimal rendering of integers, as Python's `str(int)` writes them
  // ---------------------------------------------------------------------------

  function DigitChar(d: int): (c: char)
    requires 0 <= d < 10
    ensures '0' <= c <= '9'
  {
    ('0' as int + d) as char
  }

  function DigitValue(c: char): int
  {
    if '0' <= c <= '9' then (c as int) - ('0' as int) else 0
  }

  lemma DigitRoundTrip(d: int)
    requires 0 <= d < 10
    ensures DigitValue(DigitChar(d)) == d
  {
  }

  predicate IsDigits(s: string)
  {
    forall i :: 0 <= i < |s| ==> '0' <= s[i] <= '9'
  }

  /** The decimal digits of `n`, most significant first, without leading zeros. */
  function NatToString(n: nat): (s: string)
    ensures |s| >= 1 && IsDigits(s)
  {
    if n < 10 then [DigitChar(n)] else NatToString(n / 10) + [DigitChar(n % 10)]
  }

  /** Reads a string of decimal digits back as a number. */
  function ParseDigits(s: string): nat
  {
    if s == [] then 0 else ParseDigits(s[..|s| - 1]) * 10 + (if '0' <= s[|s| - 1] <= '9' then DigitValue(s[|s| - 1]) else 0)
  }

  lemma {:induction false} ParseNatToString(n: nat)
    ensures ParseDigits(NatToString(n)) == n
  {
    var s := NatToString(n);
    if n < 10 {
      DigitRoundTrip(n);
      assert s[..|s| - 1] == [];
    } else {
      ParseNatToString(n / 10);
      DigitRoundTrip(n % 10);
      assert s[..|s| - 1] == NatToString(n / 10);
    }
  }

  /** `str(i)` for a Python int. */
  function IntToString(i: int): (s: string)
    ensures |s| >= 1
    ensures '_' !in s
    ensures i < 0 <==> s[0] == '-'
  {
    if i < 0 then "-" + NatToString(-i) else NatToString(i)
  }

  lemma NatToStringInjective(a: nat, b: nat)
    requires NatToString(a) == NatToString(b)
    ensures a == b
  {
    ParseNatToString(a);
    ParseNatToString(b);
  }

  /** Distinct integers render to distinct strings. */
  lemma IntToStringInjective(a: int, b: int)
    requires IntToString(a) == IntToString(b)
    ensures a == b
  {
    SameSign(a, b);
    if a < 0 {
      NegativeInjective(a, b);
    } else {
      NatToStringInjective(a, b);
    }
  }

  lemma NegativeInjective(a: int, b: int)
    requires a < 0 && b < 0 && IntToString(a) == IntToString(b)
    ensures a == b
  {
    var s, t := IntToString(a), IntToString(b);
    NegativeTail(a);
    NegativeTail(b);
    assert NatToString(-a) == s[1..] == t[1..] == NatToString(-b);
    NatToStringInjective(-a, -b);
  }

  lemma SameSign(a: int, b: int)
    requires IntToString(a) == IntToString(b)
    ensures a < 0 <==> b < 0
  {
    var s, t := IntToString(a), IntToString(b);
    assert s[0] == t[0];
  }

  lemma NegativeTail(i: int)
    requires i < 0
    ensures IntToString(i)[1..] == NatToString(-i)
  {
    var s := NatToString(-i);
    assert ("-" + s)[1..] == s;
  }

  lemma PrefixCancels(p: string, x: string, y: string)
    requires p + x == p + y
    ensures x == y
  {
    assert x == (p + x)[|p|..];
    assert y == (p + y)[|p|..];
  }

  /** Two integers joined by `_` determine both integers. */
  lemma IntPairInjective(a1: int, b1: int, a2: int, b2: int)
    requires IntToString(a1) + "_" + IntToString(b1) == IntToString(a2) + "_" + IntToString(b2)
    ensures a1 == a2 && b1 == b2
  {
    SplitAtFirstSeparator(IntToString(a1), IntToString(b1), IntToString(a2), IntToString(b2), '_');
    IntToStringInjective(a1, a2);
    IntToStringInjective(b1, b2);
  }

  // ---------------------------------------------------------------------------
  // Lists without repetitions
  // ---------------------------------------------------------------------------

  predicate Distinct<T(==)>(s: seq<T>)
  {
    forall i, j :: 0 <= i < j < |s| ==> s[i] != s[j]
  }

  /** The set of a list's elements. */
  function Elems<T>(s: seq<T>): set<T>
  {
    set x | x in s
  }

  /** A list without repetitions has as many elements as the set of its elements. */
  lemma {:induction false} DistinctCard<T>(s: seq<T>)
    requires Distinct(s)
    ensures |Elems(s)| == |s|
  {
    if s != [] {
      var last := s[|s| - 1];
      var init := s[..|s| - 1];
      assert Distinct(init);
      DistinctCard(init);
      assert Elems(s) == Elems(init) + {last};
      assert last !in init;
    }
  }

  // ---------------------------------------------------------------------------
  // Prefixes and joining
  // ---------------------------------------------------------------------------

  /** Python's `s.startswith(prefix)`. */
  predicate StartsWith(s: string, prefix: string)
  {
    |prefix| <= |s| && s[..|prefix|] == prefix
  }

  lemma SeparatorPosition(a: string, b: string, a': string, b': string, sep: char)
    ensures |a| < |a'| ==> (a + [sep] + b)[|a|] == sep && (a' + [sep] + b')[|a|] == a'[|a|]
  {
  }

  /** If two strings are built as `a + [sep] + b` with `sep` absent from the
      first parts, the first parts and the second parts agree. */
  lemma SplitAtFirstSeparator(a: string, b: string, a': string, b': string, sep: char)
    requires sep !in a && sep !in a'
    requires a + [sep] + b == a' + [sep] + b'
    ensures a == a' && b == b'
  {
    var s := a + [sep] + b;
    if |a| < |a'| {
      SeparatorPosition(a, b, a', b', sep);
      assert false;
    } else if |a'| < |a| {
      SeparatorPosition(a', b', a, b, sep);
      assert false;
    }
    assert a == s[..|a|] == a';
    assert b == s[|a| + 1..] == b';
  }

  /** Python's `sep.join(parts)`. */
  function Join(sep: string, parts: seq<string>): (r: string)
    ensures parts == [] ==> r == ""
    ensures |parts| == 1 ==> r == parts[0]
  {
    if parts == [] then ""
    else if |parts| == 1 then parts[0]
    else parts[0] + sep + Join(sep, parts[1..])
  }
}

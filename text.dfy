/** Python string behaviour the modelled code relies on: str.strip(), str.split(sep),
    sep.join(parts), str(int), repr of a float with at most two decimals, and
    lexicographic string comparison by code point. */
module Text {
  import Order

  /** The characters for which Python's str.isspace() holds. */
  predicate IsSpace(c: char) {
    || ('\t' <= c <= '\r')
    || ('\U{1C}' <= c <= ' ')
    || c == '\U{85}' || c == '\U{A0}' || c == '\U{1680}'
    || ('\U{2000}' <= c <= '\U{200A}')
    || c == '\U{2028}' || c == '\U{2029}' || c == '\U{202F}' || c == '\U{205F}' || c == '\U{3000}'
  }

  /** True when `s` neither starts nor ends with whitespace. */
  predicate IsStripped(s: string) {
    s == [] || (!IsSpace(s[0]) && !IsSpace(s[|s| - 1]))
  }

  /** Python's str.strip(): `s` without its leading and trailing whitespace. */
  function Strip(s: string): (r: string)
    ensures IsStripped(r)
    ensures IsStripped(s) ==> r == s
    ensures |r| <= |s|
    decreases |s|
  {
    if s != [] && IsSpace(s[0]) then Strip(s[1..])
    else if s != [] && IsSpace(s[|s| - 1]) then Strip(s[..|s| - 1])
    else s
  }

  /** `Strip(s)` is a slice of `s` with only whitespace cut off on either side. */
  lemma {:induction false} StripSlice(s: string) returns (i: int, j: int)
    ensures 0 <= i <= j <= |s| && Strip(s) == s[i..j]
    ensures forall k :: 0 <= k < i ==> IsSpace(s[k])
    ensures forall k :: j <= k < |s| ==> IsSpace(s[k])
    decreases |s|
  {
    if s != [] && IsSpace(s[0]) {
      var i', j' := StripSlice(s[1..]);
      i, j := i' + 1, j' + 1;
      assert s[1..][i'..j'] == s[i..j];
      forall k | 0 <= k < i ensures IsSpace(s[k]) {
        if k > 0 { assert s[k] == s[1..][k - 1]; }
      }
      forall k | j <= k < |s| ensures IsSpace(s[k]) {
        assert s[k] == s[1..][k - 1];
      }
    } else if s != [] && IsSpace(s[|s| - 1]) {
      var p := s[..|s| - 1];
      i, j := StripSlice(p);
      assert p[i..j] == s[i..j];
      forall k | j <= k < |s| ensures IsSpace(s[k]) {
        if k < |s| - 1 { assert s[k] == p[k]; }
      }
    } else {
      i, j := 0, |s|;
    }
  }

  /** A stripped slice with only whitespace outside it is `Strip(s)`: Python's `str.strip` is the only
      function with both properties. */
  lemma {:induction false} StripUnique(s: string, i: int, j: int)
    requires 0 <= i <= j <= |s|
    requires forall k :: 0 <= k < i ==> IsSpace(s[k])
    requires forall k :: j <= k < |s| ==> IsSpace(s[k])
    requires IsStripped(s[i..j])
    ensures Strip(s) == s[i..j]
    decreases |s|
  {
    if i > 0 {
      var t := s[1..];
      assert IsSpace(s[0]);
      forall k | 0 <= k < i - 1 ensures IsSpace(t[k]) {
        assert t[k] == s[k + 1];
      }
      forall k | j - 1 <= k < |t| ensures IsSpace(t[k]) {
        assert t[k] == s[k + 1];
      }
      assert t[i - 1..j - 1] == s[i..j];
      StripUnique(t, i - 1, j - 1);
    } else if j == |s| {
      assert s[i..j] == s;
    } else if j == 0 {
      var t := s[1..];
      assert IsSpace(s[0]);
      forall k | 0 <= k < |t| ensures IsSpace(t[k]) {
        assert t[k] == s[k + 1];
      }
      StripUnique(t, 0, 0);
    } else {
      var t := s[..|s| - 1];
      assert s[i..j][0] == s[0];
      assert IsSpace(s[|s| - 1]);
      forall k | j <= k < |t| ensures IsSpace(t[k]) {
        assert t[k] == s[k];
      }
      assert t[i..j] == s[i..j];
      StripUnique(t, i, j);
    }
  }

  lemma StripIdempotent(s: string)
    ensures Strip(Strip(s)) == Strip(s)
  {
  }

  /** Python's str.split(sep): the pieces between occurrences of `sep`; "" gives [""]. */
  function Split(s: string, sep: char): (r: seq<string>)
    ensures |r| >= 1
    ensures forall i :: 0 <= i < |r| ==> sep !in r[i]
    decreases |s|
  {
    if s == [] then [""]
    else
      var rest := Split(s[1..], sep);
      if s[0] == sep then [""] + rest else [[s[0]] + rest[0]] + rest[1..]
  }

  /** Python's sep.join(parts). */
  function Join(parts: seq<string>, sep: char): string
    decreases |parts|
  {
    if |parts| == 0 then ""
    else if |parts| == 1 then parts[0]
    else parts[0] + [sep] + Join(parts[1..], sep)
  }

  lemma JoinPrependChar(c: char, parts: seq<string>, sep: char)
    requires |parts| >= 1
    ensures Join([[c] + parts[0]] + parts[1..], sep) == [c] + Join(parts, sep)
  {
    var q := [[c] + parts[0]] + parts[1..];
    if |parts| > 1 {
      assert q[1..] == parts[1..];
    }
  }

  /** Joining the pieces of a split gives back the string. */
  lemma {:induction false} JoinSplit(s: string, sep: char)
    ensures Join(Split(s, sep), sep) == s
    decreases |s|
  {
    if s != [] {
      var rest := Split(s[1..], sep);
      JoinSplit(s[1..], sep);
      if s[0] == sep {
        assert ([""] + rest)[1..] == rest;
      } else {
        JoinPrependChar(s[0], rest, sep);
      }
      assert s == [s[0]] + s[1..];
    }
  }

  lemma {:induction false} SplitWithoutSep(p: string, sep: char)
    requires sep !in p
    ensures Split(p, sep) == [p]
    decreases |p|
  {
    if p != [] {
      SplitWithoutSep(p[1..], sep);
      assert p == [p[0]] + p[1..];
    }
  }

  lemma {:induction false} SplitAtFirstSep(p: string, sep: char, t: string)
    requires sep !in p
    ensures Split(p + [sep] + t, sep) == [p] + Split(t, sep)
    decreases |p|
  {
    var s := p + [sep] + t;
    if p == [] {
      assert s[1..] == t;
    } else {
      assert s[1..] == p[1..] + [sep] + t;
      SplitAtFirstSep(p[1..], sep, t);
      assert p == [p[0]] + p[1..];
    }
  }

  /** Splitting a join gives back the parts, provided there is at least one part and no part holds `sep`. */
  lemma {:induction false} SplitJoin(parts: seq<string>, sep: char)
    requires |parts| >= 1
    requires forall i :: 0 <= i < |parts| ==> sep !in parts[i]
    ensures Split(Join(parts, sep), sep) == parts
    decreases |parts|
  {
    if |parts| == 1 {
      SplitWithoutSep(parts[0], sep);
    } else {
      SplitJoin(parts[1..], sep);
      SplitAtFirstSep(parts[0], sep, Join(parts[1..], sep));
      assert parts == [parts[0]] + parts[1..];
    }
  }

  /** Python's ','.join([]) is "", and "".split(',') is [""]. */
  lemma JoinEmptySplit(sep: char)
    ensures Split(Join([], sep), sep) == [""]
  {
  }

  function Digit(d: int): (c: char)
    requires 0 <= d < 10
    ensures '0' <= c <= '9'
  {
    (('0' as int) + d) as char
  }

  /** Python's str(n) for a non-negative int. */
  function NatToString(n: nat): (r: string)
    ensures |r| >= 1
    ensures forall i :: 0 <= i < |r| ==> '0' <= r[i] <= '9'
    ensures (|r| == 1) == (n < 10)
    decreases n
  {
    if n < 10 then [Digit(n)] else NatToString(n / 10) + [Digit(n % 10)]
  }

  /** Python's str(i) for any int. */
  function IntToString(i: int): string {
    if i < 0 then "-" + NatToString(-i) else NatToString(i)
  }

  lemma {:induction false} NatToStringInjective(a: nat, b: nat)
    requires NatToString(a) == NatToString(b)
    ensures a == b
    decreases a
  {
    if a >= 10 {
      var s := NatToString(a);
      assert s[..|s| - 1] == NatToString(a / 10) && s[|s| - 1] == Digit(a % 10);
      assert s[..|s| - 1] == NatToString(b / 10) && s[|s| - 1] == Digit(b % 10);
      NatToStringInjective(a / 10, b / 10);
    }
  }

  /** The digits after the point in Python's repr of a float whose fraction is `f` hundredths. */
  function Fraction(f: int): (r: string)
    requires 0 <= f < 100
  {
    if f % 10 == 0 then [Digit(f / 10)] else [Digit(f / 10), Digit(f % 10)]
  }

  /** Python's repr of the non-negative float m / 100. */
  function UnsignedRepr(m: nat): string {
    NatToString(m / 100) + "." + Fraction(m % 100)
  }

  /** Python's repr of the float h / 100 (h counts hundredths): "1.0", "0.75", "-2.5". */
  function DecimalRepr(h: int): string {
    (if h < 0 then "-" else "") + UnsignedRepr(if h < 0 then -h else h)
  }

  lemma DotAt(u: string, v: string)
    requires '.' !in u
    ensures (u + "." + v)[|u|] == '.'
    ensures forall i :: 0 <= i < |u| ==> (u + "." + v)[i] != '.'
  {
  }

  lemma SplitAtDot(u: string, v: string, u': string, v': string)
    requires '.' !in u && '.' !in u'
    requires u + "." + v == u' + "." + v'
    ensures u == u' && v == v'
  {
    DotAt(u, v);
    DotAt(u', v');
    var w := u + "." + v;
    assert |u| == |u'|;
    assert u == w[..|u|] && u' == w[..|u'|];
    assert v == w[|u| + 1..] && v' == w[|u'| + 1..];
  }

  lemma NoDotInNat(n: nat)
    ensures '.' !in NatToString(n)
  {
  }

  lemma UnsignedReprInjective(a: nat, b: nat)
    requires UnsignedRepr(a) == UnsignedRepr(b)
    ensures a == b
  {
    NoDotInNat(a / 100);
    NoDotInNat(b / 100);
    SplitAtDot(NatToString(a / 100), Fraction(a % 100), NatToString(b / 100), Fraction(b % 100));
    NatToStringInjective(a / 100, b / 100);
    assert a % 100 == b % 100;
  }

  lemma ReprSign(h: int)
    ensures |DecimalRepr(h)| >= 1
    ensures DecimalRepr(h)[0] == '-' <==> h < 0
  {
    var m: nat := if h < 0 then -h else h;
    assert UnsignedRepr(m)[0] == NatToString(m / 100)[0];
  }

  /** Distinct hundredths have distinct reprs. */
  lemma DecimalReprInjective(a: int, b: int)
    requires DecimalRepr(a) == DecimalRepr(b)
    ensures a == b
  {
    var ma: nat := if a < 0 then -a else a;
    var mb: nat := if b < 0 then -b else b;
    ReprSign(a);
    ReprSign(b);
    if a < 0 {
      assert DecimalRepr(a)[1..] == UnsignedRepr(ma) && DecimalRepr(b)[1..] == UnsignedRepr(mb);
    } else {
      assert DecimalRepr(a) == UnsignedRepr(ma) && DecimalRepr(b) == UnsignedRepr(mb);
    }
    UnsignedReprInjective(ma, mb);
  }

  /** Python's `<` on str: lexicographic by code point, a proper prefix first. */
  predicate StrLess(a: string, b: string)
    decreases |a|
  {
    if a == [] then b != []
    else if b == [] then false
    else if a[0] != b[0] then a[0] < b[0]
    else StrLess(a[1..], b[1..])
  }

  lemma {:induction false} StrLessIrreflexive(a: string)
    ensures !StrLess(a, a)
    decreases |a|
  {
    if a != [] {
      StrLessIrreflexive(a[1..]);
    }
  }

  lemma {:induction false} StrLessTransitive(a: string, b: string, c: string)
    requires StrLess(a, b) && StrLess(b, c)
    ensures StrLess(a, c)
    decreases |a|
  {
    if a != [] && a[0] == b[0] && b[0] == c[0] {
      StrLessTransitive(a[1..], b[1..], c[1..]);
    }
  }

  lemma {:induction false} StrLessTotal(a: string, b: string)
    requires a != b
    ensures StrLess(a, b) || StrLess(b, a)
    decreases |a|
  {
    if a != [] && b != [] && a[0] == b[0] {
      assert a == [a[0]] + a[1..] && b == [b[0]] + b[1..];
      StrLessTotal(a[1..], b[1..]);
    }
  }

  lemma StrLessIsStrictTotalOrder()
    ensures Order.IsStrictTotalOrder(StrLess)
  {
    forall a ensures !StrLess(a, a) {
      StrLessIrreflexive(a);
    }
    forall a, b, c | StrLess(a, b) && StrLess(b, c) ensures StrLess(a, c) {
      StrLessTransitive(a, b, c);
    }
    forall a, b | a != b ensures StrLess(a, b) || StrLess(b, a) {
      StrLessTotal(a, b);
    }
  }

  /** Python's `sorted` applied to a set of strings. */
  function SortedStrings(s: set<string>): (r: seq<string>)
    ensures forall x :: x in r <==> x in s
    ensures |r| == |s|
    ensures Order.Ascending(r, StrLess)
  {
    StrLessIsStrictTotalOrder();
    Order.SortedSet(s, StrLess)
  }
}

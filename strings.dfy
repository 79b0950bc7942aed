/** String helpers: Python's `str.startswith` and the decimal rendering that an
    f-string gives an integer, with the facts about rendering that the indexed
    sensor keys and the numeric coercion rely on. */
module Strings {

  /** `s.startswith(prefix)` */
  predicate StartsWith(s: string, prefix: string) {
    |prefix| <= |s| && s[..|prefix|] == prefix
  }

  predicate IsDigit(c: char) {
    '0' <= c <= '9'
  }

  predicate AllDigits(s: string) {
    forall i :: 0 <= i < |s| ==> IsDigit(s[i])
  }

  function DigitChar(d: nat): (c: char)
    requires d < 10
    ensures IsDigit(c) && c as int - '0' as int == d
  {
    ('0' as int + d) as char
  }

  function DigitValue(c: char): (d: nat)
    requires IsDigit(c)
    ensures d < 10 && DigitChar(d) == c
  {
    c as int - '0' as int
  }

  /** The number a string of decimal digits denotes (0 for the empty string). */
  function DigitsValue(s: string): nat
    requires AllDigits(s)
  {
    if s == [] then 0 else DigitsValue(s[..|s| - 1]) * 10 + DigitValue(s[|s| - 1])
  }

  /** `f"{n}"` for a natural number n. */
  function NatToString(n: nat): string {
    if n < 10 then [DigitChar(n)] else NatToString(n / 10) + [DigitChar(n % 10)]
  }

  /** `f"{n}"` for any integer n. */
  function IntToString(n: int): string {
    if n < 0 then "-" + NatToString(-n) else NatToString(n)
  }

  /** The rendering of n is a non-empty digit string that reads back as n. */
  lemma {:induction false} NatToStringRoundTrip(n: nat)
    ensures |NatToString(n)| > 0 && AllDigits(NatToString(n))
    ensures DigitsValue(NatToString(n)) == n
  {
    if n >= 10 {
      NatToStringRoundTrip(n / 10);
      var s := NatToString(n);
      assert s[..|s| - 1] == NatToString(n / 10);
    }
  }

  /** Distinct numbers render as distinct strings. */
  lemma NatToStringInjective(m: nat, n: nat)
    requires NatToString(m) == NatToString(n)
    ensures m == n
  {
    NatToStringRoundTrip(m);
    NatToStringRoundTrip(n);
  }

  /** Prepending the same prefix keeps distinct suffixes distinct. */
  lemma PrefixCancel(p: string, s: string, t: string)
    requires p + s == p + t
    ensures s == t
  {
    assert s == (p + s)[|p|..];
    assert t == (p + t)[|p|..];
  }

  /** A string that extends `p` starts with `p`. */
  lemma ConcatStartsWith(p: string, s: string)
    ensures StartsWith(p + s, p)
  {
    assert (p + s)[..|p|] == p;
  }

  /** A string cannot start with two prefixes that differ in their first character. */
  lemma PrefixesExclusive(s: string, p: string, q: string)
    requires StartsWith(s, p) && |p| > 0 && |q| > 0 && p[0] != q[0]
    ensures !StartsWith(s, q)
  {
    assert s[0] == s[..|p|][0];
  }

  /** No string occurs twice. */
  predicate Distinct(ks: seq<string>) {
    forall i, j :: 0 <= i < j < |ks| ==> ks[i] != ks[j]
  }

  /** No string of x occurs in y. */
  predicate Disjoint(x: seq<string>, y: seq<string>) {
    forall k :: k in x ==> k !in y
  }

  lemma DistinctConcat(x: seq<string>, y: seq<string>)
    requires Distinct(x) && Distinct(y) && Disjoint(x, y)
    ensures Distinct(x + y)
  {
    forall i, j | 0 <= i < j < |x + y| ensures (x + y)[i] != (x + y)[j] {
      if j < |x| {
        assert (x + y)[i] == x[i] && (x + y)[j] == x[j];
      } else if i < |x| {
        assert (x + y)[i] == x[i] && (x + y)[j] == y[j - |x|];
        assert x[i] in x && y[j - |x|] in y;
      } else {
        assert (x + y)[i] == y[i - |x|] && (x + y)[j] == y[j - |x|];
      }
    }
  }

  /** Strings that all start with p are disjoint from strings none of which does. */
  lemma DisjointByPrefix(x: seq<string>, y: seq<string>, p: string)
    requires forall k :: k in x ==> !StartsWith(k, p)
    requires forall k :: k in y ==> StartsWith(k, p)
    ensures Disjoint(x, y) && Disjoint(y, x)
  {
  }

  /** A string shorter than p, or one whose first character differs from p's, does not start with p. */
  lemma NotStartsWith(s: string, p: string)
    requires |p| > 0 && (|s| < |p| || s[0] != p[0])
    ensures !StartsWith(s, p)
  {
    if |s| >= |p| {
      assert s[..|p|][0] == s[0];
    }
  }

  lemma Distinct4(a: seq<string>, b: seq<string>, c: seq<string>, d: seq<string>)
    requires Distinct(a) && Distinct(b) && Distinct(c) && Distinct(d)
    requires Disjoint(a, b) && Disjoint(a, c) && Disjoint(a, d)
    requires Disjoint(b, c) && Disjoint(b, d) && Disjoint(c, d)
    ensures Distinct(a + b + c + d)
  {
    DistinctConcat(a, b);
    DistinctConcat(a + b, c);
    DistinctConcat(a + b + c, d);
  }

  lemma Distinct6(a: seq<string>, b: seq<string>, c: seq<string>, d: seq<string>, e: seq<string>, f: seq<string>)
    requires Distinct(a) && Distinct(b) && Distinct(c) && Distinct(d) && Distinct(e) && Distinct(f)
    requires Disjoint(a, b) && Disjoint(a, c) && Disjoint(a, d) && Disjoint(a, e) && Disjoint(a, f)
    requires Disjoint(b, c) && Disjoint(b, d) && Disjoint(b, e) && Disjoint(b, f)
    requires Disjoint(c, d) && Disjoint(c, e) && Disjoint(c, f)
    requires Disjoint(d, e) && Disjoint(d, f) && Disjoint(e, f)
    ensures Distinct(a + b + c + d + e + f)
  {
    Distinct4(a, b, c, d);
    DistinctConcat(a + b + c + d, e);
    DistinctConcat(a + b + c + d + e, f);
  }
}

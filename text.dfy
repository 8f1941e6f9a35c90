/**
 * The few Python string operations the backend relies on: `str.strip()`,
 * `str.lower()` as far as it matters for matching ASCII words, `str(int)`,
 * and the decimal conversions behind `int(s)` and `float(s)`.
 */
module Text {
  import opened Wrappers

  /** Python's `str.isspace` for one character. */
  predicate IsSpace(c: char) {
    || c == ' ' || ('\t' <= c <= '\r') || ('\U{1c}' <= c <= '\U{1f}')
    || c == '\U{85}' || c == '\U{a0}' || c == '\U{1680}'
    || ('\U{2000}' <= c <= '\U{200a}') || c == '\U{2028}' || c == '\U{2029}'
    || c == '\U{202f}' || c == '\U{205f}' || c == '\U{3000}'
  }

  predicate AllSpace(s: string) {
    forall k :: 0 <= k < |s| ==> IsSpace(s[k])
  }

  /** The number of whitespace characters `s` starts with. */
  function LeadingSpace(s: string): (n: nat)
    ensures n <= |s| && AllSpace(s[..n]) && (n < |s| ==> !IsSpace(s[n]))
  {
    if |s| > 0 && IsSpace(s[0]) then
      var n := 1 + LeadingSpace(s[1..]);
      assert forall k :: 1 <= k < n ==> s[..n][k] == s[1..][..n - 1][k - 1];
      n
    else
      0
  }

  /** The number of whitespace characters `s` ends with. */
  function TrailingSpace(s: string): (n: nat)
    ensures n <= |s| && AllSpace(s[|s| - n..]) && (n < |s| ==> !IsSpace(s[|s| - n - 1]))
  {
    if |s| > 0 && IsSpace(s[|s| - 1]) then
      var n := 1 + TrailingSpace(s[..|s| - 1]);
      assert forall k :: |s| - n <= k < |s| ==> IsSpace(s[k]);
      n
    else
      0
  }

  /** Python's `s.strip()`: `s` without its leading and trailing whitespace. */
  function Strip(s: string): (r: string)
    ensures r == [] || (!IsSpace(r[0]) && !IsSpace(r[|r| - 1]))
  {
    var t := s[LeadingSpace(s)..];
    t[..|t| - TrailingSpace(t)]
  }

  /** Strip keeps exactly the middle part `m` of `a + m + b` when `a` and `b`
      are whitespace and `m` neither starts nor ends with whitespace. */
  lemma StripCharacterised(a: string, m: string, b: string)
    requires AllSpace(a) && AllSpace(b)
    requires m == [] || (!IsSpace(m[0]) && !IsSpace(m[|m| - 1]))
    ensures Strip(a + m + b) == m
  {
    var s := a + m + b;
    var n := LeadingSpace(s);
    if m == [] {
      assert AllSpace(s) by {
        assert forall k :: 0 <= k < |s| ==> s[k] == if k < |a| then a[k] else b[k - |a|];
      }
      assert n == |s|;
    } else {
      assert s[|a|] == m[0];
      assert forall k :: 0 <= k < |a| ==> s[k] == a[k];
      assert n == |a|;
      var t := s[n..];
      assert t == m + b;
      var e := TrailingSpace(t);
      assert t[|m| - 1] == m[|m| - 1];
      assert forall k :: |m| <= k < |t| ==> t[k] == b[k - |m|];
      assert e == |b|;
      assert t[..|t| - e] == m;
    }
  }

  /** Every string splits into whitespace, its stripped text and whitespace. */
  lemma StripSplits(s: string) returns (a: string, b: string)
    ensures AllSpace(a) && AllSpace(b) && s == a + Strip(s) + b
  {
    var n := LeadingSpace(s);
    var t := s[n..];
    var e := TrailingSpace(t);
    var m := t[..|t| - e];
    a, b := s[..n], t[|t| - e..];
    SplitAt(s, n);
    SplitAt(t, |t| - e);
    Assoc(a, m, b);
  }

  lemma SplitAt<T>(s: seq<T>, n: nat)
    requires n <= |s|
    ensures s[..n] + s[n..] == s
  {
  }

  lemma Assoc<T>(x: seq<T>, y: seq<T>, z: seq<T>)
    ensures x + (y + z) == x + y + z
  {
  }

  /** A prefix grows by one element at a time. */
  lemma TakeSnoc<T>(s: seq<T>, n: nat)
    requires n < |s|
    ensures s[..n + 1] == s[..n] + [s[n]]
  {
  }

  lemma TakeAll<T>(s: seq<T>)
    ensures s[..|s|] == s
  {
  }

  lemma AllSpaceConcat(x: string, y: string)
    requires AllSpace(x) && AllSpace(y)
    ensures AllSpace(x + y)
  {
    assert forall k :: 0 <= k < |x + y| ==> (x + y)[k] == if k < |x| then x[k] else y[k - |x|];
  }

  /** Stripping ignores whitespace padding on either side. */
  lemma StripPadded(a: string, s: string, b: string)
    requires AllSpace(a) && AllSpace(b)
    ensures Strip(a + s + b) == Strip(s)
  {
    var a0, b0 := StripSplits(s);
    var m := Strip(s);
    Assoc(a, a0 + m, b0);
    Assoc(a, a0, m);
    Assoc(a + a0 + m, b0, b);
    AllSpaceConcat(a, a0);
    AllSpaceConcat(b0, b);
    StripCharacterised(a + a0, m, b0 + b);
  }

  lemma StripOfTrimmed(m: string)
    requires m == [] || (!IsSpace(m[0]) && !IsSpace(m[|m| - 1]))
    ensures Strip(m) == m
  {
    assert m == [] + m + [];
    StripCharacterised([], m, []);
  }

  /** Stripping twice is stripping once. */
  lemma StripIdempotent(s: string)
    ensures Strip(Strip(s)) == Strip(s)
  {
    var m := Strip(s);
    assert m == [] + m + [];
    StripCharacterised([], m, []);
  }

  /** `c.lower()` where it can produce an ASCII letter: `A`-`Z` and the
      KELVIN SIGN (U+212A), whose lower case is `k`. Other characters are
      left as they are. */
  function LowerChar(c: char): (d: char)
    ensures IsSpace(d) <==> IsSpace(c)
    ensures 'A' <= c <= 'Z' ==> d as int == c as int + 32
  {
    if 'A' <= c <= 'Z' then (c as int + 32) as char
    else if c == '\U{212a}' then 'k'
    else c
  }

  /** `s.lower()` as far as LowerChar models it. */
  function Lower(s: string): (r: string)
    ensures |r| == |s|
    ensures forall k :: 0 <= k < |s| ==> r[k] == LowerChar(s[k])
  {
    seq(|s|, k requires 0 <= k < |s| => LowerChar(s[k]))
  }

  lemma LowerConcat(x: string, y: string)
    ensures Lower(x + y) == Lower(x) + Lower(y)
  {
  }

  /** Lower-casing and stripping commute, since no case change touches
      whitespace. */
  lemma LowerStripCommute(s: string)
    ensures Strip(Lower(s)) == Lower(Strip(s))
  {
    var a, b := StripSplits(s);
    var m := Strip(s);
    LowerConcat(a, m);
    LowerConcat(a + m, b);
    var lm := Lower(m);
    assert lm == [] || (!IsSpace(lm[0]) && !IsSpace(lm[|lm| - 1]));
    assert AllSpace(Lower(a)) && AllSpace(Lower(b));
    StripCharacterised(Lower(a), lm, Lower(b));
  }

  predicate IsDigit(c: char) { '0' <= c <= '9' }

  predicate AllDigits(s: string) {
    forall k :: 0 <= k < |s| ==> IsDigit(s[k])
  }

  function DigitChar(d: nat): (c: char)
    requires d < 10
    ensures IsDigit(c) && c as int - '0' as int == d
  {
    ('0' as int + d) as char
  }

  /** The value of a string of decimal digits. */
  function DigitsValue(s: string): nat
    requires AllDigits(s)
  {
    if s == [] then 0
    else DigitsValue(s[..|s| - 1]) * 10 + (s[|s| - 1] as int - '0' as int)
  }

  /** Python's `str(n)` for a natural number. */
  function NatToString(n: nat): (r: string)
    ensures |r| >= 1 && AllDigits(r)
  {
    if n < 10 then [DigitChar(n)] else NatToString(n / 10) + [DigitChar(n % 10)]
  }

  /** Python's `str(i)` for an int. */
  function IntToString(i: int): (r: string)
    ensures |r| >= 1 && !IsSpace(r[0]) && !IsSpace(r[|r| - 1])
  {
    if i < 0 then "-" + NatToString(-i) else NatToString(i)
  }

  lemma {:induction false} NatToStringValue(n: nat)
    ensures DigitsValue(NatToString(n)) == n
  {
    if n >= 10 {
      NatToStringValue(n / 10);
      var s := NatToString(n);
      assert s[..|s| - 1] == NatToString(n / 10);
    }
  }

  /** Python's `int(s)` for a string: optional surrounding whitespace, an
      optional sign, then decimal digits; anything else is a ValueError. */
  function ParseInt(s: string): (r: Option<int>)
    ensures r.Some? ==> Strip(s) != []
  {
    var t := Strip(s);
    if |t| >= 2 && (t[0] == '-' || t[0] == '+') && AllDigits(t[1..]) then
      Some(if t[0] == '-' then -(DigitsValue(t[1..]) as int) else DigitsValue(t[1..]))
    else if |t| >= 1 && AllDigits(t) then
      Some(DigitsValue(t))
    else
      None
  }

  lemma ParseIntOfUnsigned(d: string)
    requires |d| >= 1 && AllDigits(d) && Strip(d) == d
    ensures ParseInt(d) == Some(DigitsValue(d) as int)
  {
    assert !(d[0] == '-' || d[0] == '+');
  }

  lemma ParseIntOfNegative(d: string)
    requires |d| >= 1 && AllDigits(d) && Strip("-" + d) == "-" + d
    ensures ParseInt("-" + d) == Some(-(DigitsValue(d) as int))
  {
    var t := "-" + d;
    assert t[0] == '-' && t[1..] == d;
    assert Strip(t) == t && |t| >= 2 && AllDigits(t[1..]);
  }

  /** `int(str(i)) == i`. */
  lemma IntToStringRoundTrip(i: int)
    ensures ParseInt(IntToString(i)) == Some(i)
  {
    var s := IntToString(i);
    StripOfTrimmed(s);
    if i < 0 {
      var d := NatToString(-i);
      assert s == "-" + d;
      NatToStringValue(-i);
      ParseIntOfNegative(d);
    } else {
      assert s == NatToString(i);
      NatToStringValue(i);
      ParseIntOfUnsigned(s);
    }
  }

  function Pow10(n: nat): (r: nat)
    ensures r >= 1
  {
    if n == 0 then 1 else 10 * Pow10(n - 1)
  }

  function IndexOf(s: string, c: char): (r: nat)
    ensures r <= |s|
    ensures forall k :: 0 <= k < r ==> s[k] != c
    ensures r < |s| ==> s[r] == c
  {
    if s == [] then 0 else if s[0] == c then 0 else 1 + IndexOf(s[1..], c)
  }

  /** The unsigned decimal `123`, `1.5`, `1.` or `.5`. */
  function ParseUnsignedDecimal(t: string): (r: Option<real>)
    ensures AllDigits(t) && t != [] ==> r == Some(DigitsValue(t) as real)
  {
    var p := IndexOf(t, '.');
    assert AllDigits(t) ==> p == |t| && t[..p] == t;
    var whole := t[..p];
    var frac := if p < |t| then t[p + 1..] else [];
    if AllDigits(whole) && AllDigits(frac) && (whole != [] || frac != []) then
      Some(DigitsValue(whole) as real + DigitsValue(frac) as real / Pow10(|frac|) as real)
    else
      None
  }

  /** Python's `float(s)` for plain decimal notation with optional
      surrounding whitespace and sign. */
  function ParseDecimal(s: string): (r: Option<real>)
    ensures ParseInt(s).Some? ==> r == Some(ParseInt(s).value as real)
  {
    var t := Strip(s);
    if |t| >= 1 && (t[0] == '-' || t[0] == '+') then
      match ParseUnsignedDecimal(t[1..])
      case Some(x) => Some(if t[0] == '-' then -x else x)
      case None => None
    else
      ParseUnsignedDecimal(t)
  }

  /** `sep.join(parts)`. */
  function Join(parts: seq<string>, sep: string): string {
    if parts == [] then ""
    else if |parts| == 1 then parts[0]
    else parts[0] + sep + Join(parts[1..], sep)
  }
}

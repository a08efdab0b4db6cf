/**
 * The JavaScript string operations the dashboard relies on, with the
 * semantics ECMAScript gives them: `String.prototype.trim`, `startsWith`,
 * `endsWith`, `indexOf`, `Array.prototype.join`, the decimal rendering of
 * an integer in a template literal, and the global `parseInt` without a
 * radix argument.
 */
module Text {
  import opened Wrappers

  /** The characters `trim` removes: ECMAScript WhiteSpace and LineTerminator. */
  predicate IsJsWhitespace(c: char) {
    c == '\t' || c == '\n' || c == '\U{B}' || c == '\U{C}' || c == '\r' || c == ' '
    || c == '\U{A0}' || c == '\U{1680}' || ('\U{2000}' <= c <= '\U{200A}')
    || c == '\U{2028}' || c == '\U{2029}' || c == '\U{202F}' || c == '\U{205F}'
    || c == '\U{3000}' || c == '\U{FEFF}'
  }

  predicate IsDecimalDigit(c: char) { '0' <= c <= '9' }

  /** An ASCII letter: what `[a-z]` matches under the `i` flag without `u`. */
  predicate IsAsciiLetter(c: char) { ('a' <= c <= 'z') || ('A' <= c <= 'Z') }

  predicate StartsWith(s: string, prefix: string) {
    |prefix| <= |s| && s[..|prefix|] == prefix
  }

  predicate EndsWith(s: string, suffix: string) {
    |suffix| <= |s| && s[|s| - |suffix|..] == suffix
  }

  /** `pat` occurs in `s` starting at index `i`. */
  predicate OccursAt(s: string, pat: string, i: int) {
    0 <= i && i + |pat| <= |s| && s[i..i + |pat|] == pat
  }

  ghost predicate Contains(s: string, pat: string) {
    exists i :: OccursAt(s, pat, i)
  }

  /** Leading whitespace removed. */
  function TrimStart(s: string): (r: string)
    ensures |r| <= |s| && r == s[|s| - |r|..]
    ensures r == [] || !IsJsWhitespace(r[0])
    ensures forall i :: 0 <= i < |s| - |r| ==> IsJsWhitespace(s[i])
  {
    if s != [] && IsJsWhitespace(s[0]) then TrimStart(s[1..]) else s
  }

  lemma TrimStartUnpadded(s: string)
    requires s != [] && !IsJsWhitespace(s[0])
    ensures TrimStart(s) == s
  {
  }

  /** Trailing whitespace removed. */
  function TrimEnd(s: string): (r: string)
    ensures |r| <= |s| && r == s[..|r|]
    ensures r == [] || !IsJsWhitespace(r[|r| - 1])
    ensures forall i :: |r| <= i < |s| ==> IsJsWhitespace(s[i])
  {
    if s != [] && IsJsWhitespace(s[|s| - 1]) then TrimEnd(s[..|s| - 1]) else s
  }

  /** `s.trim()`: the longest slice of `s` that neither starts nor ends with whitespace. */
  function Trim(s: string): (r: string)
    ensures exists a, b :: 0 <= a <= b <= |s| && r == s[a..b]
                           && (forall i :: 0 <= i < a ==> IsJsWhitespace(s[i]))
                           && (forall i :: b <= i < |s| ==> IsJsWhitespace(s[i]))
    ensures r == [] || (!IsJsWhitespace(r[0]) && !IsJsWhitespace(r[|r| - 1]))
  {
    var t := TrimStart(s);
    var r := TrimEnd(t);
    assert r == s[|s| - |t|..|s| - |t| + |r|];
    r
  }

  lemma TrimOfUnpadded(s: string)
    requires s != [] && !IsJsWhitespace(s[0]) && !IsJsWhitespace(s[|s| - 1])
    ensures Trim(s) == s
  {
  }

  /** The first index `i >= from` at which `pat` occurs in `s`, as `s.indexOf(pat, from)`. */
  function IndexOf(s: string, pat: string, from: nat): (r: Option<nat>)
    ensures r.Some? ==> from <= r.value && OccursAt(s, pat, r.value)
                        && forall k :: from <= k < r.value ==> !OccursAt(s, pat, k)
    ensures r.None? ==> forall k :: from <= k ==> !OccursAt(s, pat, k)
    decreases |s| - from
  {
    if from + |pat| > |s| then None
    else if s[from..from + |pat|] == pat then Some(from)
    else IndexOf(s, pat, from + 1)
  }

  /** `parts.join(sep)`. */
  function Join(parts: seq<string>, sep: string): string
  {
    if |parts| == 0 then ""
    else if |parts| == 1 then parts[0]
    else Join(parts[..|parts| - 1], sep) + sep + parts[|parts| - 1]
  }

  lemma ContainsWitness(s: string, pat: string, i: int)
    requires OccursAt(s, pat, i)
    ensures Contains(s, pat)
  {
  }

  /** A string contains each of its middle parts. */
  lemma ContainsMiddle(a: string, pat: string, c: string)
    ensures Contains(a + pat + c, pat)
  {
    var s := a + pat + c;
    assert s[|a|..|a| + |pat|] == pat;
    ContainsWitness(s, pat, |a|);
  }

  /** A string contains its suffixes. */
  lemma ContainsEnd(a: string, pat: string)
    ensures Contains(a + pat, pat)
  {
    assert (a + pat)[|a|..|a| + |pat|] == pat;
    ContainsWitness(a + pat, pat, |a|);
  }

  /** A string contains its prefixes. */
  lemma ContainsStart(pat: string, c: string)
    ensures Contains(pat + c, pat)
  {
    assert (pat + c)[0..|pat|] == pat;
    ContainsWitness(pat + c, pat, 0);
  }

  lemma {:induction false} ContainsTransitive(s: string, t: string, u: string)
    requires Contains(s, t) && Contains(t, u)
    ensures Contains(s, u)
  {
    var i :| OccursAt(s, t, i);
    var j :| OccursAt(t, u, j);
    assert s[i..i + |t|] == t;
    forall k | 0 <= k < |u| ensures s[i + j + k] == u[k] {
      assert s[i + j + k] == t[j + k];
    }
    assert s[i + j..i + j + |u|] == u;
    ContainsWitness(s, u, i + j);
  }

  /** Every part of a joined list can be found in the joined text. */
  lemma {:induction false} JoinContainsPart(parts: seq<string>, sep: string, k: nat)
    requires k < |parts|
    ensures Contains(Join(parts, sep), parts[k])
  {
    if |parts| == 1 {
      assert parts[0][0..|parts[0]|] == parts[0];
      ContainsWitness(Join(parts, sep), parts[0], 0);
    } else {
      var init := parts[..|parts| - 1];
      var whole := Join(parts, sep);
      assert whole == Join(init, sep) + sep + parts[|parts| - 1];
      if k == |parts| - 1 {
        ContainsEnd(Join(init, sep) + sep, parts[k]);
      } else {
        JoinContainsPart(init, sep, k);
        assert init[k] == parts[k];
        assert whole == Join(init, sep) + (sep + parts[|parts| - 1]);
        ContainsStart(Join(init, sep), sep + parts[|parts| - 1]);
        ContainsTransitive(whole, Join(init, sep), parts[k]);
      }
    }
  }

  function DigitChar(d: nat): (c: char)
    requires d < 10
    ensures IsDecimalDigit(c)
  {
    "0123456789"[d]
  }

  /** The decimal rendering of a non-negative integer (`String(n)`). */
  function NatToString(n: nat): (r: string)
    ensures r != []
    ensures forall i :: 0 <= i < |r| ==> IsDecimalDigit(r[i])
  {
    if n < 10 then [DigitChar(n)] else NatToString(n / 10) + [DigitChar(n % 10)]
  }

  /** The decimal rendering of an integer, with a leading '-' when negative. */
  function IntToString(n: int): (r: string)
    ensures n >= 0 ==> r != [] && forall i :: 0 <= i < |r| ==> IsDecimalDigit(r[i])
    ensures n < 0 ==> |r| >= 2 && r[0] == '-' && forall i :: 1 <= i < |r| ==> IsDecimalDigit(r[i])
  {
    if n < 0 then "-" + NatToString(-n) else NatToString(n)
  }

  /** The value of a digit in bases up to 16, or 16 for any other character. */
  function DigitValue(c: char): (v: nat)
    ensures v <= 16
    ensures IsDecimalDigit(c) <==> v < 10
  {
    if '0' <= c <= '9' then (c - '0') as nat
    else if 'a' <= c <= 'f' then (c - 'a') as nat + 10
    else if 'A' <= c <= 'F' then (c - 'A') as nat + 10
    else 16
  }

  /** The longest prefix of `s` made of digits of the given radix. */
  function DigitPrefix(s: string, radix: nat): (r: string)
    ensures |r| <= |s| && r == s[..|r|]
    ensures forall i :: 0 <= i < |r| ==> DigitValue(r[i]) < radix
    ensures |r| == |s| || DigitValue(s[|r|]) >= radix
  {
    if s != [] && DigitValue(s[0]) < radix then [s[0]] + DigitPrefix(s[1..], radix) else []
  }

  /** The value of a digit string read most significant digit first. */
  function DigitsValue(ds: string, radix: nat): int
  {
    if ds == [] then 0
    else DigitsValue(ds[..|ds| - 1], radix) * radix + DigitValue(ds[|ds| - 1]) as int
  }

  /**
   * The unsigned part of `parseInt`: base 16 after a "0x"/"0X" prefix,
   * base 10 otherwise, then the longest run of digits; no digits at all
   * gives NaN, which is None here.
   */
  function ParseMagnitude(u: string): Option<int>
  {
    var hex := |u| >= 2 && u[0] == '0' && (u[1] == 'x' || u[1] == 'X');
    var radix := if hex then 16 else 10;
    var ds := DigitPrefix(if hex then u[2..] else u, radix);
    if ds == [] then None else Some(DigitsValue(ds, radix))
  }

  /** `parseInt(s)`: leading whitespace skipped, then an optional sign. */
  function ParseInt(s: string): (r: Option<int>)
    ensures (forall i :: 0 <= i < |s| ==> !IsDecimalDigit(s[i])) ==> r.None?
  {
    var t := TrimStart(s);
    if t != [] && t[0] == '-' then
      match ParseMagnitude(t[1..])
      case Some(v) => Some(-v)
      case None => None
    else if t != [] && t[0] == '+' then ParseMagnitude(t[1..])
    else ParseMagnitude(t)
  }

  lemma {:induction false} DigitPrefixOfDigits(d: string, rest: string)
    requires forall i :: 0 <= i < |d| ==> IsDecimalDigit(d[i])
    requires rest == [] || !IsDecimalDigit(rest[0])
    ensures DigitPrefix(d + rest, 10) == d
  {
    if d != [] {
      assert (d + rest)[1..] == d[1..] + rest;
      DigitPrefixOfDigits(d[1..], rest);
    }
  }

  lemma {:induction false} DigitsValueOfNat(n: nat)
    ensures DigitsValue(NatToString(n), 10) == n
  {
    if n >= 10 {
      var r := NatToString(n);
      assert r[..|r| - 1] == NatToString(n / 10);
      DigitsValueOfNat(n / 10);
    }
  }

  lemma ParseMagnitudeOfDigits(d: string, rest: string)
    requires d != [] && forall i :: 0 <= i < |d| ==> IsDecimalDigit(d[i])
    requires rest == [] || (!IsDecimalDigit(rest[0]) && rest[0] != 'x' && rest[0] != 'X')
    ensures ParseMagnitude(d + rest) == Some(DigitsValue(d, 10))
  {
    var u := d + rest;
    assert !(|u| >= 2 && u[0] == '0' && (u[1] == 'x' || u[1] == 'X')) by {
      if |d| >= 2 { assert u[1] == d[1]; } else if rest != [] { assert u[1] == rest[0]; }
    }
    DigitPrefixOfDigits(d, rest);
  }

  /** A digit string, and what follows it, parses to its magnitude. */
  lemma ParseIntUnsigned(u: string, v: int)
    requires u != [] && IsDecimalDigit(u[0]) && ParseMagnitude(u) == Some(v)
    ensures ParseInt(u) == Some(v)
  {
    TrimStartUnpadded(u);
  }

  /** The same after a minus sign, negated. */
  lemma ParseIntNegated(u: string, v: int)
    requires u != [] && IsDecimalDigit(u[0]) && ParseMagnitude(u) == Some(v)
    ensures ParseInt("-" + u) == Some(-v)
  {
    var w := "-" + u;
    assert w[0] == '-' && w[1..] == u;
    TrimStartUnpadded(w);
  }

  /**
   * `parseInt` reads back what the template literal wrote: the decimal
   * text of `n`, followed by anything that cannot continue the number.
   */
  lemma ParseIntOfIntToString(n: int, rest: string)
    requires rest == [] || (!IsDecimalDigit(rest[0]) && rest[0] != 'x' && rest[0] != 'X')
    ensures ParseInt(IntToString(n) + rest) == Some(n)
  {
    var m := if n < 0 then -n else n;
    var d := NatToString(m);
    ParseMagnitudeOfDigits(d, rest);
    DigitsValueOfNat(m);
    var u := d + rest;
    assert u[0] == d[0];
    if n < 0 {
      assert IntToString(n) + rest == "-" + u;
      ParseIntNegated(u, m);
    } else {
      ParseIntUnsigned(u, m);
    }
  }
}

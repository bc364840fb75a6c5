/** The JavaScript built-ins whose exact behaviour the application's logic depends on:
    numbers that may be NaN, `parseInt` without a radix, `String.prototype.trim`,
    `startsWith`, `Array.prototype.join`, and the decimal rendering of an integer.
    Section numbers below are those of ECMA-262. */
module Js {

  /** A JavaScript number: NaN, or a finite value. Infinities are not modelled. */
  datatype Number = NaN | Num(value: real)

  /** `a + b`; NaN absorbs. */
  function Add(a: Number, b: Number): Number {
    if a.Num? && b.Num? then Num(a.value + b.value) else NaN
  }

  /** `a - b`; NaN absorbs. */
  function Sub(a: Number, b: Number): Number {
    if a.Num? && b.Num? then Num(a.value - b.value) else NaN
  }

  /** `Math.abs(a)`; NaN stays NaN. */
  function Abs(a: Number): Number {
    if a.Num? && a.value < 0.0 then Num(-a.value) else a
  }

  /** `a < c`: every comparison with NaN is false. */
  predicate Less(a: Number, c: real) {
    a.Num? && a.value < c
  }

  /** `a > c`: every comparison with NaN is false. */
  predicate Greater(a: Number, c: real) {
    a.Num? && a.value > c
  }

  /** WhiteSpace and LineTerminator code points (sections 12.2 and 12.3): what `trim` and
      `parseInt` skip. The Zs category is listed out. */
  predicate IsWhiteSpace(c: char) {
    || c == '\t' || c == '\n' || c == '\U{000B}' || c == '\U{000C}' || c == '\r'
    || c == ' ' || c == '\U{00A0}' || c == '\U{1680}' || ('\U{2000}' <= c <= '\U{200A}')
    || c == '\U{2028}' || c == '\U{2029}' || c == '\U{202F}' || c == '\U{205F}'
    || c == '\U{3000}' || c == '\U{FEFF}'
  }

  ghost predicate AllWhiteSpace(t: string) {
    forall k :: 0 <= k < |t| ==> IsWhiteSpace(t[k])
  }

  /** How many white-space characters `s` starts with. */
  function LeadingWhiteSpace(s: string): (n: nat)
    ensures n <= |s|
    ensures forall k :: 0 <= k < n ==> IsWhiteSpace(s[k])
    ensures n < |s| ==> !IsWhiteSpace(s[n])
  {
    if s != [] && IsWhiteSpace(s[0]) then
      var m := LeadingWhiteSpace(s[1..]);
      assert forall k :: 1 <= k < m + 1 ==> s[k] == s[1..][k - 1];
      m + 1
    else 0
  }

  /** Drops the leading white space: what is dropped is all white space, and what is left
      does not start with white space. */
  function TrimStart(s: string): (r: string)
    ensures |r| <= |s| && r == s[|s| - |r|..]
    ensures AllWhiteSpace(s[..|s| - |r|])
    ensures r != [] ==> !IsWhiteSpace(r[0])
  {
    s[LeadingWhiteSpace(s)..]
  }

  /** Drops the trailing white space: what is dropped is all white space, and what is left
      does not end with white space. */
  function TrimEnd(s: string): (r: string)
    ensures |r| <= |s| && r == s[..|r|]
    ensures AllWhiteSpace(s[|r|..])
    ensures r != [] ==> !IsWhiteSpace(r[|r| - 1])
  {
    if s != [] && IsWhiteSpace(s[|s| - 1]) then TrimEnd(s[..|s| - 1]) else s
  }

  /** `s.trim()` (section 22.1.3.32): the slice of `s` left after white space is dropped at
      both ends. */
  function Trim(s: string): (r: string)
    ensures exists i, j :: 0 <= i <= j <= |s| && r == s[i..j] && AllWhiteSpace(s[..i]) && AllWhiteSpace(s[j..])
    ensures r != [] ==> !IsWhiteSpace(r[0]) && !IsWhiteSpace(r[|r| - 1])
  {
    var t := TrimStart(s);
    var r := TrimEnd(t);
    var i, j := |s| - |t|, |s| - |t| + |r|;
    assert r == s[i..j] && s[j..] == t[|r|..];
    r
  }

  /** A string that neither starts nor ends with white space is its own trim. */
  lemma TrimIdentity(s: string)
    requires s == [] || (!IsWhiteSpace(s[0]) && !IsWhiteSpace(s[|s| - 1]))
    ensures Trim(s) == s
  {
  }

  /** `s.startsWith(prefix)`. */
  predicate StartsWith(s: string, prefix: string) {
    |prefix| <= |s| && s[..|prefix|] == prefix
  }

  /** `xs.join(sep)`. */
  function Join(xs: seq<string>, sep: string): string {
    if |xs| == 0 then "" else if |xs| == 1 then xs[0] else xs[0] + sep + Join(xs[1..], sep)
  }

  /** With a non-empty separator, a join is empty exactly when the list is empty or holds one
      empty string. */
  lemma {:induction false} JoinEmpty(xs: seq<string>, sep: string)
    requires sep != ""
    ensures Join(xs, sep) == "" <==> |xs| == 0 || (|xs| == 1 && xs[0] == "")
  {
    if |xs| >= 2 {
      assert |Join(xs, sep)| >= |sep|;
    }
  }

  function DigitChar(d: nat): (c: char)
    requires d < 10
  {
    ('0' as int + d) as char
  }

  /** The value of a character as a digit in radices up to 36 (section 19.2.5): 36 for a
      character that is no digit at all. */
  function DigitValue(c: char): nat {
    if '0' <= c <= '9' then c as int - '0' as int
    else if 'a' <= c <= 'z' then c as int - 'a' as int + 10
    else if 'A' <= c <= 'Z' then c as int - 'A' as int + 10
    else 36
  }

  predicate IsDecimalDigits(s: string) {
    forall k :: 0 <= k < |s| ==> '0' <= s[k] <= '9'
  }

  /** The decimal digits of `n`, most significant first, without leading zeros. */
  function NatToString(n: nat): (s: string)
    ensures s != [] && IsDecimalDigits(s)
    ensures s[0] == '0' ==> n == 0
  {
    if n < 10 then [DigitChar(n)] else NatToString(n / 10) + [DigitChar(n % 10)]
  }

  /** How a template literal renders an integral number (section 6.1.6.1.20). */
  function IntToString(n: int): string {
    if n < 0 then "-" + NatToString(-n) else NatToString(n)
  }

  /** The longest prefix of `s` made of radix-`radix` digits. */
  function DigitPrefix(s: string, radix: nat): (z: string)
    ensures |z| <= |s| && z == s[..|z|]
    ensures forall k :: 0 <= k < |z| ==> DigitValue(z[k]) < radix
    ensures |z| == |s| || DigitValue(s[|z|]) >= radix
  {
    if s != [] && DigitValue(s[0]) < radix then [s[0]] + DigitPrefix(s[1..], radix) else []
  }

  /** The value of a run of digits, most significant first, in one of the two radices
      `parseInt` selects on its own. */
  function DigitsValue(z: string, radix: nat): nat
    requires radix == 10 || radix == 16
  {
    if z == [] then 0
    else
      var high := DigitsValue(z[..|z| - 1], radix);
      (if radix == 16 then 16 * high else 10 * high) + DigitValue(z[|z| - 1])
  }

  /** The digits part of `parseInt`: a "0x" or "0X" prefix selects radix 16, and the longest
      run of digits that follows gives the value; when there is no digit the result is NaN. */
  function ParseMagnitude(u: string): (n: Number)
    ensures n.Num? ==> n.value >= 0.0 && n.value == n.value.Floor as real
  {
    if |u| >= 2 && u[0] == '0' && (u[1] == 'x' || u[1] == 'X') then DigitsNumber(DigitPrefix(u[2..], 16), 16)
    else DigitsNumber(DigitPrefix(u, 10), 10)
  }

  /** The value of a run of digits, NaN when the run is empty. */
  function DigitsNumber(z: string, radix: nat): Number
    requires radix == 10 || radix == 16
  {
    if z == [] then NaN else Num(DigitsValue(z, radix) as real)
  }

  /** `parseInt(s)` with no radix (section 19.2.5): leading white space is skipped, and the
      rest is read by `ParseSigned`. */
  function ParseInt(s: string): (r: Number)
    ensures AllWhiteSpace(s) ==> r == NaN
    ensures r.Num? ==> r.value == r.value.Floor as real
  {
    ParseSigned(TrimStart(s))
  }

  /** One sign is read, then the magnitude; a minus sign negates it and NaN stays NaN. */
  function ParseSigned(t: string): (r: Number)
    ensures t == [] ==> r == NaN
    ensures r.Num? ==> r.value == r.value.Floor as real
  {
    if t != [] && t[0] == '-' then
      var magnitude := ParseMagnitude(t[1..]);
      if magnitude.Num? then
        NegatedWhole(magnitude.value);
        Num(-magnitude.value)
      else NaN
    else if t != [] && t[0] == '+' then ParseMagnitude(t[1..])
    else ParseMagnitude(t)
  }

  /** The negation of a whole number is a whole number. */
  lemma NegatedWhole(x: real)
    requires x == x.Floor as real
    ensures -x == (-x).Floor as real
  {
    assert -x == (-x.Floor) as real;
  }

  lemma DigitValueOfDigitChar(d: nat)
    requires d < 10
    ensures DigitValue(DigitChar(d)) == d
  {
  }

  /** The digits of `n` read back as `n`. */
  lemma {:induction false} DigitsValueOfNatToString(n: nat)
    ensures DigitsValue(NatToString(n), 10) == n
  {
    var s := NatToString(n);
    if n < 10 {
      DigitValueOfDigitChar(n);
    } else {
      DigitsValueOfNatToString(n / 10);
      DigitValueOfDigitChar(n % 10);
      assert s[..|s| - 1] == NatToString(n / 10);
    }
  }

  /** A run of digits followed by a non-digit is exactly the digit prefix. */
  lemma {:induction false} DigitPrefixOfDigits(d: string, rest: string, radix: nat)
    requires forall k :: 0 <= k < |d| ==> DigitValue(d[k]) < radix
    requires rest == [] || DigitValue(rest[0]) >= radix
    ensures DigitPrefix(d + rest, radix) == d
  {
    if d != [] {
      assert (d + rest)[1..] == d[1..] + rest;
      DigitPrefixOfDigits(d[1..], rest, radix);
    }
  }

  /** A run of decimal digits followed by a non-digit reads back as its value ("007" as 7).
      Only a lone zero followed by "x" or "X" is excluded: that is the radix-16 prefix. */
  lemma ParseMagnitudeOfDigits(d: string, rest: string)
    requires d != [] && IsDecimalDigits(d)
    requires rest == [] || (DigitValue(rest[0]) >= 10 && (d == "0" ==> rest[0] != 'x' && rest[0] != 'X'))
    ensures ParseMagnitude(d + rest) == Num(DigitsValue(d, 10) as real)
  {
    var u := d + rest;
    forall k | 0 <= k < |d| ensures DigitValue(d[k]) < 10 {
    }
    assert !(|u| >= 2 && u[0] == '0' && (u[1] == 'x' || u[1] == 'X')) by {
      if |u| >= 2 && u[0] == '0' {
        if |d| >= 2 {
          assert u[1] == d[1];
        } else {
          assert d == "0";
          assert u[1] == rest[0];
        }
      }
    }
    DigitPrefixOfDigits(d, rest, 10);
  }

  /** Text that does not start with white space is read from its first character. */
  lemma ParseIntNoWhiteSpace(s: string)
    requires s != [] && !IsWhiteSpace(s[0])
    ensures ParseInt(s) == ParseSigned(s)
  {
    assert TrimStart(s) == s;
  }

  /** Text that starts with a digit is read as a magnitude. */
  lemma ParseIntUnsigned(s: string)
    requires s != [] && '0' <= s[0] <= '9'
    ensures ParseInt(s) == ParseMagnitude(s)
  {
    ParseIntNoWhiteSpace(s);
  }

  /** A leading minus sign negates the magnitude that follows it. */
  lemma ParseIntNegative(u: string, v: real)
    requires ParseMagnitude(u) == Num(v)
    ensures ParseInt(['-'] + u) == Num(-v)
  {
    var s := ['-'] + u;
    assert s[1..] == u;
    ParseIntNoWhiteSpace(s);
  }

  /** Decimal digits followed by a non-digit read back as their value, a lone zero before
      "x" or "X" excepted. */
  lemma ParseIntOfDigits(d: string, rest: string)
    requires d != [] && IsDecimalDigits(d)
    requires rest == [] || (DigitValue(rest[0]) >= 10 && (d == "0" ==> rest[0] != 'x' && rest[0] != 'X'))
    ensures ParseInt(d + rest) == Num(DigitsValue(d, 10) as real)
  {
    var u := d + rest;
    assert u[0] == d[0];
    ParseIntUnsigned(u);
    ParseMagnitudeOfDigits(d, rest);
  }

  lemma EmptyAppend(s: string)
    ensures "" + s == s
  {
  }

  lemma AppendAssociative(a: string, b: string, c: string)
    ensures a + b + c == a + (b + c)
  {
  }

  /** `parseInt` reads back the digit rendering of any integer, whatever non-digit follows
      it ("12.7" and "1e3" read as 12 and 1). Only "0" followed by "x" or "X" is excluded:
      that selects radix 16. */
  lemma ParseIntOfIntToString(n: int, rest: string)
    requires rest == [] || (DigitValue(rest[0]) >= 10 && (n == 0 ==> rest[0] != 'x' && rest[0] != 'X'))
    ensures ParseInt(IntToString(n) + rest) == Num(n as real)
  {
    var m: nat := if n < 0 then -n else n;
    var d := NatToString(m);
    assert d == "0" ==> n == 0 by {
      if d == "0" { assert d[0] == '0'; }
    }
    DigitsValueOfNatToString(m);
    if n < 0 {
      ParseMagnitudeOfDigits(d, rest);
      ParseIntNegative(d + rest, DigitsValue(d, 10) as real);
      AppendAssociative(['-'], d, rest);
    } else {
      ParseIntOfDigits(d, rest);
    }
  }

  /** The round trip without trailing text. */
  lemma ParseIntRoundTrip(n: int)
    ensures ParseInt(IntToString(n)) == Num(n as real)
  {
    ParseIntOfIntToString(n, "");
    assert IntToString(n) + "" == IntToString(n);
  }
}

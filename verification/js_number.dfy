/** The part of JavaScript number handling the pages rely on: the global
    `parseInt(string)` called without a radix (ECMA-262, section 19.2.5) and
    JavaScript's `x || 0` fallback. */
module JsNumber {

  /** A JavaScript number as `parseInt` can produce it: NaN or an integer.
      Signed zero is not distinguished: `-0` and `0` behave alike everywhere
      the pages use them. The integer is exact: the rounding to a double that
      JavaScript applies beyond `Number.MAX_SAFE_INTEGER` is not modelled, so
      claims about JavaScript's values are stated for safe integers only. */
  datatype JsInt = NaN | Int(value: int) {

    /** `n || 0`: NaN and zero are both falsy, so both fall back to 0. */
    function OrZero(): int {
      if Int? then value else 0
    }
  }

  /** WhiteSpace and LineTerminator code points that `parseInt` skips before
      the number (ECMA-262, sections 12.2 and 12.3). */
  /** `Number.MAX_SAFE_INTEGER`, 2^53 - 1: every integer up to it in
      magnitude is a double, and arithmetic that stays within it is exact. */
  const MaxSafeInteger: int := 0x1F_FFFF_FFFF_FFFF

  predicate IsSafe(i: int) {
    -MaxSafeInteger <= i <= MaxSafeInteger
  }

  predicate IsWhitespace(c: char) {
    c in {'\t', '\n', '\U{000B}', '\U{000C}', '\r', ' ', '\U{00A0}', '\U{1680}',
          '\U{2000}', '\U{2001}', '\U{2002}', '\U{2003}', '\U{2004}', '\U{2005}',
          '\U{2006}', '\U{2007}', '\U{2008}', '\U{2009}', '\U{200A}', '\U{2028}',
          '\U{2029}', '\U{202F}', '\U{205F}', '\U{3000}', '\U{FEFF}'}
  }

  predicate IsDecimalDigit(c: char) {
    '0' <= c <= '9'
  }

  /** Radix is 10, or 16 after a `0x`/`0X` prefix. */
  predicate IsRadix(radix: int) {
    radix == 10 || radix == 16
  }

  predicate IsDigit(c: char, radix: int) {
    IsDecimalDigit(c) || (radix == 16 && ('a' <= c <= 'f' || 'A' <= c <= 'F'))
  }

  function DigitValue(c: char, radix: int): (d: nat)
    requires IsRadix(radix) && IsDigit(c, radix)
    ensures d < radix
  {
    if IsDecimalDigit(c) then (c as int) - ('0' as int)
    else if 'a' <= c <= 'f' then (c as int) - ('a' as int) + 10
    else (c as int) - ('A' as int) + 10
  }

  predicate AllDigits(s: string, radix: int) {
    forall i :: 0 <= i < |s| ==> IsDigit(s[i], radix)
  }

  /** Drops the leading whitespace. */
  function TrimStart(s: string): string {
    if |s| > 0 && IsWhitespace(s[0]) then TrimStart(s[1..]) else s
  }

  /** What `TrimStart` keeps is a suffix starting with a non-space, and
      everything it drops is whitespace. */
  lemma {:induction false} TrimStartSpec(s: string)
    ensures var r := TrimStart(s);
            && |r| <= |s| && r == s[|s| - |r|..]
            && (r == [] || !IsWhitespace(r[0]))
            && forall i :: 0 <= i < |s| - |r| ==> IsWhitespace(s[i])
  {
    if |s| > 0 && IsWhitespace(s[0]) {
      TrimStartSpec(s[1..]);
    }
  }

  /** The longest prefix of `s` made of radix digits. */
  function DigitPrefix(s: string, radix: int): (z: string)
    ensures AllDigits(z, radix)
  {
    if |s| > 0 && IsDigit(s[0], radix) then [s[0]] + DigitPrefix(s[1..], radix) else []
  }

  /** `DigitPrefix` is a prefix of its input and stops only at a non-digit
      or at the end: it is the longest digit prefix. */
  lemma {:induction false} DigitPrefixSpec(s: string, radix: int)
    ensures var z := DigitPrefix(s, radix);
            && |z| <= |s| && z == s[..|z|]
            && (|z| < |s| ==> !IsDigit(s[|z|], radix))
  {
    if |s| > 0 && IsDigit(s[0], radix) {
      DigitPrefixSpec(s[1..], radix);
    }
  }

  /** The value of a digit string, most significant digit first. */
  function DigitsValue(z: string, radix: int): nat
    requires IsRadix(radix) && AllDigits(z, radix)
  {
    if z == [] then 0
    else DigitsValue(z[..|z| - 1], radix) * radix + DigitValue(z[|z| - 1], radix)
  }

  /** `parseInt(s)` with no radix: skip leading whitespace, take one optional
      sign, then read the magnitude. */
  function ParseInt(s: string): JsInt {
    var t := TrimStart(s);
    if |t| > 0 && t[0] == '-' then Negate(ParseMagnitude(t[1..]))
    else if |t| > 0 && t[0] == '+' then ParseMagnitude(t[1..])
    else ParseMagnitude(t)
  }

  function Negate(n: JsInt): JsInt {
    if n.NaN? then NaN else Int(-n.value)
  }

  predicate HasHexPrefix(u: string) {
    |u| >= 2 && u[0] == '0' && (u[1] == 'x' || u[1] == 'X')
  }

  /** The unsigned part: radix 16 after a `0x`/`0X` prefix, radix 10
      otherwise; the longest run of digits is read and no digit at all (even
      after a bare `0x`) gives NaN. */
  function ParseMagnitude(u: string): JsInt {
    if HasHexPrefix(u) then DigitsToNumber(DigitPrefix(u[2..], 16), 16)
    else DigitsToNumber(DigitPrefix(u, 10), 10)
  }

  function DigitsToNumber(z: string, radix: int): JsInt
    requires IsRadix(radix) && AllDigits(z, radix)
  {
    if z == [] then NaN else Int(DigitsValue(z, radix))
  }

  /** `parseInt(s) || 0`: the lenient reading used for numeric form fields. */
  function ParseIntOrZero(s: string): int {
    ParseInt(s).OrZero()
  }

  // ---------------------------------------------------------------------
  // The inverse direction: decimal rendering of an integer.

  function DigitChar(d: nat): (c: char)
    requires d < 10
    ensures IsDecimalDigit(c) && DigitValue(c, 10) == d
  {
    ('0' as int + d) as char
  }

  /** The canonical decimal spelling of a natural number, no leading zeros. */
  function DecimalString(n: nat): (s: string)
    ensures |s| > 0 && AllDigits(s, 10)
    ensures forall i :: 0 <= i < |s| ==> IsDecimalDigit(s[i])
    ensures n > 0 ==> s[0] != '0'
  {
    if n < 10 then [DigitChar(n)] else DecimalString(n / 10) + [DigitChar(n % 10)]
  }

  /** How `String(i)` renders an integer below 10^21 in magnitude, the
      bound past which JavaScript switches to exponent notation. */
  function IntString(i: int): string {
    if i < 0 then "-" + DecimalString(-i) else DecimalString(i)
  }

  lemma {:induction false} DecimalStringValue(n: nat)
    ensures DigitsValue(DecimalString(n), 10) == n
  {
    if n >= 10 {
      var s := DecimalString(n);
      DecimalStringValue(n / 10);
      assert s[..|s| - 1] == DecimalString(n / 10);
    }
  }

  lemma {:induction false} DigitPrefixOfDigits(s: string, rest: string, radix: int)
    requires AllDigits(s, radix)
    requires rest == [] || !IsDigit(rest[0], radix)
    ensures DigitPrefix(s + rest, radix) == s
  {
    if s != [] {
      assert (s + rest)[1..] == s[1..] + rest;
      DigitPrefixOfDigits(s[1..], rest, radix);
    } else {
      assert s + rest == rest;
    }
  }

  lemma ParseMagnitudeOfDecimal(n: nat, rest: string)
    requires rest == [] || !IsDecimalDigit(rest[0])
    requires n == 0 && rest != [] ==> rest[0] != 'x' && rest[0] != 'X'
    ensures ParseMagnitude(DecimalString(n) + rest) == Int(n)
  {
    var d := DecimalString(n);
    var u := d + rest;
    assert u[0] == d[0];
    if |d| >= 2 {
      assert u[1] == d[1];
    } else if n != 0 {
      assert d[0] != '0';
    }
    assert !HasHexPrefix(u);
    assert rest == [] || !IsDigit(rest[0], 10);
    DigitPrefixOfDigits(d, rest, 10);
    DecimalStringValue(n);
  }

  /** `parseInt` reads a rendered integer back, and stops at the first
      character that is not a digit: `parseInt("12.5")` and `parseInt("1e3")`
      see only the leading digits. A `0` directly followed by `x` is the one
      exception, since that reads as a hexadecimal prefix. */
  lemma ParseIntOfIntString(i: int, rest: string)
    requires IsSafe(i)
    requires rest == [] || !IsDecimalDigit(rest[0])
    requires i == 0 && rest != [] ==> rest[0] != 'x' && rest[0] != 'X'
    ensures ParseInt(IntString(i) + rest) == Int(i)
  {
    var n: nat := if i < 0 then -i else i;
    var d := DecimalString(n);
    ParseMagnitudeOfDecimal(n, rest);
    if i < 0 {
      assert IntString(i) + rest == "-" + (d + rest);
      ParseIntSigned(d + rest);
    } else {
      assert IntString(i) + rest == d + rest;
      assert (d + rest)[0] == d[0];
      ParseIntUnsigned(d + rest);
    }
  }

  /** Text that starts with a minus sign is the negated magnitude after it. */
  lemma ParseIntSigned(u: string)
    ensures ParseInt("-" + u) == Negate(ParseMagnitude(u))
  {
    var s := "-" + u;
    assert TrimStart(s) == s;
    assert s[1..] == u;
  }

  /** Text that starts with neither white space nor a sign is read as it is. */
  lemma ParseIntUnsigned(s: string)
    requires s != [] && !IsWhitespace(s[0]) && s[0] != '-' && s[0] != '+'
    ensures ParseInt(s) == ParseMagnitude(s)
  {
    assert TrimStart(s) == s;
  }

  /** Round trip: every safe integer's decimal rendering parses back to it. */
  lemma ParseIntRoundTrip(i: int)
    requires IsSafe(i)
    ensures ParseInt(IntString(i)) == Int(i)
  {
    ParseIntOfIntString(i, []);
    assert IntString(i) + [] == IntString(i);
  }

  /** An empty form field parses to NaN, so the lenient reading gives 0. */
  lemma ParseIntEmptyIsNaN()
    ensures ParseInt("") == NaN
    ensures ParseIntOrZero("") == 0
  {
    assert TrimStart("") == "";
    assert DigitPrefix("", 10) == "";
  }

  /** Text that starts with something other than whitespace, a sign or a
      digit has no number in front: `parseInt("abc")` is NaN. */
  lemma ParseIntNoDigit(s: string)
    requires s != [] && !IsWhitespace(s[0]) && !IsDecimalDigit(s[0])
    requires s[0] != '-' && s[0] != '+'
    ensures ParseInt(s) == NaN
  {
    assert TrimStart(s) == s;
    assert !HasHexPrefix(s);
    assert DigitPrefix(s, 10) == [];
  }

  /** A bare hexadecimal prefix has no digit after it, so it is NaN too. */
  lemma ParseIntBareHexPrefix()
    ensures ParseInt("0x") == NaN
  {
    var u := "0x";
    assert !IsWhitespace(u[0]);
    assert TrimStart(u) == u;
    assert HasHexPrefix(u);
    assert u[2..] == "";
    assert DigitPrefix("", 16) == "";
  }

  /** The hexadecimal prefix is honoured: `parseInt("0x1A")` is 26. */
  lemma ParseIntHexPrefix()
    ensures ParseInt("0x1A") == Int(26)
  {
    var u := "0x1A";
    assert !IsWhitespace(u[0]);
    assert TrimStart(u) == u;
    assert HasHexPrefix(u);
    assert u[2..] == "1A";
    assert DigitPrefix("1A", 16) == "1A" by {
      assert "1A"[1..] == "A";
      assert DigitPrefix("A", 16) == "A" by { assert "A"[1..] == ""; }
    }
    assert DigitsValue("1A", 16) == 26 by {
      assert "1A"[..1] == "1";
      assert DigitsValue("1", 16) == 1 by { assert "1"[..0] == ""; }
    }
  }
}

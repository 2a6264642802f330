/**
 * How JavaScript's global `parseInt` (no radix) and `parseFloat` read a
 * string, as sections 19.2.5 and 19.2.4 of ECMA-262 define them. The
 * placement prompts check a typed coordinate with `parseFloat`
 * (src/index.ts:56-63, 75-86) while `updateRobot` stores `parseInt` of the
 * same text (src/index.ts:201-205); this module lets the model state where the
 * two readings part.
 *
 * Both readers skip leading white space, take an optional sign and then read
 * the longest prefix that still forms a number, ignoring whatever follows.
 * Numbers are exact here: the rounding to a 64-bit double is not modelled.
 */
module JavaScriptNumbers {
  import opened Results
  import opened Text

  /** StrWhiteSpaceChar of ECMA-262: the WhiteSpace and LineTerminator code
      points, the Zs category among them. */
  predicate IsWhiteSpace(c: char) {
    || c == '\t' || c == '\U{000B}' || c == '\U{000C}' || c == ' ' || c == '\U{00A0}'
    || c == '\U{FEFF}' || c == '\U{1680}' || ('\U{2000}' <= c <= '\U{200A}')
    || c == '\U{202F}' || c == '\U{205F}' || c == '\U{3000}'
    || c == '\n' || c == '\r' || c == '\U{2028}' || c == '\U{2029}'
  }

  /** `s` without its leading white space. */
  function TrimStart(s: string): (t: string)
    ensures |t| <= |s| && t == s[|s| - |t|..]
    ensures |t| > 0 ==> !IsWhiteSpace(t[0])
    ensures forall i :: 0 <= i < |s| - |t| ==> IsWhiteSpace(s[i])
    decreases |s|
  {
    if |s| > 0 && IsWhiteSpace(s[0]) then TrimStart(s[1..]) else s
  }

  /** The longest prefix of `s` made of decimal digits. */
  function DigitPrefix(s: string): (p: string)
    ensures |p| <= |s| && p == s[..|p|]
    ensures AllDigits(p)
    ensures |p| < |s| ==> !IsDigit(s[|p|])
    decreases |s|
  {
    if |s| > 0 && IsDigit(s[0]) then [s[0]] + DigitPrefix(s[1..]) else ""
  }

  predicate IsHexDigit(c: char) {
    IsDigit(c) || 'a' <= c <= 'f' || 'A' <= c <= 'F'
  }

  function HexDigitValue(c: char): (d: nat)
    requires IsHexDigit(c)
    ensures d < 16
  {
    if IsDigit(c) then DigitValue(c)
    else if 'a' <= c <= 'f' then c as int - 'a' as int + 10
    else c as int - 'A' as int + 10
  }

  /** The longest prefix of `s` made of hexadecimal digits. */
  function HexPrefix(s: string): (p: string)
    ensures |p| <= |s| && p == s[..|p|]
    ensures forall i :: 0 <= i < |p| ==> IsHexDigit(p[i])
    ensures |p| < |s| ==> !IsHexDigit(s[|p|])
    decreases |s|
  {
    if |s| > 0 && IsHexDigit(s[0]) then [s[0]] + HexPrefix(s[1..]) else ""
  }

  /** The number a string of hexadecimal digits denotes, most significant first. */
  function HexValue(s: string): nat
    requires forall i :: 0 <= i < |s| ==> IsHexDigit(s[i])
    decreases |s|
  {
    if |s| == 0 then 0 else HexValue(s[..|s| - 1]) * 16 + HexDigitValue(s[|s| - 1])
  }

  /** The sign a number starts with, and the text after it. */
  function SignOf(t: string): (r: (bool, string))
    ensures r.1 == t || (|t| > 0 && r.1 == t[1..])
  {
    if |t| > 0 && (t[0] == '-' || t[0] == '+') then (t[0] == '-', t[1..]) else (false, t)
  }

  predicate HasHexPrefix(u: string) {
    |u| >= 2 && u[0] == '0' && (u[1] == 'x' || u[1] == 'X')
  }

  /** `parseInt(s)` with no radix; `None` is NaN. A `0x` or `0X` after the sign
      switches to hexadecimal; otherwise the leading decimal digits are read. */
  function ParseInt(s: string): Option<int> {
    var (negative, u) := SignOf(TrimStart(s));
    var magnitude: Option<nat> :=
      if HasHexPrefix(u) then
        var h := HexPrefix(u[2..]);
        if |h| == 0 then None else Some(HexValue(h))
      else
        var d := DigitPrefix(u);
        if |d| == 0 then None else Some(DigitsValue(d));
    match magnitude
    case None => None
    case Some(m) => Some(if negative then -(m as int) else m)
  }

  /** What `parseFloat` returns. */
  datatype Float = NaN | Finite(value: real) | Infinity(negative: bool)

  function Pow10(n: nat): (p: nat)
    ensures p >= 1
  {
    if n == 0 then 1 else 10 * Pow10(n - 1)
  }

  function Scale(e: int): real {
    if e >= 0 then Pow10(e) as real else 1.0 / (Pow10(-e) as real)
  }

  /** The exponent part a text starts with: `e` or `E`, an optional sign and at
      least one digit; 0 when there is none. */
  function Exponent(s: string): int {
    if |s| > 0 && (s[0] == 'e' || s[0] == 'E') then
      var (negative, rest) := SignOf(s[1..]);
      var d := DigitPrefix(rest);
      if |d| == 0 then 0 else if negative then -(DigitsValue(d) as int) else DigitsValue(d)
    else 0
  }

  /** The StrUnsignedDecimalLiteral a text starts with: digits, a `.` and
      digits (one side may be empty, not both), then an optional exponent. */
  function UnsignedDecimal(u: string): Option<real> {
    var whole := DigitPrefix(u);
    var rest := u[|whole|..];
    var point := |rest| > 0 && rest[0] == '.';
    var fraction := if point then DigitPrefix(rest[1..]) else "";
    if |whole| == 0 && |fraction| == 0 then None
    else
      var after := if point then rest[1 + |fraction|..] else rest;
      assert AllDigits(whole + fraction) by {
        assert forall i :: 0 <= i < |whole| ==> (whole + fraction)[i] == whole[i];
        assert forall i :: |whole| <= i < |whole + fraction| ==> (whole + fraction)[i] == fraction[i - |whole|];
      }
      var mantissa := DigitsValue(whole + fraction) as real / Pow10(|fraction|) as real;
      Some(mantissa * Scale(Exponent(after)))
  }

  predicate StartsWithInfinity(u: string) {
    |u| >= 8 && u[..8] == "Infinity"
  }

  /** `parseFloat(s)`. */
  function ParseFloat(s: string): Float {
    var (negative, u) := SignOf(TrimStart(s));
    if StartsWithInfinity(u) then Infinity(negative)
    else
      match UnsignedDecimal(u)
      case None => NaN
      case Some(x) => Finite(if negative then -x else x)
  }

  lemma {:induction false} DigitPrefixOfDigits(s: string)
    requires AllDigits(s)
    ensures DigitPrefix(s) == s
    decreases |s|
  {
    if |s| > 0 {
      DigitPrefixOfDigits(s[1..]);
      assert [s[0]] + s[1..] == s;
    }
  }

  /** A run of digits is read whole by `parseFloat`: no fraction, no exponent. */
  lemma UnsignedDecimalOfDigits(u: string)
    requires |u| > 0 && AllDigits(u)
    ensures UnsignedDecimal(u) == Some(DigitsValue(u) as real)
  {
    DigitPrefixOfDigits(u);
    assert u[|u|..] == "";
    assert u + "" == u;
    assert Exponent("") == 0;
  }

  /** On an unsigned canonical decimal both readers give its value. */
  lemma CanonicalDigitsReadAlike(u: string)
    requires IsCanonicalNat(u)
    ensures !HasHexPrefix(u) && !StartsWithInfinity(u)
    ensures DigitPrefix(u) == u
    ensures UnsignedDecimal(u) == Some(DigitsValue(u) as real)
  {
    DigitPrefixOfDigits(u);
    UnsignedDecimalOfDigits(u);
  }

  /** A text starting with `0x` is read by `parseInt` as the hexadecimal
      digits that follow, or NaN when none follow. */
  lemma HexPrefixedReading(text: string)
    requires |text| >= 2 && text[..2] == "0x"
    ensures var h := HexPrefix(text[2..]);
      ParseInt(text) == if |h| == 0 then None else Some(HexValue(h))
  {
    assert text[0] == '0' && text[1] == 'x';
    assert TrimStart(text) == text;
    assert SignOf(text) == (false, text);
    assert HasHexPrefix(text);
  }

  lemma OneHexDigit(c: char)
    requires IsHexDigit(c)
    ensures HexPrefix([c]) == [c]
    ensures HexValue([c]) == HexDigitValue(c)
  {
    assert [c][1..] == "" && [c][..0] == "";
  }

  /** The sign and the digits of a canonical decimal spelling, as both
      readers see them. */
  lemma CanonicalSign(s: string)
    requires Text.ParseInt(s).Some?
    ensures TrimStart(s) == s
    ensures var (negative, u) := SignOf(s);
      && IsCanonicalNat(u)
      && Text.ParseInt(s).value == if negative then -(DigitsValue(u) as int) else DigitsValue(u)
  {
    assert !IsWhiteSpace(s[0]);
  }

  /** On the canonical decimal spelling of an integer, `parseInt` and
      `parseFloat` both give that integer: the two readings part only on other
      spellings. */
  lemma CanonicalReadsAlike(s: string)
    requires Text.ParseInt(s).Some?
    ensures ParseInt(s) == Text.ParseInt(s)
    ensures ParseFloat(s) == Finite(Text.ParseInt(s).value as real)
  {
    CanonicalSign(s);
    var (negative, u) := SignOf(s);
    CanonicalDigitsReadAlike(u);
  }
}

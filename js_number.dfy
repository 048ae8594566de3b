/**
 * The two JavaScript number built-ins the core relies on: the global `parseInt`
 * called without a radix (ECMAScript 2024, section 19.2.5), and `Number.prototype.toString`
 * on an integral value (section 6.1.6.1.20, Number::toString, radix 10).
 * Only integral values are modelled; a NaN result is `None`, and -0 is 0 because the
 * core only ever compares the result with `===`, for which -0 and +0 are equal.
 */
module JsNumber {
  import opened Wrappers

  /** WhiteSpace and LineTerminator code points that `parseInt` trims from the front:
      TAB, VT, FF, ZWNBSP, the Zs category (U+0020, U+00A0, U+1680, U+2000-U+200A,
      U+202F, U+205F, U+3000) and LF, CR, LS, PS. */
  predicate IsStrWhiteSpace(c: char)
  {
    || c == '\t' || c == '\U{B}' || c == '\U{C}' || c == '\U{FEFF}'
    || c == ' ' || c == '\U{A0}' || c == '\U{1680}'
    || ('\U{2000}' <= c <= '\U{200A}') || c == '\U{202F}' || c == '\U{205F}' || c == '\U{3000}'
    || c == '\n' || c == '\r' || c == '\U{2028}' || c == '\U{2029}'
  }

  /** TrimString(s, start): drops leading white space and nothing else. */
  function TrimStart(s: string): (r: string)
    ensures |r| <= |s| && r == s[|s| - |r|..]
    ensures r == [] || !IsStrWhiteSpace(r[0])
  {
    if s != [] && IsStrWhiteSpace(s[0]) then TrimStart(s[1..]) else s
  }

  /** The value of `c` as a digit in base `radix` (10 or 16), or None if it is not one. */
  function DigitValue(c: char, radix: nat): (r: Option<nat>)
    requires radix == 10 || radix == 16
    ensures r.Some? ==> r.value < radix
  {
    if '0' <= c <= '9' then Some(c as nat - '0' as nat)
    else if radix == 16 && 'a' <= c <= 'f' then Some(c as nat - 'a' as nat + 10)
    else if radix == 16 && 'A' <= c <= 'F' then Some(c as nat - 'A' as nat + 10)
    else None
  }

  predicate IsDigitIn(c: char, radix: nat)
    requires radix == 10 || radix == 16
  {
    DigitValue(c, radix).Some?
  }

  /** Length of the longest prefix of `s` made of base-`radix` digits. */
  function DigitRun(s: string, radix: nat): (n: nat)
    requires radix == 10 || radix == 16
    ensures n <= |s|
    ensures forall i :: 0 <= i < n ==> IsDigitIn(s[i], radix)
    ensures n == |s| || !IsDigitIn(s[n], radix)
  {
    if s != [] && IsDigitIn(s[0], radix) then 1 + DigitRun(s[1..], radix) else 0
  }

  /** The mathematical value of a string of base-`radix` digits, most significant first. */
  function ValueOf(digits: string, radix: nat): nat
    requires radix == 10 || radix == 16
    requires forall i :: 0 <= i < |digits| ==> IsDigitIn(digits[i], radix)
  {
    if digits == [] then 0
    else
      var last := digits[|digits| - 1];
      assert IsDigitIn(last, radix);
      ValueOf(digits[..|digits| - 1], radix) * radix + DigitValue(last, radix).value
  }

  /** The longest run of base-`radix` digits at the front of `body`, as a number;
      None (NaN) when there is no digit at all. */
  function ParseDigits(body: string, radix: nat): (r: Option<nat>)
    requires radix == 10 || radix == 16
    ensures r.None? <==> body == [] || !IsDigitIn(body[0], radix)
  {
    var n := DigitRun(body, radix);
    if n == 0 then None else Some(ValueOf(body[..n], radix))
  }

  /** The unsigned part: a "0x" or "0X" prefix selects base 16, otherwise base 10. */
  function ParseMagnitude(u: string): Option<nat>
  {
    if |u| >= 2 && u[0] == '0' && (u[1] == 'x' || u[1] == 'X') then ParseDigits(u[2..], 16)
    else ParseDigits(u, 10)
  }

  /** The part of `parseInt` after the white space: one optional sign, then the
      magnitude; None (NaN) when the magnitude is missing. */
  function ParseSigned(t: string): Option<int>
  {
    var negative := t != [] && t[0] == '-';
    var u := if t != [] && (t[0] == '-' || t[0] == '+') then t[1..] else t;
    var m := ParseMagnitude(u);
    if m.None? then None
    else Some(if negative then -(m.value as int) else m.value)
  }

  /** `parseInt(s)` with no radix argument: leading white space is skipped, then one sign
      and the magnitude are read; a string with no digit where one is needed is NaN. */
  function ParseInt(s: string): (r: Option<int>)
    ensures s == [] ==> r == None
  {
    ParseSigned(TrimStart(s))
  }

  function DigitChar(d: nat): (c: char)
    requires d < 10
    ensures IsDigitIn(c, 10) && DigitValue(c, 10).value == d
  {
    ('0' as nat + d) as char
  }

  /** The decimal digits of `n`, most significant first, without leading zeros. */
  function Digits(n: nat): (s: string)
    ensures |s| >= 1
    ensures forall i :: 0 <= i < |s| ==> IsDigitIn(s[i], 10)
    ensures n > 0 ==> s[0] != '0'
    ensures ValueOf(s, 10) == n
  {
    if n < 10 then [DigitChar(n)]
    else
      var s := Digits(n / 10) + [DigitChar(n % 10)];
      assert s[..|s| - 1] == Digits(n / 10);
      s
  }

  /** `Number.MAX_SAFE_INTEGER`, 2^53 - 1. */
  const MaxSafeInteger := 0x1F_FFFF_FFFF_FFFF

  /** An integral JavaScript number in the safe range, where no two integers share a number. */
  type SafeInteger = n: int | -MaxSafeInteger <= n <= MaxSafeInteger

  /** The integers a JavaScript number holds exactly, |n| <= 2^53. They all lie below 10^21,
      where `toString` would switch to exponent form. */
  predicate IsExactInteger(n: int)
  {
    -MaxSafeInteger - 1 <= n <= MaxSafeInteger + 1
  }

  /** `String(n)` / `n.toString()` for an integral number `n`: optional minus sign, then
      the decimal digits without leading zeros. */
  function ToDecimal(n: int): (s: string)
    requires IsExactInteger(n)
    ensures |s| >= 1
    ensures s[0] == '-' <==> n < 0
    ensures forall i :: (if n < 0 then 1 else 0) <= i < |s| ==> '0' <= s[i] <= '9'
    ensures |s| >= (if n < 0 then 2 else 1) && (s[if n < 0 then 1 else 0] == '0' <==> n == 0)
  {
    if n < 0 then "-" + Digits(-n) else Digits(n)
  }

  /** Every digit string is read back by `parseInt` as its own value. */
  lemma {:induction false} DigitRunOfDigits(s: string)
    requires forall i :: 0 <= i < |s| ==> IsDigitIn(s[i], 10)
    ensures DigitRun(s, 10) == |s|
  {
    if s != [] {
      DigitRunOfDigits(s[1..]);
    }
  }

  /** A non-empty run of decimal digits is read back as its value. */
  lemma ParseMagnitudeOfDigits(d: string)
    requires |d| >= 1 && forall i :: 0 <= i < |d| ==> IsDigitIn(d[i], 10)
    ensures ParseMagnitude(d) == Some(ValueOf(d, 10))
  {
    if |d| >= 2 {
      assert IsDigitIn(d[1], 10);
    }
    DigitRunOfDigits(d);
    assert d[..|d|] == d;
  }

  /** A string whose first character is not white space is its own trimmed form. */
  lemma TrimStartNoSpace(s: string)
    requires s != [] && !IsStrWhiteSpace(s[0])
    ensures TrimStart(s) == s
  {
  }

  /** A leading minus sign negates the magnitude that follows it. */
  lemma ParseSignedMinus(t: string)
    requires t != [] && t[0] == '-' && ParseMagnitude(t[1..]).Some?
    ensures ParseSigned(t) == Some(-(ParseMagnitude(t[1..]).value as int))
  {
  }

  /** A magnitude that starts with a digit is read back by `parseInt` as it stands... */
  lemma ParseIntOfMagnitude(d: string)
    requires d != [] && '0' <= d[0] <= '9' && ParseMagnitude(d).Some?
    ensures ParseInt(d) == Some(ParseMagnitude(d).value as int)
  {
    TrimStartNoSpace(d);
  }

  /** ... and, after a minus sign, as its negation. */
  lemma ParseIntOfNegatedMagnitude(d: string)
    requires ParseMagnitude(d).Some?
    ensures ParseInt("-" + d) == Some(-(ParseMagnitude(d).value as int))
  {
    var s := "-" + d;
    assert s[0] == '-' && s[1..] == d;
    TrimStartNoSpace(s);
    ParseSignedMinus(s);
  }

  /** Round trip: `parseInt(n.toString()) === n` for every integer `n`. */
  lemma ParseIntToDecimal(n: int)
    requires IsExactInteger(n)
    ensures ParseInt(ToDecimal(n)) == Some(n)
  {
    var m: nat := if n < 0 then -n else n;
    var d := Digits(m);
    ParseMagnitudeOfDigits(d);
    assert IsDigitIn(d[0], 10);
    if n < 0 {
      ParseIntOfNegatedMagnitude(d);
    } else {
      ParseIntOfMagnitude(d);
    }
  }

  /** A string with no decimal digit has no magnitude: it cannot start with "0x". */
  lemma NoDigitNoMagnitude(u: string)
    requires forall i :: 0 <= i < |u| ==> !('0' <= u[i] <= '9')
    ensures ParseMagnitude(u) == None
  {
    if u != [] {
      assert !('0' <= u[0] <= '9');
    }
  }

  /** Without a decimal digit after the white space there is no number, signed or not. */
  lemma ParseSignedNeedsDigit(t: string)
    requires forall i :: 0 <= i < |t| ==> !('0' <= t[i] <= '9')
    ensures ParseSigned(t) == None
  {
    if t != [] && (t[0] == '-' || t[0] == '+') {
      NoDigitNoMagnitude(t[1..]);
    } else {
      NoDigitNoMagnitude(t);
    }
  }

  /** A string with no decimal digit is NaN, whatever white space or sign it holds; in
      particular the empty answer and a lone sign are never numbers. */
  lemma ParseIntNeedsDigit(s: string)
    requires forall i :: 0 <= i < |s| ==> !('0' <= s[i] <= '9')
    ensures ParseInt(s) == None
  {
    var t := TrimStart(s);
    forall i | 0 <= i < |t|
      ensures !('0' <= t[i] <= '9')
    {
      assert t[i] == s[|s| - |t| + i];
    }
    ParseSignedNeedsDigit(t);
  }

  /** Contrapositive of `ParseIntNeedsDigit`: whatever `parseInt` reads as a number holds a
      decimal digit. */
  lemma ParseIntFindsDigit(s: string)
    ensures ParseInt(s).Some? ==> exists i :: 0 <= i < |s| && '0' <= s[i] <= '9'
  {
    if !exists i :: 0 <= i < |s| && '0' <= s[i] <= '9' {
      ParseIntNeedsDigit(s);
    }
  }

  /** The round trip stated for any string: the decimal form of an exact integer is read
      back as that integer. */
  lemma ParseIntOfOwnDecimal(s: string, n: int)
    ensures IsExactInteger(n) && s == ToDecimal(n) ==> ParseInt(s) == Some(n)
  {
    if IsExactInteger(n) && s == ToDecimal(n) {
      ParseIntToDecimal(n);
    }
  }
}

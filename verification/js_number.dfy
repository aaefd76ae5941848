/**
 * The few JavaScript number operations the service uses: `Math.min`,
 * `Math.max` and `>` with NaN propagation, `String(n)` of an integer, and
 * the global `parseInt(s)` without a radix argument (section 19.2.5 of
 * ECMA-262).
 *
 * Finite numbers are unbounded integers. JavaScript would round very long
 * digit strings to the nearest double; that rounding is monotone and the
 * bounds the service compares against (200, 1260, 2400, 5 MiB) are exact
 * doubles, so every comparison and clamp below gives the same answer.
 */
module JsNumber {

  /** A JavaScript number restricted to integers, plus NaN. */
  datatype Num = Finite(value: int) | NaN

  /** `Number.MAX_SAFE_INTEGER`. */
  const MaxSafeInteger: int := 0x1F_FFFF_FFFF_FFFF

  /** Integers a JavaScript number holds exactly and prints without an exponent. */
  type SafeInteger = n: int | -MaxSafeInteger <= n <= MaxSafeInteger

  /** `Math.max(a, b)`. */
  function Max(a: Num, b: Num): (r: Num)
    ensures r.NaN? <==> a.NaN? || b.NaN?
    ensures r.Finite? ==> r.value >= a.value && r.value >= b.value
    ensures r.Finite? ==> r == a || r == b
  {
    if a.NaN? || b.NaN? then NaN
    else if a.value >= b.value then a else b
  }

  /** `Math.min(a, b)`. */
  function Min(a: Num, b: Num): (r: Num)
    ensures r.NaN? <==> a.NaN? || b.NaN?
    ensures r.Finite? ==> r.value <= a.value && r.value <= b.value
    ensures r.Finite? ==> r == a || r == b
  {
    if a.NaN? || b.NaN? then NaN
    else if a.value <= b.value then a else b
  }

  /** `a > b`; every comparison with NaN is false. */
  predicate Greater(a: Num, b: Num) {
    a.Finite? && b.Finite? && a.value > b.value
  }

  // ---------------------------------------------------------------------
  // Digits

  predicate IsDecimalDigit(c: char) {
    '0' <= c <= '9'
  }

  predicate IsRadixDigit(c: char, radix: nat)
    requires radix == 10 || radix == 16
  {
    IsDecimalDigit(c) || (radix == 16 && ('a' <= c <= 'f' || 'A' <= c <= 'F'))
  }

  /** The numeric value of a digit character of the given radix. */
  function DigitValue(c: char, radix: nat): (d: nat)
    requires radix == 10 || radix == 16
    requires IsRadixDigit(c, radix)
    ensures d < radix
  {
    if IsDecimalDigit(c) then c as int - '0' as int
    else if 'a' <= c <= 'f' then c as int - 'a' as int + 10
    else c as int - 'A' as int + 10
  }

  /** The character of a decimal digit value. */
  function DigitChar(d: nat): (c: char)
    requires d < 10
    ensures IsDecimalDigit(c) && DigitValue(c, 10) == d
  {
    ('0' as int + d) as char
  }

  /** The value of a string of digits, most significant digit first. */
  function DigitsValue(z: string, radix: nat): nat
    requires radix == 10 || radix == 16
    requires forall i | 0 <= i < |z| :: IsRadixDigit(z[i], radix)
  {
    if |z| == 0 then 0
    else DigitsValue(z[..|z| - 1], radix) * radix + DigitValue(z[|z| - 1], radix)
  }

  /** The length of the longest prefix of `s` made of digits of `radix`. */
  function DigitPrefixLength(s: string, radix: nat): (n: nat)
    requires radix == 10 || radix == 16
    ensures n <= |s|
    ensures forall i | 0 <= i < n :: IsRadixDigit(s[i], radix)
    ensures n < |s| ==> !IsRadixDigit(s[n], radix)
  {
    if |s| == 0 || !IsRadixDigit(s[0], radix) then 0
    else 1 + DigitPrefixLength(s[1..], radix)
  }

  // ---------------------------------------------------------------------
  // String(n)

  /** The decimal digits of a natural number, without leading zeros. */
  function DecimalDigits(n: nat): (s: string)
    ensures |s| >= 1
    ensures forall i | 0 <= i < |s| :: IsDecimalDigit(s[i])
    ensures s[0] == '0' ==> n == 0
    ensures n == 0 ==> s == "0"
  {
    if n < 10 then [DigitChar(n)] else DecimalDigits(n / 10) + [DigitChar(n % 10)]
  }

  /** `String(n)` for a safe integer: an optional minus sign, then the digits. */
  function NumberToString(n: SafeInteger): (s: string)
    ensures |s| >= 1
    ensures n < 0 <==> s[0] == '-'
    ensures n >= 0 ==> forall i | 0 <= i < |s| :: IsDecimalDigit(s[i])
  {
    if n < 0 then "-" + DecimalDigits(-n) else DecimalDigits(n)
  }

  // ---------------------------------------------------------------------
  // parseInt(s)

  /**
   * StrWhiteSpaceChar of ECMA-262: the WhiteSpace code points (tab, vertical
   * tab, form feed, ZWNBSP and the Zs category) and the LineTerminator ones.
   */
  predicate IsStrWhiteSpace(c: char) {
    || '\t' <= c <= '\r'                  // tab, line feed, vertical tab, form feed, carriage return
    || c == ' ' || c == '\U{A0}' || c == '\U{1680}'
    || '\U{2000}' <= c <= '\U{200A}'      // the Zs spaces from en quad to hair space
    || c == '\U{2028}' || c == '\U{2029}'  // line and paragraph separators
    || c == '\U{202F}' || c == '\U{205F}' || c == '\U{3000}' || c == '\U{FEFF}'
  }

  /** `s` without its leading white space. */
  function TrimStart(s: string): (r: string)
    ensures |r| <= |s| && r == s[|s| - |r|..]
    ensures |r| > 0 ==> !IsStrWhiteSpace(r[0])
    ensures forall i | 0 <= i < |s| - |r| :: IsStrWhiteSpace(s[i])
  {
    if |s| > 0 && IsStrWhiteSpace(s[0]) then
      var r := TrimStart(s[1..]);
      assert forall i | 1 <= i < |s| - |r| :: s[i] == s[1..][i - 1];
      r
    else s
  }

  /** `t` without one leading sign character. */
  function AfterSign(t: string): (u: string)
    ensures |u| <= |t| && u == t[|t| - |u|..]
  {
    if |t| > 0 && (t[0] == '-' || t[0] == '+') then t[1..] else t
  }

  /** Whether `u` starts with the "0x" or "0X" radix prefix. */
  predicate HasHexPrefix(u: string) {
    |u| >= 2 && u[0] == '0' && (u[1] == 'x' || u[1] == 'X')
  }

  /** The radix `parseInt` uses for the unsigned text `u`. */
  function RadixOf(u: string): (radix: nat)
    ensures radix == 10 || radix == 16
  {
    if HasHexPrefix(u) then 16 else 10
  }

  /** What remains of `s` once white space, sign and radix prefix are skipped. */
  function DigitsPart(s: string): (body: string)
    ensures |body| <= |s| && body == s[|s| - |body|..]
  {
    var u := AfterSign(TrimStart(s));
    if HasHexPrefix(u) then u[2..] else u
  }

  /**
   * The global `parseInt(s)`: skip leading white space, read an optional
   * sign, then a "0x"/"0X" prefix selects radix 16, otherwise radix 10; the
   * longest digit prefix is the value, and no digit at all gives NaN.
   */
  function ParseInt(s: string): Num {
    var t := TrimStart(s);
    ReadDigits(IsNegative(t), DigitsPart(s), RadixOf(AfterSign(t)))
  }

  /** The signed value of the longest digit prefix of `body`, or NaN when it has none. */
  function ReadDigits(negative: bool, body: string, radix: nat): Num
    requires radix == 10 || radix == 16
  {
    var n := DigitPrefixLength(body, radix);
    if n == 0 then NaN
    else
      var v: int := DigitsValue(body[..n], radix);
      Finite(if negative then -v else v)
  }

  /** Whether the trimmed text starts with a minus sign. */
  predicate IsNegative(t: string) {
    |t| > 0 && t[0] == '-'
  }

  /**
   * `parseInt` is NaN unless the text holds at least one decimal digit: in
   * radix 10 the first digit read is one, and in radix 16 the "0" of the
   * "0x" prefix is one.
   */
  lemma {:induction false} ParseIntNeedsADigit(s: string)
    ensures ParseInt(s).Finite? ==> exists i | 0 <= i < |s| :: IsDecimalDigit(s[i])
  {
    var t := TrimStart(s);
    var u := AfterSign(t);
    var body := DigitsPart(s);
    if ParseInt(s).Finite? {
      if HasHexPrefix(u) {
        assert u[0] == t[|t| - |u|] == s[|s| - |u|];
        assert IsDecimalDigit(s[|s| - |u|]);
      } else {
        assert DigitPrefixLength(body, 10) > 0;
        assert IsDecimalDigit(s[|s| - |body|]);
      }
    }
  }

  /** Text that starts with a non-zero decimal digit parses to a positive number. */
  lemma {:induction false} ParseIntLeadingDigit(s: string)
    requires |s| > 0 && '1' <= s[0] <= '9'
    ensures ParseInt(s).Finite? && ParseInt(s).value > 0
  {
    assert !IsStrWhiteSpace(s[0]);
    assert TrimStart(s) == s;
    assert AfterSign(s) == s;
    assert !HasHexPrefix(s);
    assert RadixOf(s) == 10;
    assert DigitsPart(s) == s;
    assert !IsNegative(s);
    var n := DigitPrefixLength(s, 10);
    assert n > 0;
    DigitsValuePositive(s[..n], 10);
    assert ParseInt(s) == Finite(DigitsValue(s[..n], 10));
  }

  /** A digit string with a non-zero leading digit has a positive value. */
  lemma {:induction false} DigitsValuePositive(z: string, radix: nat)
    requires radix == 10 || radix == 16
    requires forall i | 0 <= i < |z| :: IsRadixDigit(z[i], radix)
    requires |z| > 0 && '1' <= z[0] <= '9'
    ensures DigitsValue(z, radix) > 0
  {
    if |z| > 1 {
      DigitsValuePositive(z[..|z| - 1], radix);
    }
  }

  // ---------------------------------------------------------------------
  // Round trip

  /** Reading back the decimal digits of `n` gives `n`. */
  lemma {:induction false} DecimalDigitsValue(n: nat)
    ensures DigitsValue(DecimalDigits(n), 10) == n
  {
    var s := DecimalDigits(n);
    if n >= 10 {
      DecimalDigitsValue(n / 10);
      assert s[..|s| - 1] == DecimalDigits(n / 10);
    }
  }

  /** `parseInt(String(n)) == n` for every safe integer. */
  lemma {:induction false} ParseIntOfNumberToString(n: SafeInteger)
    ensures ParseInt(NumberToString(n)) == Finite(n)
  {
    var m: nat := if n < 0 then -n else n;
    ParseIntOfDecimal(n < 0, DecimalDigits(m));
    DecimalDigitsValue(m);
  }

  /** `parseInt` of decimal digits, with or without a minus sign, is their value with that sign. */
  lemma {:induction false} ParseIntOfDecimal(negative: bool, d: string)
    requires |d| > 0 && forall i | 0 <= i < |d| :: IsDecimalDigit(d[i])
    ensures var v: int := DigitsValue(d, 10);
      ParseInt(if negative then "-" + d else d) == Finite(if negative then -v else v)
  {
    SignedDecimalParts(negative, d);
    ReadAllDigits(negative, d);
  }

  /** How `parseInt` splits decimal digits after an optional minus sign. */
  lemma SignedDecimalParts(negative: bool, d: string)
    requires |d| > 0 && forall i | 0 <= i < |d| :: IsDecimalDigit(d[i])
    ensures var s := if negative then "-" + d else d;
      && TrimStart(s) == s && IsNegative(s) == negative
      && RadixOf(AfterSign(s)) == 10 && DigitsPart(s) == d
  {
    var s := if negative then "-" + d else d;
    assert !IsStrWhiteSpace(s[0]);
    assert AfterSign(s) == d;
    assert !HasHexPrefix(d);
  }

  /** A body made only of decimal digits is read whole. */
  lemma ReadAllDigits(negative: bool, d: string)
    requires |d| > 0 && forall i | 0 <= i < |d| :: IsDecimalDigit(d[i])
    ensures var v: int := DigitsValue(d, 10);
      ReadDigits(negative, d, 10) == Finite(if negative then -v else v)
  {
    DigitPrefixOfDigits(d);
    assert d[..|d|] == d;
  }

  /** A string made only of decimal digits is its own digit prefix. */
  lemma {:induction false} DigitPrefixOfDigits(d: string)
    requires forall i | 0 <= i < |d| :: IsDecimalDigit(d[i])
    ensures DigitPrefixLength(d, 10) == |d|
  {
    if |d| > 0 {
      DigitPrefixOfDigits(d[1..]);
    }
  }
}

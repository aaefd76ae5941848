/**
 * The JavaScript value conventions the service's TypeScript relies on:
 * optional values (`T | undefined`), truthiness of strings and numbers, the
 * `a || fallback` default idiom, the UTF-16 `.length` of a string, and the
 * `charAt(0).toUpperCase()` used for avatar initials.
 *
 * Strings are sequences of Unicode scalar values here, while JavaScript
 * strings are sequences of UTF-16 code units; `Utf16Length` bridges the two.
 */
module Js {

  /** A value that may be `undefined`. */
  datatype Option<+T> = None | Some(value: T)

  /** JavaScript truthiness of an optional string: present and non-empty. */
  predicate Truthy(s: Option<string>) {
    s.Some? && |s.value| > 0
  }

  /** JavaScript truthiness of an optional integer: present and non-zero. */
  predicate TruthyInt(n: Option<int>) {
    n.Some? && n.value != 0
  }

  /** `s || fallback` for an optional string. */
  function Or(s: Option<string>, fallback: string): (r: string)
    ensures Truthy(s) ==> r == s.value
    ensures !Truthy(s) ==> r == fallback
    ensures |fallback| > 0 ==> |r| > 0
  {
    if Truthy(s) then s.value else fallback
  }

  /** `n || fallback` for an optional integer (0 and `undefined` are falsy). */
  function OrInt(n: Option<int>, fallback: int): (r: int)
    ensures TruthyInt(n) ==> r == n.value
    ensures !TruthyInt(n) ==> r == fallback
    ensures fallback != 0 ==> r != 0
  {
    if TruthyInt(n) then n.value else fallback
  }

  /** The optional string with falsy values (`undefined` and `""`) dropped. */
  function KeepTruthy(s: Option<string>): (r: Option<string>)
    ensures r.Some? <==> Truthy(s)
    ensures r.Some? ==> r == s
  {
    if Truthy(s) then s else None
  }

  /** Number of UTF-16 code units that encode one scalar value. */
  function CodeUnits(c: char): (n: nat)
    ensures 1 <= n <= 2
  {
    if c as int >= 0x1_0000 then 2 else 1
  }

  /** The JavaScript `.length` of a string: its number of UTF-16 code units. */
  function Utf16Length(s: string): (n: nat)
    ensures |s| <= n <= 2 * |s|
    ensures (forall i | 0 <= i < |s| :: s[i] as int < 0x1_0000) ==> n == |s|
  {
    if |s| == 0 then 0 else CodeUnits(s[0]) + Utf16Length(s[1..])
  }

  /** `s.charAt(0)`: the first character, or "" for the empty string. */
  function FirstChar(s: string): (r: string)
    ensures |s| == 0 <==> |r| == 0
    ensures |s| > 0 ==> r == s[..1]
  {
    if |s| == 0 then "" else [s[0]]
  }

  /** Upper-casing of one character, for the ASCII letters. */
  function UpperChar(c: char): (u: char)
    ensures 'a' <= c <= 'z' ==> 'A' <= u <= 'Z' && u as int == c as int - 32
    ensures !('a' <= c <= 'z') ==> u == c
  {
    if 'a' <= c <= 'z' then (c as int - 32) as char else c
  }

  /** `s.toUpperCase()`, for the ASCII letters; every other character is kept. */
  function ToUpperCase(s: string): (r: string)
    ensures |r| == |s|
    ensures forall i | 0 <= i < |s| :: r[i] == UpperChar(s[i])
  {
    if |s| == 0 then "" else [UpperChar(s[0])] + ToUpperCase(s[1..])
  }
}

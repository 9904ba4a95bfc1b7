/** The parts of JavaScript's number and string semantics the components rely on:
    decimal rendering in template literals (with a parser that reads it back),
    `Math.floor`, `Math.round`, the `%` operator, `padStart` and `split`. */
module Js {
  import opened Wrappers

  function DigitChar(d: nat): (c: char)
    requires d < 10
  {
    (d + '0' as int) as char
  }

  predicate IsDigit(c: char) {
    '0' <= c <= '9'
  }

  function DigitValue(c: char): (d: nat)
    requires IsDigit(c)
  {
    (c - '0') as nat
  }

  /** `${n}` for a non-negative integer. */
  function NatToString(n: nat): (s: string)
    decreases n
  {
    if n < 10 then [DigitChar(n)] else NatToString(n / 10) + [DigitChar(n % 10)]
  }

  /** `${i}` for any integer: a minus sign before the magnitude. */
  function IntToString(i: int): (s: string) {
    if i < 0 then "-" + NatToString(-i) else NatToString(i)
  }

  predicate AllDigits(s: string) {
    forall k :: 0 <= k < |s| ==> IsDigit(s[k])
  }

  /** The value of a string of decimal digits, most significant first. */
  function DigitsValue(s: string): (n: nat)
    requires AllDigits(s)
  {
    if s == [] then 0 else DigitsValue(s[..|s| - 1]) * 10 + DigitValue(s[|s| - 1])
  }

  /** Reads a non-empty run of decimal digits. */
  function ParseNat(s: string): (r: Option<nat>) {
    if s != [] && AllDigits(s) then Some(DigitsValue(s)) else None
  }

  lemma {:induction false} NatToStringDigits(n: nat)
    ensures NatToString(n) != [] && AllDigits(NatToString(n))
    ensures DigitsValue(NatToString(n)) == n
    decreases n
  {
    if n >= 10 {
      NatToStringDigits(n / 10);
      var s := NatToString(n / 10) + [DigitChar(n % 10)];
      assert s[..|s| - 1] == NatToString(n / 10);
    }
  }

  /** Parsing the decimal rendering of `n` gives `n` back. */
  lemma ParseNatToString(n: nat)
    ensures ParseNat(NatToString(n)) == Some(n)
  {
    NatToStringDigits(n);
  }

  /** The decimal text of a number holds no character that is not a digit, so
      such a character can separate it from what follows. */
  lemma NatToStringOmits(n: nat, c: char)
    requires !IsDigit(c)
    ensures c !in NatToString(n)
  {
    NatToStringDigits(n);
  }

  /** `Math.floor(x / 60)` — the largest integer not above `x / 60`. */
  function FloorDiv60(x: real): (m: int)
    ensures (m as real) * 60.0 <= x < (m as real) * 60.0 + 60.0
  {
    (x / 60.0).Floor
  }

  /** JavaScript's `x % 60` on numbers: the remainder of division truncated toward
      zero, so it takes the sign of the dividend. */
  function JsRem60(x: real): (r: real)
    ensures x >= 0.0 ==> 0.0 <= r < 60.0 && r == x - (FloorDiv60(x) as real) * 60.0
    ensures x <= 0.0 ==> -60.0 < r <= 0.0
  {
    var q := x / 60.0;
    var t := if q >= 0.0 then q.Floor else -((-q).Floor);
    x - (t as real) * 60.0
  }

  /** JavaScript's `x % 60` on integers: truncated toward zero, sign of the dividend. */
  function JsRemInt60(x: int): (r: int)
    ensures x >= 0 ==> 0 <= r < 60 && (x - r) % 60 == 0
    ensures x < 0 ==> -60 < r <= 0 && (x - r) % 60 == 0
  {
    if x >= 0 then x % 60 else -((-x) % 60)
  }

  /** `Math.round(x)`: the nearest integer, with halves rounded up (toward +infinity). */
  function JsRound(x: real): (r: int)
    ensures x - 0.5 < r as real <= x + 0.5
  {
    (x + 0.5).Floor
  }

  /** `s.padStart(2, '0')`. */
  function PadStart2(s: string): (r: string)
    ensures |r| == if |s| < 2 then 2 else |s|
    ensures r[|r| - |s|..] == s
    ensures forall k :: 0 <= k < |r| - |s| ==> r[k] == '0'
  {
    if |s| >= 2 then s else seq(2 - |s|, _ => '0') + s
  }

  /** `s.split(c)[0]`: everything before the first `c`, or all of `s` when there is none. */
  function BeforeFirst(s: string, c: char): (r: string)
    ensures r <= s && c !in r
    ensures |r| < |s| ==> s[|r|] == c
    ensures c !in s ==> r == s
  {
    if s == [] then [] else if s[0] == c then [] else [s[0]] + BeforeFirst(s[1..], c)
  }

  /** Splits `s` at its first `c`: the text before it and the text after it. */
  function SplitFirst(s: string, c: char): (r: Option<(string, string)>)
  {
    var a := BeforeFirst(s, c);
    if |a| < |s| then Some((a, s[|a| + 1..])) else None
  }

  /** Splitting `a + [c] + b` at `c`, where `a` holds no `c`, gives back `a` and `b`. */
  lemma {:induction false} SplitFirstJoined(a: string, c: char, b: string)
    requires c !in a
    ensures SplitFirst(a + [c] + b, c) == Some((a, b))
  {
    BeforeFirstJoined(a, c, b);
    var s := a + [c] + b;
    assert s[|a| + 1..] == b;
  }

  lemma {:induction false} BeforeFirstJoined(a: string, c: char, b: string)
    requires c !in a
    ensures BeforeFirst(a + [c] + b, c) == a
  {
    if a != [] {
      BeforeFirstJoined(a[1..], c, b);
      assert (a + [c] + b)[1..] == a[1..] + [c] + b;
    }
  }
}

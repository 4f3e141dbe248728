/** The few JavaScript built-ins whose exact behaviour the dashboard's decisions
    depend on, written out over Dafny's unbounded `int` and exact `real`. */
module JsSemantics {

  /** Truncation toward zero, as used by the `%` operator. */
  function Trunc(x: real): (n: int)
    ensures x >= 0.0 ==> n as real <= x < n as real + 1.0
    ensures x < 0.0 ==> n as real - 1.0 < x <= n as real
  {
    if x >= 0.0 then x.Floor else -((-x).Floor)
  }

  /** `x % 360` on numbers: the remainder takes the sign of the dividend. */
  function Rem360(x: real): (r: real)
    ensures x >= 0.0 ==> 0.0 <= r < 360.0
    ensures x < 0.0 ==> -360.0 < r <= 0.0
  {
    var k := Trunc(x / 360.0);
    x - 360.0 * k as real
  }

  /** `n % m` on integral numbers (a `-0` result reads as `0`). */
  function RemInt(n: int, m: int): (r: int)
    requires m > 0
    ensures n >= 0 ==> 0 <= r < m
    ensures n < 0 ==> -m < r <= 0
  {
    if n >= 0 then n % m else -((-n) % m)
  }

  /** `Math.round`: the nearest integer, halves rounded toward +infinity. */
  function Round(x: real): (n: int)
    ensures x - 0.5 < n as real <= x + 0.5
  {
    (x + 0.5).Floor
  }

  /** `Math.max` on two numbers. */
  function Max(a: real, b: real): (r: real)
    ensures r >= a && r >= b && (r == a || r == b)
  {
    if a >= b then a else b
  }

  function MinInt(a: int, b: int): int {
    if a <= b then a else b
  }

  /** `s.slice(from, to)` for non-negative bounds: both are clamped to the length. */
  function Slice<T>(s: seq<T>, from: nat, to: nat): (r: seq<T>)
    ensures from <= |s| ==> |r| == MinInt(to, |s|) - MinInt(from, MinInt(to, |s|))
    ensures from > |s| ==> r == []
    ensures forall k :: 0 <= k < |r| ==> from + k < |s| && r[k] == s[from + k]
  {
    var hi := MinInt(to, |s|);
    var lo := MinInt(from, hi);
    s[lo..hi]
  }

  /** `s.startsWith(prefix)`. */
  predicate StartsWith(s: string, prefix: string) {
    |prefix| <= |s| && s[..|prefix|] == prefix
  }

  /** `toLowerCase` restricted to ASCII letters. */
  function LowerChar(c: char): char {
    if 'A' <= c <= 'Z' then (c as int + 32) as char else c
  }

  function ToLower(s: string): (r: string)
    ensures |r| == |s|
  {
    seq(|s|, i requires 0 <= i < |s| => LowerChar(s[i]))
  }

  /** JavaScript truthiness of a string: every string but "" is truthy. */
  predicate Truthy(s: string) {
    s != ""
  }
}

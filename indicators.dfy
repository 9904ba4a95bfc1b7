/** Rows of highlighted indicators: the confidence dots of the feedback screen and
    the difficulty stars of the daily challenge both light the indicators whose
    index is below a score. */
module Indicators {

  /** `n` indicators, the `i`-th lit exactly when `i < score`. */
  function Lit(n: nat, score: int): (r: seq<bool>)
    ensures |r| == n
    ensures forall i :: 0 <= i < n ==> (r[i] <==> i < score)
  {
    seq(n, i => i < score)
  }

  function CountLit(s: seq<bool>): (c: nat)
    ensures c <= |s|
  {
    if s == [] then 0 else CountLit(s[..|s| - 1]) + (if s[|s| - 1] then 1 else 0)
  }

  /** `score` clamped into 0..n. */
  function Clamp(score: int, n: nat): (c: nat)
    ensures c <= n
  {
    if score < 0 then 0 else if score > n then n else score
  }

  /** The number of lit indicators is the score clamped into the row, and the lit
      ones form a prefix. */
  lemma {:induction false} CountLitIsClampedScore(n: nat, score: int)
    ensures CountLit(Lit(n, score)) == Clamp(score, n)
    ensures forall i, j :: 0 <= i <= j < n && Lit(n, score)[j] ==> Lit(n, score)[i]
  {
    if n > 0 {
      CountLitIsClampedScore(n - 1, score);
      assert Lit(n, score)[..n - 1] == Lit(n - 1, score);
    }
  }
}

/**
 * Money and the rounding rules of the handlers. Amounts are whole cents (`Cents`), so the
 * source's two-decimal tolerances become cent comparisons: `> 0.01` is `> 1`, `< 0.01` is `== 0`.
 */
module Money {

  type Cents = int

  function Abs(x: int): (r: nat)
    ensures r == x || r == -x
  {
    if x < 0 then -x else x
  }

  function Min(a: int, b: int): (r: int)
    ensures r <= a && r <= b && (r == a || r == b)
  {
    if a <= b then a else b
  }

  /** `Math.round(x)`: the nearest integer, halves rounded up. */
  function RoundHalfUp(x: real): (r: int)
    ensures x - 0.5 < r as real <= x + 0.5
  {
    (x + 0.5).Floor
  }

  /** `Math.round(x * 100) / 100`: x rounded to two decimals. */
  function Round2(x: real): (r: real)
    ensures x - 0.005 < r <= x + 0.005
  {
    RoundHalfUp(x * 100.0) as real / 100.0
  }

  /** `Math.abs(a - b) <= 0.01`: two cent amounts agree within the one-cent tolerance. */
  predicate WithinOneCent(a: Cents, b: Cents) {
    Abs(a - b) <= 1
  }

  lemma RoundHalfUpOfInteger(n: int)
    ensures RoundHalfUp(n as real) == n
  {
  }
}

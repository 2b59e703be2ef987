/** The few `Math` functions the forecasting code calls, on exact reals.

  `Math.round` rounds to the nearest integer and sends halves towards
  positive infinity (`Math.round(2.5) == 3`, `Math.round(-2.5) == -2`), which
  is `floor(x + 1/2)` for every x. `Math.max` and `Math.min` are taken on two
  arguments, the only arity the code uses.
 */
module JsMath {

  /** `Math.round(x)`: the integer nearest to x, halves going up. */
  function Round(x: real): (r: int)
    ensures x - 0.5 < r as real <= x + 0.5
  {
    (x + 0.5).Floor
  }

  /** The rounding interval pins down a single integer, so Round is the
      only function with Round's contract. */
  lemma RoundUnique(x: real, k: int)
    requires x - 0.5 < k as real <= x + 0.5
    ensures k == Round(x)
  {
    var r := Round(x);
    assert -1.0 < k as real - r as real < 1.0;
  }

  /** Rounding never reverses the order of its arguments. */
  lemma RoundMonotone(x: real, y: real)
    requires x <= y
    ensures Round(x) <= Round(y)
  {
  }

  /** An integer rounds to itself. */
  lemma RoundOfInteger(k: int)
    ensures Round(k as real) == k
  {
    RoundUnique(k as real, k);
  }

  /** `Math.max(a, b)` on two numbers. */
  function Max(a: real, b: real): (m: real)
    ensures m >= a && m >= b
    ensures m == a || m == b
  {
    if a >= b then a else b
  }

  /** `Math.min(a, b)` on two numbers. */
  function Min(a: real, b: real): (m: real)
    ensures m <= a && m <= b
    ensures m == a || m == b
  {
    if a <= b then a else b
  }
}

/** Finite sums f(0) + f(1) + ... + f(n-1) over exact reals.

  Every accumulation of the forecasting code (the four regression sums and the
  squared-deviation sum of the confidence score) is an instance of SumOf; the
  lemmas here are the only facts about sums the other modules use.
 */
module Summation {

  /** f(0) + f(1) + ... + f(n-1), accumulated left to right. */
  function SumOf(n: nat, f: nat -> real): real {
    if n == 0 then 0.0 else SumOf(n - 1, f) + f(n - 1)
  }

  /** x - a*y - b*z, the combination the regression sums are taken in. */
  function Combine(x: real, y: real, z: real, a: real, b: real): real {
    x - a * y - b * z
  }

  /** The pointwise combination i |-> f(i) - a*g(i) - b*h(i). */
  function Combination(f: nat -> real, g: nat -> real, h: nat -> real, a: real, b: real): nat -> real {
    (i: nat) => Combine(f(i), g(i), h(i), a, b)
  }

  /** Summing a pointwise combination term by term gives the same
      combination of the three sums. */
  lemma {:induction false} SumOfCombination(n: nat, f: nat -> real, g: nat -> real, h: nat -> real,
                                            a: real, b: real)
    ensures SumOf(n, Combination(f, g, h, a, b)) == Combine(SumOf(n, f), SumOf(n, g), SumOf(n, h), a, b)
  {
    if n > 0 {
      SumOfCombination(n - 1, f, g, h, a, b);
      var m := n - 1;
      assert a * SumOf(n, g) == a * SumOf(m, g) + a * g(m);
      assert b * SumOf(n, h) == b * SumOf(m, h) + b * h(m);
    }
  }

  /** n copies of c add up to n * c. */
  lemma {:induction false} SumOfConstant(n: nat, f: nat -> real, c: real)
    requires forall i: nat :: i < n ==> f(i) == c
    ensures SumOf(n, f) == n as real * c
  {
    if n > 0 {
      SumOfConstant(n - 1, f, c);
      assert n as real * c == (n - 1) as real * c + c;
    }
  }

  /** A sum of non-negative terms is non-negative, and it is zero exactly when
      every term is zero. */
  lemma {:induction false} SumOfNonNegative(n: nat, f: nat -> real)
    requires forall i: nat :: i < n ==> f(i) >= 0.0
    ensures SumOf(n, f) >= 0.0
    ensures SumOf(n, f) == 0.0 <==> forall i: nat :: i < n ==> f(i) == 0.0
  {
    if n > 0 {
      SumOfNonNegative(n - 1, f);
    }
  }

  /** Sums of pointwise ordered functions are ordered. */
  lemma {:induction false} SumOfMonotone(n: nat, f: nat -> real, g: nat -> real)
    requires forall i: nat :: i < n ==> f(i) <= g(i)
    ensures SumOf(n, f) <= SumOf(n, g)
  {
    if n > 0 {
      SumOfMonotone(n - 1, f, g);
    }
  }
}

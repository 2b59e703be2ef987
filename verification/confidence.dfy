/** The confidence score of a prediction (`calculateConfidence` in
  backend/server.js).

  The score is 50 for series of fewer than three points. Otherwise it is the
  population variance of the rates around the predicted rate, mapped through
  `100 - 10 * variance`, clamped to [0, 100] and rounded to an integer.
 */
module Confidence {
  import opened Summation
  import opened JsMath
  import opened Regression

  /** The score reported for series too short to judge. */
  const DefaultScore := 50

  /** Below this many points the default score is reported. */
  const MinPointsForScore := 3

  /** (rate_i - prediction)², the summand of the `reduce`. */
  function SquaredDeviations(data: seq<DataPoint>, prediction: real): nat -> real {
    (i: nat) => (Rates(data)(i) - prediction) * (Rates(data)(i) - prediction)
  }

  /** The mean squared deviation of the rates from the predicted rate. */
  function Variance(data: seq<DataPoint>, prediction: real): (v: real)
    requires |data| > 0
    ensures v >= 0.0
  {
    SumOfNonNegative(|data|, SquaredDeviations(data, prediction));
    SumOf(|data|, SquaredDeviations(data, prediction)) / |data| as real
  }

  /** A squared deviation is never negative, so neither is the variance. */
  lemma VarianceNonNegative(data: seq<DataPoint>, prediction: real)
    requires |data| > 0
    ensures Variance(data, prediction) >= 0.0
  {
    SumOfNonNegative(|data|, SquaredDeviations(data, prediction));
  }

  /** A series that the prediction matches exactly has variance zero. */
  lemma ExactSeriesHasZeroVariance(data: seq<DataPoint>, prediction: real)
    requires |data| > 0
    requires forall i :: 0 <= i < |data| ==> data[i].rate == prediction
    ensures Variance(data, prediction) == 0.0
  {
    forall i: nat | i < |data|
      ensures SquaredDeviations(data, prediction)(i) == 0.0
    {
      assert Rates(data)(i) - prediction == 0.0;
    }
    SumOfConstant(|data|, SquaredDeviations(data, prediction), 0.0);
  }

  /** Conversely, variance zero means every rate equals the prediction. */
  lemma ZeroVarianceMeansExact(data: seq<DataPoint>, prediction: real)
    requires |data| > 0
    requires Variance(data, prediction) == 0.0
    ensures forall i :: 0 <= i < |data| ==> data[i].rate == prediction
  {
    var sum := SumOf(|data|, SquaredDeviations(data, prediction));
    assert sum == Variance(data, prediction) * |data| as real;
    SumOfNonNegative(|data|, SquaredDeviations(data, prediction));
    forall i | 0 <= i < |data|
      ensures data[i].rate == prediction
    {
      assert SquaredDeviations(data, prediction)(i) == 0.0;
      if data[i].rate != prediction {
        var d := Rates(data)(i) - prediction;
        calc {
          0.0;
        ==
          SquaredDeviations(data, prediction)(i);
        ==
          d * d;
        > { SquarePositive(d); }
          0.0;
        }
      }
    }
  }

  /** The variance is zero exactly when every rate equals the prediction. */
  lemma VarianceZeroIff(data: seq<DataPoint>, prediction: real)
    requires |data| > 0
    ensures Variance(data, prediction) == 0.0
        <==> forall i :: 0 <= i < |data| ==> data[i].rate == prediction
  {
    if Variance(data, prediction) == 0.0 {
      ZeroVarianceMeansExact(data, prediction);
    }
    if forall i :: 0 <= i < |data| ==> data[i].rate == prediction {
      ExactSeriesHasZeroVariance(data, prediction);
    }
  }

  lemma SquarePositive(d: real)
    requires d != 0.0
    ensures d * d > 0.0
  {
    if d < 0.0 {
      assert (-d) * (-d) == d * d;
    }
  }

  /** The variance mapped onto the score: `100 - 10 * variance`, clamped to
      [0, 100], rounded. */
  function Score(variance: real): (c: int)
    ensures 0 <= c <= 100
  {
    var clamped := Max(0.0, Min(100.0, 100.0 - variance * 10.0));
    RoundMonotone(0.0, clamped);
    RoundMonotone(clamped, 100.0);
    RoundOfInteger(0);
    RoundOfInteger(100);
    Round(clamped)
  }

  /** `calculateConfidence(data, prediction)`. */
  function CalculateConfidence(data: seq<DataPoint>, prediction: real): (c: int)
    ensures 0 <= c <= 100
    ensures |data| < MinPointsForScore ==> c == DefaultScore
  {
    if |data| < MinPointsForScore then DefaultScore
    else Score(Variance(data, prediction))
  }

  /** The `reduce` of `calculateConfidence` as a loop. */
  method ComputeConfidence(data: seq<DataPoint>, prediction: real) returns (c: int)
    ensures c == CalculateConfidence(data, prediction)
  {
    if |data| < MinPointsForScore {
      return DefaultScore;
    }
    var sum := 0.0;
    var i := 0;
    while i < |data|
      invariant 0 <= i <= |data|
      invariant sum == SumOf(i, SquaredDeviations(data, prediction))
    {
      var d := data[i].rate - prediction;
      assert Rates(data)(i) == data[i].rate;
      sum := sum + d * d;
      i := i + 1;
    }
    c := Score(sum / |data| as real);
  }

  /** Scores never rise as the variance grows. */
  lemma ScoreAntitone(v1: real, v2: real)
    requires v1 <= v2
    ensures Score(v1) >= Score(v2)
  {
    var c1 := Max(0.0, Min(100.0, 100.0 - v1 * 10.0));
    var c2 := Max(0.0, Min(100.0, 100.0 - v2 * 10.0));
    assert c2 <= c1;
    RoundMonotone(c2, c1);
  }

  /** For variances in [0, 10] no clamping happens, and the score is the
      rounded `100 - 10 * variance`. */
  lemma ScoreUnclamped(v: real)
    requires 0.0 <= v <= 10.0
    ensures Score(v) == Round(100.0 - 10.0 * v)
  {
  }

  /** The full score of 100 is reached exactly when the variance is at most
      0.05. */
  lemma ScoreFullIff(v: real)
    ensures Score(v) == 100 <==> v <= 0.05
  {
    var clamped := Max(0.0, Min(100.0, 100.0 - v * 10.0));
    if v <= 0.05 {
      assert clamped >= 99.5;
      RoundUnique(clamped, 100);
    }
  }

  /** The score is 0 exactly when the variance exceeds 9.95. */
  lemma ScoreZeroIff(v: real)
    ensures Score(v) == 0 <==> v > 9.95
  {
    var clamped := Max(0.0, Min(100.0, 100.0 - v * 10.0));
    if v > 9.95 {
      assert clamped < 0.5;
      RoundUnique(clamped, 0);
    }
  }

  /** With three or more points, a prediction that every rate equals scores
      100. */
  lemma ExactSeriesScoresFull(data: seq<DataPoint>, prediction: real)
    requires |data| >= MinPointsForScore
    requires forall i :: 0 <= i < |data| ==> data[i].rate == prediction
    ensures CalculateConfidence(data, prediction) == 100
  {
    ExactSeriesHasZeroVariance(data, prediction);
    ScoreFullIff(0.0);
  }

  /** With three or more points, a score of 100 means the mean squared
      deviation from the prediction is at most 0.05. */
  lemma FullScoreBoundsVariance(data: seq<DataPoint>, prediction: real)
    requires |data| >= MinPointsForScore
    ensures CalculateConfidence(data, prediction) == 100 <==> Variance(data, prediction) <= 0.05
  {
    ScoreFullIff(Variance(data, prediction));
  }

  /** Moving every rate at least as far from the prediction never raises the
      score of a series of the same length. */
  lemma ConfidenceAntitone(data1: seq<DataPoint>, data2: seq<DataPoint>, prediction: real)
    requires |data1| == |data2| >= MinPointsForScore
    requires forall i :: 0 <= i < |data1| ==>
      SquaredDeviations(data1, prediction)(i) <= SquaredDeviations(data2, prediction)(i)
    ensures CalculateConfidence(data1, prediction) >= CalculateConfidence(data2, prediction)
  {
    SumOfMonotone(|data1|, SquaredDeviations(data1, prediction), SquaredDeviations(data2, prediction));
    var n := |data1| as real;
    assert SumOf(|data1|, SquaredDeviations(data1, prediction)) / n
        <= SumOf(|data2|, SquaredDeviations(data2, prediction)) / n;
    ScoreAntitone(Variance(data1, prediction), Variance(data2, prediction));
  }
}

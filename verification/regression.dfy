/** The least-squares trend line of the predictor back end (`linearRegression`
  in backend/server.js).

  The back end fits an ordinary least-squares line to the pairs (i, rate_i),
  where the independent variable is the position i = 0 .. n-1 of an
  observation in the date-ascending series, not its calendar date. JavaScript
  numbers are modelled as exact reals, so every sum and quotient is exact.
 */
module Regression {
  import opened Wrappers
  import opened Summation

  /** One element of the series handed to the regression: the `{ date, rate }`
      object built from a stored rate (dates are epoch milliseconds). */
  datatype DataPoint = DataPoint(date: int, rate: real)

  /** The fitted line `rate = slope * index + intercept`. */
  datatype Line = Line(slope: real, intercept: real)

  /** The value the line takes at position `x`. */
  function At(l: Line, x: real): real {
    l.slope * x + l.intercept
  }

  // ---------------------------------------------------------------------------
  // The four running sums of the regression loop.
  // ---------------------------------------------------------------------------

  function One(i: nat): real {
    1.0
  }

  function Index(i: nat): real {
    i as real
  }

  function Square(i: nat): real {
    i as real * i as real
  }

  /** The rate at position i (0 past the end, where no sum looks). */
  function Rates(data: seq<DataPoint>): nat -> real {
    (i: nat) => if i < |data| then data[i].rate else 0.0
  }

  /** Position times rate, the summand of `sumXY`. */
  function IndexedRates(data: seq<DataPoint>): nat -> real {
    (i: nat) => i as real * Rates(data)(i)
  }

  /** `sumX` over the first n positions: 0 + 1 + ... + (n-1). */
  function SumX(n: nat): real {
    SumOf(n, Index)
  }

  /** `sumXX` over the first n positions: 0² + 1² + ... + (n-1)². */
  function SumXX(n: nat): real {
    SumOf(n, Square)
  }

  /** `sumY`: the sum of the rates. */
  function SumY(data: seq<DataPoint>): real {
    SumOf(|data|, Rates(data))
  }

  /** `sumXY`: the sum of index times rate. */
  function SumXY(data: seq<DataPoint>): real {
    SumOf(|data|, IndexedRates(data))
  }

  /** Gauss's closed form of the index sum. */
  lemma {:induction false} SumXClosedForm(n: nat)
    ensures 2.0 * SumX(n) == n as real * (n as real - 1.0)
  {
    if n > 0 {
      SumXClosedForm(n - 1);
    }
  }

  /** The closed form of the sum of squared indices. */
  lemma {:induction false} SumXXClosedForm(n: nat)
    ensures 6.0 * SumXX(n) == n as real * (n as real - 1.0) * (2.0 * n as real - 1.0)
  {
    if n > 0 {
      SumXXClosedForm(n - 1);
      var k := (n - 1) as real;
      assert SumXX(n) == SumXX(n - 1) + k * k;
      assert (k - 1.0) * (2.0 * k - 1.0) + 6.0 * k == (k + 1.0) * (2.0 * k + 1.0);
      assert k * ((k - 1.0) * (2.0 * k - 1.0)) + k * (6.0 * k) == k * ((k + 1.0) * (2.0 * k + 1.0));
    }
  }

  /** The denominator `n * sumXX - sumX * sumX` of the slope formula equals
      n²(n²-1)/12. */
  lemma DenominatorClosedForm(n: nat)
    ensures 12.0 * (n as real * SumXX(n) - SumX(n) * SumX(n))
         == n as real * n as real * (n as real * n as real - 1.0)
  {
    SumXClosedForm(n);
    SumXXClosedForm(n);
    DenominatorAlgebra(n as real, SumX(n), SumXX(n));
  }

  /** With at least two indices the denominator is positive, so the slope
      of `linearRegression` is always defined. */
  lemma DenominatorPositive(n: nat)
    requires n >= 2
    ensures n as real * SumXX(n) - SumX(n) * SumX(n) > 0.0
  {
    DenominatorClosedForm(n);
    var m := n as real * n as real;
    assert m >= 4.0;
    assert m * (m - 1.0) > 0.0;
  }

  lemma DenominatorAlgebra(n: real, sx: real, sxx: real)
    requires 2.0 * sx == n * (n - 1.0)
    requires 6.0 * sxx == n * (n - 1.0) * (2.0 * n - 1.0)
    ensures 12.0 * (n * sxx - sx * sx) == n * n * (n * n - 1.0)
  {
    var m := n * (n - 1.0);
    assert 12.0 * (n * sxx) == 2.0 * n * (6.0 * sxx) == 2.0 * n * (m * (2.0 * n - 1.0));
    assert 12.0 * (sx * sx) == 3.0 * ((2.0 * sx) * (2.0 * sx)) == 3.0 * (m * m);
    assert 2.0 * n * (m * (2.0 * n - 1.0)) - 3.0 * (m * m)
        == m * (2.0 * n * (2.0 * n - 1.0) - 3.0 * m);
    assert 2.0 * n * (2.0 * n - 1.0) - 3.0 * m == n * n + n;
    assert m * (n * n + n) == n * n * (n * n - 1.0);
  }

  // ---------------------------------------------------------------------------
  // linearRegression
  // ---------------------------------------------------------------------------

  /** The four sums of the regression loop together with the count n. */
  datatype Totals = Totals(n: nat, x: real, y: real, xy: real, xx: real)

  /** The totals the loop of `linearRegression` reaches over a series. */
  function TotalsOf(data: seq<DataPoint>): Totals {
    Totals(|data|, SumX(|data|), SumY(data), SumXY(data), SumXX(|data|))
  }

  /** `n * sumXX - sumX * sumX`, the denominator of the slope. */
  function Denominator(t: Totals): real {
    t.n as real * t.xx - t.x * t.x
  }

  /** Totals from which the closing formulas can be evaluated. */
  predicate Solvable(t: Totals) {
    t.n > 0 && Denominator(t) != 0.0
  }

  /** The two closing statements of `linearRegression`: slope and intercept
      from the four sums. */
  function LineFromTotals(t: Totals): (l: Line)
    requires Solvable(t)
    ensures l.intercept * t.n as real == t.y - l.slope * t.x
    ensures l.slope * Denominator(t) == t.n as real * t.xy - t.x * t.y
  {
    var slope := (t.n as real * t.xy - t.x * t.y) / Denominator(t);
    Line(slope, (t.y - slope * t.x) / t.n as real)
  }

  /** With two or more points the closing formulas are defined. */
  lemma TotalsSolvable(data: seq<DataPoint>)
    requires |data| >= 2
    ensures Solvable(TotalsOf(data))
  {
    DenominatorPositive(|data|);
  }

  /** `linearRegression(data)`: no line (`null`) for fewer than two points,
      otherwise the least-squares slope and intercept over (index, rate). */
  function LinearRegression(data: seq<DataPoint>): (r: Option<Line>)
    ensures r.None? <==> |data| < 2
  {
    if |data| < 2 then None
    else
      TotalsSolvable(data);
      Some(LineFromTotals(TotalsOf(data)))
  }

  /** The loop of `linearRegression`: one pass over the series accumulating
      the four sums, then the closing formula. */
  method Fit(data: seq<DataPoint>) returns (r: Option<Line>)
    ensures r == LinearRegression(data)
  {
    var n := |data|;
    if n < 2 {
      return None;
    }
    var sumX, sumY, sumXY, sumXX := 0.0, 0.0, 0.0, 0.0;
    var i := 0;
    while i < n
      invariant 0 <= i <= n
      invariant sumX == SumOf(i, Index)
      invariant sumY == SumOf(i, Rates(data))
      invariant sumXY == SumOf(i, IndexedRates(data))
      invariant sumXX == SumOf(i, Square)
    {
      var x := i as real;
      sumX := sumX + x;
      sumY := sumY + data[i].rate;
      sumXY := sumXY + x * data[i].rate;
      sumXX := sumXX + x * x;
      i := i + 1;
    }
    TotalsSolvable(data);
    r := Some(LineFromTotals(Totals(n, sumX, sumY, sumXY, sumXX)));
  }

  // ---------------------------------------------------------------------------
  // The closing formulas solve the normal equations, and nothing else does.
  // ---------------------------------------------------------------------------

  /** The least-squares normal equations written in the four sums:
      sumY = slope*sumX + intercept*n and sumXY = slope*sumXX + intercept*sumX. */
  predicate Solves(t: Totals, l: Line) {
    && Combine(t.y, t.x, t.n as real, l.slope, l.intercept) == 0.0
    && Combine(t.xy, t.xx, t.x, l.slope, l.intercept) == 0.0
  }

  /** The slope and intercept formulas solve the normal equations. */
  lemma LineFromTotalsSolves(t: Totals)
    requires Solvable(t)
    ensures Solves(t, LineFromTotals(t))
  {
    var nr, d := t.n as real, Denominator(t);
    var l := LineFromTotals(t);
    var b, a := l.slope, l.intercept;
    assert b * d == nr * t.xy - t.x * t.y;
    assert nr * a == t.y - b * t.x;
    var w := t.xy - b * t.xx - a * t.x;
    assert nr * w == nr * t.xy - b * (nr * t.xx) - t.x * (nr * a);
    assert nr * w == (nr * t.xy - t.x * t.y) - b * d;
  }

  /** A solution of the normal equations is the line the formulas give. */
  lemma SolutionIsLineFromTotals(t: Totals, l: Line)
    requires Solvable(t)
    requires Solves(t, l)
    ensures l == LineFromTotals(t)
  {
    var nr, d := t.n as real, Denominator(t);
    var b, a := l.slope, l.intercept;
    assert nr * a == t.y - b * t.x;
    assert nr * (t.xy - b * t.xx - a * t.x) == nr * t.xy - b * (nr * t.xx) - t.x * (nr * a);
    assert b * d == nr * t.xy - t.x * t.y;
    assert b == (nr * t.xy - t.x * t.y) / d;
    assert a == (t.y - b * t.x) / nr;
  }

  // ---------------------------------------------------------------------------
  // The normal equations over the series itself.
  // ---------------------------------------------------------------------------

  /** rate_i - slope*i - intercept, the residual of the line at position i. */
  function Residuals(data: seq<DataPoint>, l: Line): nat -> real {
    Combination(Rates(data), Index, One, l.slope, l.intercept)
  }

  /** i*rate_i - slope*i² - intercept*i, the residual weighted by its
      position. */
  function WeightedResiduals(data: seq<DataPoint>, l: Line): nat -> real {
    Combination(IndexedRates(data), Square, Index, l.slope, l.intercept)
  }

  /** The residual at position i is the vertical distance from the rate to
      the line. */
  lemma ResidualAt(data: seq<DataPoint>, l: Line, i: nat)
    ensures Residuals(data, l)(i) == Rates(data)(i) - At(l, i as real)
    ensures WeightedResiduals(data, l)(i) == i as real * (Rates(data)(i) - At(l, i as real))
  {
    WeightedTerm(i as real, Rates(data)(i), l);
  }

  lemma WeightedTerm(x: real, r: real, l: Line)
    ensures x * (r - At(l, x)) == x * r - l.slope * (x * x) - l.intercept * x
  {
  }

  /** The two normal equations of least squares over (index, rate): the
      derivatives of the squared error in intercept and in slope vanish. */
  ghost predicate NormalEquations(data: seq<DataPoint>, l: Line) {
    && SumOf(|data|, Residuals(data, l)) == 0.0
    && SumOf(|data|, WeightedResiduals(data, l)) == 0.0
  }

  lemma SumOfOnes(n: nat)
    ensures SumOf(n, One) == n as real
  {
    SumOfConstant(n, One, 1.0);
  }

  /** The residual sum is sumY - slope*sumX - intercept*n. */
  lemma ResidualSumExpand(data: seq<DataPoint>, l: Line)
    ensures SumOf(|data|, Residuals(data, l))
         == Combine(TotalsOf(data).y, TotalsOf(data).x, TotalsOf(data).n as real, l.slope, l.intercept)
  {
    SumOfCombination(|data|, Rates(data), Index, One, l.slope, l.intercept);
    SumOfOnes(|data|);
  }

  /** The weighted residual sum is sumXY - slope*sumXX - intercept*sumX. */
  lemma WeightedResidualSumExpand(data: seq<DataPoint>, l: Line)
    ensures SumOf(|data|, WeightedResiduals(data, l))
         == Combine(TotalsOf(data).xy, TotalsOf(data).xx, TotalsOf(data).x, l.slope, l.intercept)
  {
    SumOfCombination(|data|, IndexedRates(data), Square, Index, l.slope, l.intercept);
  }

  /** Summing the residuals term by term turns the normal equations into
      equations in the four sums of the regression loop. */
  lemma NormalEquationsInTotals(data: seq<DataPoint>, l: Line)
    ensures NormalEquations(data, l) <==> Solves(TotalsOf(data), l)
  {
    ResidualSumExpand(data, l);
    WeightedResidualSumExpand(data, l);
  }

  /** The fitted line solves the normal equations in the four sums. */
  lemma FitSolvesTotals(data: seq<DataPoint>)
    requires |data| >= 2
    ensures Solves(TotalsOf(data), LinearRegression(data).value)
  {
    TotalsSolvable(data);
    LineFromTotalsSolves(TotalsOf(data));
  }

  /** The line returned for n >= 2 satisfies both normal equations, i.e. it
      is a least-squares line. */
  lemma FitSolvesNormalEquations(data: seq<DataPoint>)
    requires |data| >= 2
    ensures NormalEquations(data, LinearRegression(data).value)
  {
    FitSolvesTotals(data);
    NormalEquationsInTotals(data, LinearRegression(data).value);
  }

  /** Conversely, a line that satisfies the normal equations is the returned
      one: for n >= 2 the least-squares line is unique. */
  lemma NormalEquationsDetermineFit(data: seq<DataPoint>, l: Line)
    requires |data| >= 2
    requires NormalEquations(data, l)
    ensures LinearRegression(data) == Some(l)
  {
    NormalEquationsInTotals(data, l);
    TotalsDetermineFit(data, l);
  }

  lemma TotalsDetermineFit(data: seq<DataPoint>, l: Line)
    requires |data| >= 2
    requires Solves(TotalsOf(data), l)
    ensures LinearRegression(data) == Some(l)
  {
    TotalsSolvable(data);
    SolutionIsLineFromTotals(TotalsOf(data), l);
  }

  /** The fitted line passes through the mean point (mean index, mean rate). */
  lemma FitPassesThroughMean(data: seq<DataPoint>)
    requires |data| >= 2
    ensures At(LinearRegression(data).value, SumX(|data|) / |data| as real)
         == SumY(data) / |data| as real
  {
    FitSolvesTotals(data);
    MeanPointAlgebra(TotalsOf(data), LinearRegression(data).value);
  }

  lemma MeanPointAlgebra(t: Totals, l: Line)
    requires t.n > 0
    requires Solves(t, l)
    ensures At(l, t.x / t.n as real) == t.y / t.n as real
  {
    var nr := t.n as real;
    assert l.slope * (t.x / nr) == (l.slope * t.x) / nr;
    assert l.intercept == (l.intercept * nr) / nr;
  }

  /** A series lying exactly on `rate = a + b * index` is recovered exactly. */
  lemma CollinearRecovered(data: seq<DataPoint>, a: real, b: real)
    requires |data| >= 2
    requires forall i :: 0 <= i < |data| ==> data[i].rate == a + b * i as real
    ensures LinearRegression(data) == Some(Line(b, a))
  {
    CollinearSolvesNormalEquations(data, a, b);
    NormalEquationsDetermineFit(data, Line(b, a));
  }

  lemma CollinearSolvesNormalEquations(data: seq<DataPoint>, a: real, b: real)
    requires forall i :: 0 <= i < |data| ==> data[i].rate == a + b * i as real
    ensures NormalEquations(data, Line(b, a))
  {
    var l := Line(b, a);
    forall i: nat | i < |data|
      ensures Residuals(data, l)(i) == 0.0 && WeightedResiduals(data, l)(i) == 0.0
    {
      ResidualAt(data, l, i);
    }
    SumOfConstant(|data|, Residuals(data, l), 0.0);
    SumOfConstant(|data|, WeightedResiduals(data, l), 0.0);
  }

  /** A constant series of at least two points has slope 0 and intercept equal
      to the constant. */
  lemma ConstantSeriesIsFlat(data: seq<DataPoint>, c: real)
    requires |data| >= 2
    requires forall i :: 0 <= i < |data| ==> data[i].rate == c
    ensures LinearRegression(data) == Some(Line(0.0, c))
  {
    CollinearRecovered(data, c, 0.0);
  }

  /** The rates 6.5, 7.0, 7.5 give slope 0.5 and intercept 6.5. */
  lemma ThreeRisingRates(d0: int, d1: int, d2: int)
    ensures LinearRegression([DataPoint(d0, 6.5), DataPoint(d1, 7.0), DataPoint(d2, 7.5)])
         == Some(Line(0.5, 6.5))
  {
    CollinearRecovered([DataPoint(d0, 6.5), DataPoint(d1, 7.0), DataPoint(d2, 7.5)], 6.5, 0.5);
  }
}

/** The computation behind `POST /api/predict` in backend/server.js.

  The handler selects the stored rates of one bank and tenure, orders them by
  date (oldest first), keeps the first 50, and refuses series shorter than two.
  On the rest it fits the trend line, projects it one step past the last
  index, rounds the projection to cents with a floor of 0, scores it, labels
  the trend and answers with the projection and the series it used; a
  prediction record holding the same figures is stored alongside.

  The database is a sequence of stored rates. Filtering by bank and tenure is
  modelled; the date ordering is the database's and is taken as given (the
  store is read in the order the query returns it).
 */
module Forecast {
  import opened Wrappers
  import opened JsMath
  import opened Regression
  import opened Confidence

  /** `.limit(50)`: the most rows the query hands to the regression. */
  const WindowSize := 50

  /** The regression needs at least this many points. */
  const MinPoints := 2

  const InsufficientDataError := "Insufficient data for prediction. Need at least 2 data points."

  const RegressionFailedError := "Unable to calculate prediction"

  /** A stored FD rate (the `FDRate` schema); dates are epoch milliseconds. */
  datatype FDRate = FDRate(bankName: string, tenure: int, interestRate: real, date: int, minAmount: real)

  datatype Trend = Increasing | Decreasing | Stable

  /** The JSON body of a successful prediction. */
  datatype PredictResponse = PredictResponse(
    prediction: real,
    confidence: int,
    trend: Trend,
    dataPoints: nat,
    historicalData: seq<DataPoint>)

  /** The `Prediction` document saved by the handler (its `predictionDate`
      comes from the clock and is not modelled). */
  datatype PredictionRecord = PredictionRecord(
    bankName: string,
    tenure: int,
    predictedRate: real,
    confidence: int,
    basedOnDataPoints: nat)

  datatype Outcome = Outcome(response: PredictResponse, record: PredictionRecord)

  // ---------------------------------------------------------------------------
  // The query: filter by bank and tenure, keep the first 50.
  // ---------------------------------------------------------------------------

  predicate Matches(r: FDRate, bankName: string, tenure: int) {
    r.bankName == bankName && r.tenure == tenure
  }

  /** `FDRate.find({ bankName, tenure })`, in store order. */
  function Matching(store: seq<FDRate>, bankName: string, tenure: int): (r: seq<FDRate>)
    ensures |r| <= |store|
    ensures forall x :: x in r <==> x in store && Matches(x, bankName, tenure)
  {
    if |store| == 0 then []
    else
      var rest := Matching(store[1..], bankName, tenure);
      if Matches(store[0], bankName, tenure) then [store[0]] + rest else rest
  }

  /** Filtering a concatenation filters each part. */
  lemma {:induction false} MatchingAppend(a: seq<FDRate>, b: seq<FDRate>, bankName: string, tenure: int)
    ensures Matching(a + b, bankName, tenure) == Matching(a, bankName, tenure) + Matching(b, bankName, tenure)
  {
    if |a| > 0 {
      assert (a + b)[1..] == a[1..] + b;
      MatchingAppend(a[1..], b, bankName, tenure);
    } else {
      assert a + b == b;
    }
  }

  ghost predicate SortedByDate(s: seq<FDRate>) {
    forall i, j :: 0 <= i < j < |s| ==> s[i].date <= s[j].date
  }

  /** Filtering keeps the date order of the store. */
  lemma {:induction false} MatchingKeepsOrder(store: seq<FDRate>, bankName: string, tenure: int)
    requires SortedByDate(store)
    ensures SortedByDate(Matching(store, bankName, tenure))
  {
    if |store| > 0 {
      var rest := Matching(store[1..], bankName, tenure);
      MatchingKeepsOrder(store[1..], bankName, tenure);
      forall x | x in rest
        ensures store[0].date <= x.date
      {
        var k :| 0 <= k < |store[1..]| && store[1..][k] == x;
        assert store[k + 1] == x;
      }
    }
  }

  /** `.limit(50)` on the date-ascending rows: the first (oldest) 50. */
  function Window(store: seq<FDRate>, bankName: string, tenure: int): (w: seq<FDRate>)
    ensures |w| <= WindowSize
    ensures w <= Matching(store, bankName, tenure)
    ensures |w| == |Matching(store, bankName, tenure)| || |w| == WindowSize
  {
    var m := Matching(store, bankName, tenure);
    if |m| <= WindowSize then m else m[..WindowSize]
  }

  /** `historicalRates.map(rate => ({ date, rate: interestRate }))`. */
  function ToSeries(rows: seq<FDRate>): (data: seq<DataPoint>)
    ensures |data| == |rows|
    ensures forall i :: 0 <= i < |rows| ==>
      data[i].date == rows[i].date && data[i].rate == rows[i].interestRate
  {
    seq(|rows|, i requires 0 <= i < |rows| => DataPoint(rows[i].date, rows[i].interestRate))
  }

  // ---------------------------------------------------------------------------
  // Rounding, trend label and the projection.
  // ---------------------------------------------------------------------------

  /** `Math.round(x * 100) / 100`: x to the nearest cent, half-cents up. */
  function RoundToCents(x: real): (r: real)
    ensures (r * 100.0).Floor as real == r * 100.0
    ensures x - 0.005 < r <= x + 0.005
  {
    Round(x * 100.0) as real / 100.0
  }

  /** The whole number of cents within half a cent of x (half-cents going
      up) is unique, so it is the rounded value. */
  lemma RoundToCentsUnique(x: real, cents: int)
    requires x - 0.005 < cents as real / 100.0 <= x + 0.005
    ensures RoundToCents(x) == cents as real / 100.0
  {
    RoundUnique(x * 100.0, cents);
  }

  /** A rounded amount is a whole number of cents, so rounding it again
      changes nothing. */
  lemma RoundToCentsIdempotent(x: real)
    ensures RoundToCents(RoundToCents(x)) == RoundToCents(x)
  {
    var k := Round(x * 100.0);
    assert RoundToCents(x) * 100.0 == k as real;
    RoundOfInteger(k);
  }

  /** `Math.max(0, Math.round(x * 100) / 100)`. */
  function ReportedRate(x: real): (r: real)
    ensures r >= 0.0
    ensures (r * 100.0).Floor as real == r * 100.0
    ensures x >= 0.0 ==> x - 0.005 < r <= x + 0.005
    ensures x < 0.0 ==> r == 0.0
  {
    Max(0.0, RoundToCents(x))
  }

  /** The trend by the sign of the slope, with no tolerance around zero. */
  function TrendOf(slope: real): (t: Trend)
    ensures t == Increasing <==> slope > 0.0
    ensures t == Decreasing <==> slope < 0.0
    ensures t == Stable <==> slope == 0.0
  {
    if slope > 0.0 then Increasing
    else if slope < 0.0 then Decreasing
    else Stable
  }

  /** The string the response carries for a trend. */
  function TrendLabel(t: Trend): (s: string)
    ensures s in {"increasing", "decreasing", "stable"}
    ensures s == "increasing" <==> t == Increasing
    ensures s == "decreasing" <==> t == Decreasing
    ensures s == "stable" <==> t == Stable
  {
    match t
    case Increasing => "increasing"
    case Decreasing => "decreasing"
    case Stable => "stable"
  }

  /** Distinct trends get distinct labels, so the label determines the sign
      of the slope. */
  lemma TrendLabelInjective(t1: Trend, t2: Trend)
    requires TrendLabel(t1) == TrendLabel(t2)
    ensures t1 == t2
  {
    assert "increasing" != "decreasing" && "increasing" != "stable" && "decreasing" != "stable" by {
      assert "increasing"[0] != "decreasing"[0];
      assert "increasing"[0] != "stable"[0];
      assert "decreasing"[0] != "stable"[0];
    }
  }

  /** The value the fitted line takes one step past the last index
      (`nextPeriod = data.length`), before rounding. */
  function RawProjection(data: seq<DataPoint>, l: Line): (p: real)
    ensures p - At(l, |data| as real - 1.0) == l.slope
  {
    At(l, |data| as real)
  }

  /** Everything the handler computes from the windowed series. */
  function Project(data: seq<DataPoint>): (r: Result<PredictResponse, string>)
    ensures r.Failure? <==> |data| < MinPoints
  {
    if |data| < MinPoints then Failure(InsufficientDataError)
    else
      match LinearRegression(data)
      case None => Failure(RegressionFailedError)
      case Some(l) =>
        var predicted := RawProjection(data, l);
        Success(PredictResponse(
          ReportedRate(predicted),
          CalculateConfidence(data, predicted),
          TrendOf(l.slope),
          |data|,
          data))
  }

  /** The whole handler: query, project, and build the stored record. */
  function Predict(store: seq<FDRate>, bankName: string, tenure: int): (r: Result<Outcome, string>)
    ensures r.Failure? <==> |Window(store, bankName, tenure)| < MinPoints
  {
    var data := ToSeries(Window(store, bankName, tenure));
    match Project(data)
    case Failure(e) => Failure(e)
    case Success(resp) =>
      Success(Outcome(resp, PredictionRecord(bankName, tenure, resp.prediction, resp.confidence, resp.dataPoints)))
  }

  // ---------------------------------------------------------------------------
  // What a prediction promises.
  // ---------------------------------------------------------------------------

  /** The only error ever reported is the insufficient-data one: the
      "Unable to calculate prediction" branch cannot be taken. */
  lemma OnlyInsufficientDataFails(data: seq<DataPoint>)
    ensures Project(data).Failure? ==> Project(data).error == InsufficientDataError
    ensures Project(data) != Failure(RegressionFailedError)
  {
    assert |InsufficientDataError| != |RegressionFailedError|;
  }

  /** A successful projection: at least two points, the prediction is the
      rounded and floored value of the fitted line at index n, the score is
      taken from the unrounded value, the trend follows the slope, and the
      series used is echoed back. */
  lemma ProjectionFacts(data: seq<DataPoint>)
    requires |data| >= MinPoints
    ensures Project(data).Success?
    ensures LinearRegression(data).Some?
    ensures var resp, l := Project(data).value, LinearRegression(data).value;
      && resp.dataPoints == |resp.historicalData| == |data|
      && resp.historicalData == data
      && resp.prediction >= 0.0
      && resp.prediction == ReportedRate(At(l, |data| as real))
      && resp.confidence == CalculateConfidence(data, At(l, |data| as real))
      && 0 <= resp.confidence <= 100
      && (resp.trend == Increasing <==> l.slope > 0.0)
      && (resp.trend == Decreasing <==> l.slope < 0.0)
      && (resp.trend == Stable <==> l.slope == 0.0)
  {
  }

  /** With two or more rows in the window the handler succeeds. It answers
      with at most 50 and at least 2 points,
      all of them stored rates of the requested bank and tenure, and stores a
      record carrying the same figures as the response. */
  lemma PredictFacts(store: seq<FDRate>, bankName: string, tenure: int)
    requires |Window(store, bankName, tenure)| >= MinPoints
    ensures Predict(store, bankName, tenure).Success?
    ensures var o := Predict(store, bankName, tenure).value;
      && MinPoints <= o.response.dataPoints <= WindowSize
      && o.response.dataPoints == |Window(store, bankName, tenure)|
      && o.record == PredictionRecord(bankName, tenure, o.response.prediction,
                                      o.response.confidence, o.response.dataPoints)
      && o.response.historicalData == ToSeries(Window(store, bankName, tenure))
      && forall i :: 0 <= i < o.response.dataPoints ==>
           Window(store, bankName, tenure)[i] in store
           && Matches(Window(store, bankName, tenure)[i], bankName, tenure)
  {
    var w := Window(store, bankName, tenure);
    ProjectionFacts(ToSeries(w));
    forall i | 0 <= i < |w|
      ensures w[i] in store && Matches(w[i], bankName, tenure)
    {
      assert w[i] in Matching(store, bankName, tenure);
    }
  }

  /** A constant series is stable and projects the constant itself; with
      three or more points the projection is then exact and scores 100. */
  lemma ConstantSeriesForecast(data: seq<DataPoint>, c: real)
    requires |data| >= MinPoints
    requires forall i :: 0 <= i < |data| ==> data[i].rate == c
    ensures Project(data).Success?
    ensures Project(data).value.trend == Stable
    ensures Project(data).value.prediction == ReportedRate(c)
    ensures |data| >= MinPointsForScore ==> Project(data).value.confidence == 100
  {
    ConstantSeriesIsFlat(data, c);
    if |data| >= MinPointsForScore {
      ExactSeriesScoresFull(data, c);
    }
  }

  /** Once 50 matching rates are stored, storing further rates dated no
      earlier does not change the prediction: the window keeps the oldest
      50. */
  lemma NewerRatesIgnored(store: seq<FDRate>, newer: seq<FDRate>, bankName: string, tenure: int)
    requires SortedByDate(store + newer)
    requires |Matching(store, bankName, tenure)| >= WindowSize
    ensures Predict(store + newer, bankName, tenure) == Predict(store, bankName, tenure)
  {
    NewerRatesOutsideWindow(store, newer, bankName, tenure);
  }

  lemma NewerRatesOutsideWindow(store: seq<FDRate>, newer: seq<FDRate>, bankName: string, tenure: int)
    requires |Matching(store, bankName, tenure)| >= WindowSize
    ensures Window(store + newer, bankName, tenure) == Window(store, bankName, tenure)
  {
    MatchingAppend(store, newer, bankName, tenure);
    var m := Matching(store, bankName, tenure);
    var m' := Matching(store + newer, bankName, tenure);
    assert m'[..WindowSize] == m[..WindowSize];
  }

  /** Conversely, a matching rate dated no later than everything stored
      enters a full window and pushes its newest point out. */
  lemma OlderRateDisplacesNewest(store: seq<FDRate>, older: FDRate, bankName: string, tenure: int)
    requires SortedByDate([older] + store)
    requires |Matching(store, bankName, tenure)| >= WindowSize
    requires Matches(older, bankName, tenure)
    ensures Window([older] + store, bankName, tenure)
         == [older] + Window(store, bankName, tenure)[..WindowSize - 1]
  {
    MatchingAppend([older], store, bankName, tenure);
    assert Matching([older], bankName, tenure) == [older];
  }

  // ---------------------------------------------------------------------------
  // Worked cases.
  // ---------------------------------------------------------------------------

  /** Rates 6.5, 7.0, 7.5 project to 8.00, rising, with confidence 88
      (mean squared deviation 3.5/3 from 8.0). */
  lemma RisingSeries(d0: int, d1: int, d2: int)
    ensures Project([DataPoint(d0, 6.5), DataPoint(d1, 7.0), DataPoint(d2, 7.5)])
         == Success(PredictResponse(8.0, 88, Increasing, 3,
                      [DataPoint(d0, 6.5), DataPoint(d1, 7.0), DataPoint(d2, 7.5)]))
  {
    var data := [DataPoint(d0, 6.5), DataPoint(d1, 7.0), DataPoint(d2, 7.5)];
    ThreeRisingRates(d0, d1, d2);
    assert RawProjection(data, Line(0.5, 6.5)) == 8.0;
    RoundOfInteger(800);
    assert RoundToCents(8.0) == 8.0;
    var f := SquaredDeviations(data, 8.0);
    assert f(0) == 2.25 && f(1) == 1.0 && f(2) == 0.25;
    assert Summation.SumOf(3, f) == 3.5;
    RoundUnique(100.0 - 3.5 / 3.0 * 10.0, 88);
  }

  /** Two equal rates project to the same rate, stable, with the default
      confidence 50. */
  lemma FlatPair(d0: int, d1: int)
    ensures Project([DataPoint(d0, 7.0), DataPoint(d1, 7.0)])
         == Success(PredictResponse(7.0, DefaultScore, Stable, 2,
                      [DataPoint(d0, 7.0), DataPoint(d1, 7.0)]))
  {
    ConstantSeriesIsFlat([DataPoint(d0, 7.0), DataPoint(d1, 7.0)], 7.0);
    RoundOfInteger(700);
    assert RoundToCents(7.0) == 7.0;
  }

  /** A single point is refused. */
  lemma SinglePointRefused(d0: int, rate: real)
    ensures Project([DataPoint(d0, rate)]) == Failure(InsufficientDataError)
  {
  }

  /** Rates 10, 5, 0 project to -5, which is reported as 0 with a falling
      trend and confidence 0. */
  lemma FallingSeriesFloored(d0: int, d1: int, d2: int)
    ensures Project([DataPoint(d0, 10.0), DataPoint(d1, 5.0), DataPoint(d2, 0.0)])
         == Success(PredictResponse(0.0, 0, Decreasing, 3,
                      [DataPoint(d0, 10.0), DataPoint(d1, 5.0), DataPoint(d2, 0.0)]))
  {
    var data := [DataPoint(d0, 10.0), DataPoint(d1, 5.0), DataPoint(d2, 0.0)];
    CollinearRecovered(data, 10.0, -5.0);
    assert RawProjection(data, Line(-5.0, 10.0)) == -5.0;
    var f := SquaredDeviations(data, -5.0);
    assert f(0) == 225.0 && f(1) == 100.0 && f(2) == 25.0;
    assert Summation.SumOf(3, f) == 350.0;
    ScoreZeroIff(350.0 / 3.0);
  }
}

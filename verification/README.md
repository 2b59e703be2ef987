# FD rate predictor: the forecasting core in Dafny

The FD predictor stores fixed-deposit interest rates per bank and tenure. For
one bank and tenure it forecasts the next rate: it fits an ordinary
least-squares line to the rates against their position in the date-ascending
series, projects the line one step ahead, scores the projection by the mean
squared deviation of the history from it, and labels the trend by the sign
of the slope. The page that shows the forecast turns the answer into a chart
series and normalises the bank list it offers.

This project models that core over exact reals. The modules are:

- `Summation` (`sums.dfy`): finite sums `f(0) + ... + f(n-1)` and the facts
  about them that the rest uses.
- `JsMath` (`jsmath.dfy`): `Math.round`, `Math.max` and `Math.min`.
- `Regression` (`regression.dfy`): `linearRegression`. It proves the
  denominator positive for two or more points, and that the result is the
  unique solution of the least-squares normal equations. Collinear and
  constant series are recovered exactly, and the line passes through the
  mean point.
- `Confidence` (`confidence.dfy`): `calculateConfidence`.
- `Forecast` (`forecast.dfy`): the computation of the `/api/predict` handler.
  This covers the query window, the insufficient-data error, the projection,
  the rounding to cents with a floor at 0, the trend, the response and the
  stored prediction record.
- `Chart` (`chart.dfy`): `getChartData` and the bank-name normalisation of
  `fetchBanks`.
- `Wrappers` (`wrappers.dfy`): `Option` (JavaScript `null`/`undefined`) and
  `Result` (an `{ error }` answer).

The handler sorts the matching rates by date ascending and then applies
`.limit(50)` (backend/server.js:133-135), so it keeps the **oldest** 50
matching rates. `Forecast.NewerRatesIgnored` proves that once 50 matching
rates are stored, rates dated later never change the forecast.
`Forecast.OlderRateDisplacesNewest` proves that a rate dated earlier does
enter the window.

## Model

| member | source | states |
|---|---|---|
| Regression.LinearRegression | backend/server.js:44-46 | no line (`null`) exactly when the series has fewer than 2 points |
| Regression.DenominatorPositive | backend/server.js:48-60 | for n >= 2 the slope denominator `n*sumXX - sumX*sumX` is strictly positive, so the division is always defined |
| Regression.DenominatorClosedForm | backend/server.js:53-60 | the denominator over the indices 0..n-1 equals n²(n²-1)/12 |
| Regression.SumXClosedForm | backend/server.js:53-55 | the accumulated `sumX` is n(n-1)/2 |
| Regression.SumXXClosedForm | backend/server.js:53-58 | the accumulated `sumXX` is n(n-1)(2n-1)/6 |
| Regression.Fit | backend/server.js:44-64 | the single `forEach` pass accumulating the four sums returns the same line as the closed definition |
| Regression.FitSolvesNormalEquations | backend/server.js:60-63 | the returned slope and intercept make both least-squares normal equations hold: residuals sum to 0, and index-weighted residuals sum to 0 |
| Regression.NormalEquationsDetermineFit | backend/server.js:60-63 | any line satisfying both normal equations is the returned one, so the least-squares line is unique for n >= 2 |
| Regression.LineFromTotals | backend/server.js:60-61 | the slope and intercept satisfy intercept·n = sumY − slope·sumX and slope·(n·sumXX − sumX²) = n·sumXY − sumX·sumY, which determine them when n > 0 and the denominator is non-zero |
| Regression.TotalsSolvable | backend/server.js:48-61 | for n >= 2 the totals of the loop satisfy both divisions' conditions: n > 0 and a non-zero slope denominator |
| Regression.LineFromTotalsSolves | backend/server.js:60-61 | the slope and intercept formulas solve the normal equations written in the four sums |
| Regression.SolutionIsLineFromTotals | backend/server.js:60-61 | any solution of the normal equations in the four sums is the slope and intercept the formulas give |
| Regression.FitSolvesTotals | backend/server.js:44-63 | the returned line solves the normal equations in the sums the loop accumulates |
| Regression.TotalsDetermineFit | backend/server.js:44-63 | a line solving the normal equations in the accumulated sums is the returned one |
| Regression.NormalEquationsInTotals | backend/server.js:53-58 | the residual-sum normal equations hold exactly when the equations in `sumX`, `sumY`, `sumXY`, `sumXX` and n hold |
| Regression.ResidualAt | backend/server.js:53-58 | the residual at position i is rate_i minus the line's value at i, and its weighted form is i times that |
| Regression.ResidualSumExpand | backend/server.js:53-58 | the sum of the residuals equals sumY - slope*sumX - intercept*n |
| Regression.WeightedResidualSumExpand | backend/server.js:53-58 | the index-weighted residual sum equals sumXY - slope*sumXX - intercept*sumX |
| Regression.FitPassesThroughMean | backend/server.js:61 | the fitted line passes through (sumX/n, sumY/n) |
| Regression.CollinearRecovered | backend/server.js:44-64 | rates a + b*i give exactly slope b and intercept a |
| Regression.ConstantSeriesIsFlat | backend/server.js:44-64 | a constant series of 2 or more points gives slope 0 and intercept equal to the constant |
| Regression.CollinearSolvesNormalEquations | backend/server.js:53-58 | the line a + b*i has all residuals zero on rates a + b*i, so it satisfies both normal equations |
| Regression.ThreeRisingRates | backend/server.js:44-64 | rates 6.5, 7.0, 7.5 give slope 0.5 and intercept 6.5 |
| JsMath.Round | backend/server.js:76 | `Math.round` returns the integer within half a unit, with halves rounded up |
| JsMath.RoundUnique | backend/server.js:76 | exactly one integer lies in the rounding interval, so that contract determines `Math.round` |
| JsMath.RoundOfInteger | backend/server.js:156 | an integer rounds to itself |
| JsMath.Max | backend/server.js:75 | `Math.max` is an upper bound equal to one of its arguments |
| JsMath.Min | backend/server.js:75 | `Math.min` is a lower bound equal to one of its arguments |
| Confidence.CalculateConfidence | backend/server.js:67-77 | the score is an integer in [0, 100], and exactly 50 when the series has fewer than 3 points |
| Confidence.ComputeConfidence | backend/server.js:70-76 | the `reduce` over squared deviations, as a loop, gives the same score |
| Confidence.Score | backend/server.js:75-76 | clamping `100 - 10*variance` to [0, 100] and rounding gives an integer in [0, 100] |
| Confidence.Variance | backend/server.js:70-73 | the mean of the squared deviations from the prediction is never negative |
| Confidence.VarianceNonNegative | backend/server.js:70-73 | the mean squared deviation is never negative |
| Confidence.VarianceZeroIff | backend/server.js:70-73 | the variance is 0 exactly when every rate equals the prediction |
| Confidence.ExactSeriesHasZeroVariance | backend/server.js:70-73 | if every rate equals the prediction, the variance is 0 |
| Confidence.ZeroVarianceMeansExact | backend/server.js:70-73 | a variance of 0 means every rate equals the prediction |
| Confidence.ScoreAntitone | backend/server.js:75-76 | a larger variance never gives a larger score |
| Confidence.ScoreUnclamped | backend/server.js:75-76 | for variances in [0, 10] the score is the rounded `100 - 10*variance` |
| Confidence.ScoreFullIff | backend/server.js:75-76 | the score is 100 exactly when the variance is at most 0.05 |
| Confidence.ScoreZeroIff | backend/server.js:75-76 | the score is 0 exactly when the variance exceeds 9.95 |
| Confidence.ExactSeriesScoresFull | backend/server.js:68-76 | with 3 or more points, a prediction equal to every rate scores 100 |
| Confidence.FullScoreBoundsVariance | backend/server.js:68-76 | with 3 or more points, a score of 100 holds exactly when the variance is at most 0.05 |
| Confidence.ConfidenceAntitone | backend/server.js:68-76 | if every squared deviation grows or stays the same, the score of a same-length series never rises |
| Forecast.Matching | backend/server.js:133 | the query returns exactly the stored rates of the requested bank and tenure |
| Forecast.MatchingAppend | backend/server.js:133 | filtering a concatenation filters each part |
| Forecast.MatchingKeepsOrder | backend/server.js:133-134 | filtering a date-ordered store keeps the date order |
| Forecast.Window | backend/server.js:133-135 | the window holds at most 50 rows and is a prefix of the matching rows: all of them, or the first 50 |
| Forecast.ToSeries | backend/server.js:143-146 | the series has one point per row, carrying that row's date and interest rate |
| Forecast.RoundToCents | backend/server.js:156 | the result is a whole number of cents, and rounding to cents moves the value by at most half a cent |
| Forecast.RoundToCentsUnique | backend/server.js:156 | any whole number of cents within half a cent of the value (half-cents going up) is the rounded value |
| Forecast.RoundToCentsIdempotent | backend/server.js:156 | rounding an already rounded value changes nothing |
| Forecast.ReportedRate | backend/server.js:154-157 | the reported rate is >= 0 and a whole number of cents; for a non-negative projection it is within half a cent of it; every negative projection is reported as 0 |
| Forecast.TrendOf | backend/server.js:174-179 | the trend is increasing, decreasing or stable exactly when the slope is > 0, < 0 or = 0, with no tolerance |
| Forecast.TrendLabel | backend/server.js:176-179 | the label is "increasing", "decreasing" or "stable" exactly for an Increasing, Decreasing or Stable trend |
| Forecast.TrendLabelInjective | backend/server.js:174-179 | different trends get different labels |
| Forecast.RawProjection | backend/server.js:152-153 | the projection at `nextPeriod = n` lies one slope above the line's value at the last index n-1 |
| Forecast.Project | backend/server.js:137-182 | the computation fails exactly when the windowed series has fewer than 2 points |
| Forecast.Predict | backend/server.js:133-182 | the handler fails exactly when the window holds fewer than 2 rows |
| Forecast.OnlyInsufficientDataFails | backend/server.js:137-150 | the only error ever produced is the insufficient-data one; the "Unable to calculate prediction" branch is unreachable |
| Forecast.ProjectionFacts | backend/server.js:152-182 | on success: the prediction is the rounded, floored value of the line at index n, and it is >= 0; the confidence comes from the unrounded value; the trend follows the slope sign both ways; the series used is echoed back |
| Forecast.PredictFacts | backend/server.js:133-182 | with 2 or more rows in the window the handler succeeds; the response uses between 2 and 50 stored rates, all of the requested bank and tenure; the saved record repeats the response's prediction, confidence and point count |
| Forecast.ConstantSeriesForecast | backend/server.js:152-179 | a constant series is stable and projects its own value; with 3 or more points it scores 100 |
| Forecast.NewerRatesIgnored | backend/server.js:133-135 | once 50 matching rates are stored, adding newer ones does not change the answer |
| Forecast.NewerRatesOutsideWindow | backend/server.js:133-135 | once 50 matching rates are stored, adding newer ones leaves the window unchanged |
| Forecast.OlderRateDisplacesNewest | backend/server.js:133-135 | a matching rate older than a full window enters it and pushes out its newest row |
| Forecast.RisingSeries | backend/server.js:137-182 | rates 6.5, 7.0, 7.5 give prediction 8.00, confidence 88, trend increasing, 3 points |
| Forecast.FlatPair | backend/server.js:137-182 | rates 7.0, 7.0 give prediction 7.00, trend stable, confidence 50 |
| Forecast.SinglePointRefused | backend/server.js:137-141 | a single point gives the insufficient-data error |
| Forecast.FallingSeriesFloored | backend/server.js:137-182 | rates 10, 5, 0 project to -5; this is reported as 0, with trend decreasing and confidence 0 |
| Chart.ViewOf | frontend/src/components/FDTrendPredictor.jsx:101-102 | the stored prediction state carries the response's prediction and, always present, its historical series |
| Chart.GetChartData | frontend/src/components/FDTrendPredictor.jsx:175-193 | with no prediction or no `historicalData` the chart is empty. Otherwise entry i has index i+1, the formatted date, the same rate and type Historical, followed by one Predicted entry with index length+1 and the predicted rate |
| Chart.ChartContents | frontend/src/components/FDTrendPredictor.jsx:175-193 | the plotted rates are the historical rates in order followed by the prediction; indices run 1..n+1; only the last point has type Predicted |
| Chart.ChartOfPrediction | frontend/src/components/FDTrendPredictor.jsx:175-193 | with 2 or more rows in the window the handler succeeds, and its chart has dataPoints + 1 <= 51 points, and its last point sits at the reported, non-negative rate |
| Chart.BankNameOf | frontend/src/components/FDTrendPredictor.jsx:62 | a string names itself, an object gives its `bankName` field, and a `null` entry throws |
| Chart.NormaliseBanks | frontend/src/components/FDTrendPredictor.jsx:61-63 | the mapping throws exactly when some entry is `null`; otherwise it keeps the length, a string maps to itself and an object maps to its `bankName` |
| Chart.FetchBanks | frontend/src/components/FDTrendPredictor.jsx:61-66 | with a `null` entry the error is caught and the state is unchanged; otherwise the bank list becomes the normalised names, a non-empty list selects its first name, and an empty one leaves the selection alone |
| Chart.PlainNamesUnchanged | frontend/src/components/FDTrendPredictor.jsx:61-66 | a list of plain names comes back unchanged, and its first name is selected |
| Chart.SelectionIsListed | frontend/src/components/FDTrendPredictor.jsx:61-66 | after a non-empty fetch the selected bank is one of the listed names, unless a `null` entry left the state unchanged |

## Left out

- Express routing, status codes, CORS, JSON parsing and server start-up. Only the shape of the predict answer is modelled: a response, or an error message.
- MongoDB. The store is a sequence of rates. The `sort({ date: 1 })` is the database's job and is taken as given: the store is read in the order the query returns it. `Forecast.MatchingKeepsOrder` shows that the filter keeps that order. Saving the `Prediction` document is modelled only as the record the handler builds.
- `predictionDate` and the `date` default come from the clock and are not modelled.
- The seed route is not modelled. It depends on `Math.random` and the current date.
- Authentication routes, `App.js` and `Navbar.js` are not part of this model. They are foreign library calls, browser storage and UI.
- React state hooks, `fetch`, alerts and rendering in `FDTrendPredictor.jsx` are not modelled. Only `getChartData` and the bank normalisation are.
- Bank-list entries other than strings, objects and `null` (numbers, booleans, arrays) are not modelled. `/api/banks` returns the distinct values of the required string field `bankName` (backend/server.js:119-122).
- `new Date(d.date).toLocaleDateString()` is a parameter `format` of `Chart.GetChartData`, because its output depends on locale and time zone.
- JavaScript numbers are modelled as exact reals. IEEE-754 rounding of the sums, the division and `predictedRate * 100` is not modelled. So near a half-cent or near a score boundary, the code can round differently from the model. The trend test compares the floating-point slope with 0 exactly, so a constant series can get a slope of about ±1e-15 in doubles (five rates of 6.1, for example) and be labelled decreasing or increasing. `Regression.ConstantSeriesIsFlat`, `Forecast.ConstantSeriesForecast` and `Forecast.TrendOf` hold over exact reals only.

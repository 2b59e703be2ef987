/** The two pure list transformations of the predictor page
  (frontend/src/components/FDTrendPredictor.jsx): the chart series built from
  the last prediction (`getChartData`) and the bank-name normalisation done
  when the bank list arrives (`fetchBanks`).

  `new Date(d.date).toLocaleDateString()` depends on the browser's locale and
  time zone, so it is a parameter `format` of the model.
 */
module Chart {
  import opened Wrappers
  import opened Regression
  import opened Forecast

  /** The chart's `type` field, 'Historical' or 'Predicted'. */
  datatype PointKind = Historical | Predicted

  /** The `date` of the projected point. */
  const PredictedDate := "Predicted"

  /** One point of the chart series. */
  datatype ChartPoint = ChartPoint(index: int, date: string, rate: real, kind: PointKind)

  /** The `prediction` state as the page sees it after parsing a response;
      `historicalData` is absent when the body carried none. */
  datatype PredictionView = PredictionView(prediction: real, historicalData: Option<seq<DataPoint>>)

  /** `setPrediction(data)` with a successful response body. */
  function ViewOf(resp: PredictResponse): (v: PredictionView)
    ensures v.prediction == resp.prediction
    ensures v.historicalData == Some(resp.historicalData)
  {
    PredictionView(resp.prediction, Some(resp.historicalData))
  }

  /** `getChartData()`: one point per historical rate, numbered from 1, then
      the projection. No prediction, or one without `historicalData`, gives
      an empty chart; an empty `historicalData` array is present (it is
      truthy) and gives a chart of just the projection. */
  function GetChartData(state: Option<PredictionView>, format: int -> string): (r: seq<ChartPoint>)
    ensures state.None? || state.value.historicalData.None? ==> r == []
    ensures state.Some? && state.value.historicalData.Some? ==>
      var h := state.value.historicalData.value;
      && |r| == |h| + 1
      && (forall i :: 0 <= i < |h| ==>
            r[i] == ChartPoint(i + 1, format(h[i].date), h[i].rate, Historical))
      && r[|h|] == ChartPoint(|h| + 1, PredictedDate, state.value.prediction, Predicted)
  {
    match state
    case None => []
    case Some(view) =>
      match view.historicalData
      case None => []
      case Some(h) =>
        var historical := seq(|h|, i requires 0 <= i < |h| =>
          ChartPoint(i + 1, format(h[i].date), h[i].rate, Historical));
        historical + [ChartPoint(|historical| + 1, PredictedDate, view.prediction, Predicted)]
  }

  /** The chart loses no rate: it has one point per historical rate, in
      order, followed by the prediction, and the projected point is the only
      one of kind Predicted. Indices run 1, 2, ... without gaps. */
  lemma ChartContents(view: PredictionView, format: int -> string)
    requires view.historicalData.Some?
    ensures var r, h := GetChartData(Some(view), format), view.historicalData.value;
      && |r| == |h| + 1
      && (forall i :: 0 <= i < |h| ==> r[i].rate == h[i].rate)
      && r[|h|].rate == view.prediction
      && (forall i :: 0 <= i < |r| ==> r[i].index == i + 1)
      && (forall i :: 0 <= i < |r| ==> (r[i].kind == Predicted <==> i == |r| - 1))
  {
  }

  /** When the window holds two or more rows the handler succeeds, and the
      chart of its answer has one point per rate used (at most 50) plus the
      projection, which is plotted at the reported, non-negative rate. */
  lemma ChartOfPrediction(store: seq<FDRate>, bankName: string, tenure: int, format: int -> string)
    requires |Window(store, bankName, tenure)| >= MinPoints
    ensures Predict(store, bankName, tenure).Success?
    ensures var o := Predict(store, bankName, tenure).value;
      var r := GetChartData(Some(ViewOf(o.response)), format);
      && |r| == o.response.dataPoints + 1 <= WindowSize + 1
      && r[|r| - 1].rate == o.response.prediction >= 0.0
      && r[|r| - 1].index == o.response.dataPoints + 1
  {
    PredictFacts(store, bankName, tenure);
    ProjectionFacts(ToSeries(Window(store, bankName, tenure)));
  }

  // ---------------------------------------------------------------------------
  // Bank list.
  // ---------------------------------------------------------------------------

  /** An element of the `/api/banks` body: a bank name, an object whose
      `bankName` may be missing (`undefined`), or `null`. */
  datatype BankEntry = BankString(name: string) | BankObject(bankName: Option<string>) | BankNull

  /** The name of a bank entry: a plain string is the name itself, an object
      gives its `bankName` field. Reading `bankName` of `null` throws, which
      is `None` here. */
  function BankNameOf(bank: BankEntry): (r: Option<Option<string>>)
    ensures r.None? <==> bank.BankNull?
    ensures bank.BankString? ==> r == Some(Some(bank.name))
    ensures bank.BankObject? ==> r == Some(bank.bankName)
  {
    match bank
    case BankString(name) => Some(Some(name))
    case BankObject(field) => Some(field)
    case BankNull => None
  }

  /** Whether the list holds a `null` entry, on which the name mapping
      throws. */
  predicate HasNull(data: seq<BankEntry>) {
    exists i :: 0 <= i < |data| && data[i].BankNull?
  }

  /** `data.map(...)` over the bank list: the names, or `None` when the
      mapping throws. */
  function NormaliseBanks(data: seq<BankEntry>): (names: Option<seq<Option<string>>>)
    ensures names.None? <==> HasNull(data)
    ensures names.Some? ==> |names.value| == |data|
    ensures names.Some? ==> forall i :: 0 <= i < |data| ==>
      (data[i].BankString? ==> names.value[i] == Some(data[i].name))
      && (data[i].BankObject? ==> names.value[i] == data[i].bankName)
  {
    if HasNull(data) then None
    else Some(seq(|data|, i requires 0 <= i < |data| => BankNameOf(data[i]).value))
  }

  /** The page state `fetchBanks` writes: the bank list and the selected bank
      (initially the empty string). */
  datatype BankPicker = BankPicker(banks: seq<Option<string>>, selectedBank: Option<string>)

  /** Storing a fetched bank list: the normalised names replace the list,
      and when there is at least one name the first becomes the selection.
      When the mapping throws, the error is caught and nothing changes. */
  function FetchBanks(state: BankPicker, data: seq<BankEntry>): (s: BankPicker)
    ensures HasNull(data) ==> s == state
    ensures !HasNull(data) ==> s.banks == NormaliseBanks(data).value
    ensures !HasNull(data) && |data| > 0 ==> Some(s.selectedBank) == BankNameOf(data[0])
    ensures !HasNull(data) && |data| == 0 ==> s.selectedBank == state.selectedBank
  {
    match NormaliseBanks(data)
    case None => state
    case Some(names) => BankPicker(names, if |names| > 0 then names[0] else state.selectedBank)
  }

  /** A list of plain names, which is what `/api/banks` sends, comes back
      unchanged, and the first one is selected. */
  lemma PlainNamesUnchanged(state: BankPicker, names: seq<string>)
    ensures var s := FetchBanks(state, seq(|names|, i requires 0 <= i < |names| => BankString(names[i])));
      && |s.banks| == |names|
      && (forall i :: 0 <= i < |names| ==> s.banks[i] == Some(names[i]))
      && (|names| > 0 ==> s.selectedBank == Some(names[0]))
  {
    var data := seq(|names|, i requires 0 <= i < |names| => BankString(names[i]));
    assert !HasNull(data);
  }

  /** After a non-empty fetch without `null` entries the selection is one of
      the listed banks; with a `null` entry the page state is untouched. */
  lemma SelectionIsListed(state: BankPicker, data: seq<BankEntry>)
    requires |data| > 0
    ensures HasNull(data) ==> FetchBanks(state, data) == state
    ensures !HasNull(data) ==> FetchBanks(state, data).selectedBank in FetchBanks(state, data).banks
  {
    if !HasNull(data) {
      assert FetchBanks(state, data).banks[0] == FetchBanks(state, data).selectedBank;
    }
  }
}

/** The dashboard component: its state, the reference data it loads on mount,
    and the handlers behind the prediction, classification and recommendation
    buttons and the file picker. Each asynchronous handler is split into the
    part that runs on the click and the part that runs when its awaited work
    settles; what that work produces (random draws, the transport outcome, the
    CSV fetch) is an input. */
module App {
  import opened Base
  import opened JsValue
  import ApiService
  import CsvNames

  const FillAllFields: string := "Por favor completa todos los campos"
  const ClassifyFailed: string := "Error al clasificar la imagen"
  const CsvFailed: string := "Error al obtener recomendaciones desde CSV"

  const BaseLabel: string := "Predicción Base"
  const AdjustedLabel: string := "Predicción Ajustada"
  const FinalLabel: string := "Predicción Final"

  const StoreCount: nat := 45

  /** The store numbers offered in the store selector: 1 to 45. */
  function ValidStores(): (r: seq<int>)
    ensures |r| == StoreCount
    ensures forall i, j :: 0 <= i < j < |r| ==> r[i] < r[j]
    ensures forall x :: x in r <==> 1 <= x <= StoreCount
  {
    var r := seq(StoreCount, i => i + 1);
    CountingListsRange(r);
    r
  }

  /** A list counting up from 1 holds exactly the numbers 1 to its length. */
  lemma CountingListsRange(r: seq<int>)
    requires forall i :: 0 <= i < |r| ==> r[i] == i + 1
    ensures forall x :: x in r <==> 1 <= x <= |r|
  {
    forall x | 1 <= x <= |r|
      ensures x in r
    {
      assert r[x - 1] == x;
    }
  }

  /** The department numbers offered in the department selector, in the order
      they are listed (four of them appended out of order at the end). */
  function ValidDepartments(): (r: seq<int>)
    ensures |r| == 81
  {
    [ 1, 2, 3, 4, 5, 6, 7, 8, 9, 10, 11, 12, 13, 14, 16, 17, 18, 19,
      20, 21, 22, 23, 24, 25, 26, 27, 28, 29, 30, 31, 32, 33, 34, 35,
      36, 37, 38, 40, 41, 42, 44, 45, 46, 47, 48, 49, 51, 52, 54, 55,
      56, 58, 59, 60, 67, 71, 72, 74, 77, 78, 79, 80, 81, 82, 83, 85,
      87, 90, 91, 92, 93, 94, 95, 96, 97, 98, 99, 39, 50, 43, 65 ]
  }

  const MinDate: string := "2010-02-05"
  const MaxDate: string := "2013-07-26"

  datatype ValidData = ValidData(stores: seq<int>, departments: seq<int>, minDate: string, maxDate: string)

  /** The reference data built on mount. */
  function LoadValidData(): (d: ValidData)
    ensures forall x :: x in d.stores <==> 1 <= x <= StoreCount
    ensures |d.departments| == 81
    ensures d.minDate == MinDate && d.maxDate == MaxDate
  {
    ValidData(ValidStores(), ValidDepartments(), MinDate, MaxDate)
  }

  /** The three `Math.random()` results a prediction consumes, already scaled:
      the base prediction, the month factor and the recent trend. */
  datatype Draw = Draw(basePrediction: real, monthFactor: real, recentTrend: real)

  /** The ranges the scaled draws fall in: `Math.random()` is in [0, 1). */
  predicate DrawInRange(d: Draw)
  {
    && 40000.0 <= d.basePrediction < 45000.0
    && 1.0 <= d.monthFactor < 1.05
    && 45000.0 <= d.recentTrend < 48000.0
  }

  /** The prediction object the handler builds. The store and department are
      kept as the selected text. */
  datatype Prediction = Prediction(
    store: string,
    department: string,
    date: string,
    predictedSales: real,
    basePrediction: real,
    dayOfWeekFactor: real,
    monthFactor: real,
    recentTrend: real,
    adjustedPrediction: real,
    lowerBound: real,
    upperBound: real)

  function MakePrediction(store: string, dept: string, date: string, d: Draw): Prediction
  {
    var adjusted := d.basePrediction * d.monthFactor;
    var predicted := (d.basePrediction + adjusted + d.recentTrend) / 3.0;
    Prediction(store, dept, date, predicted, d.basePrediction, 1.0, d.monthFactor,
               d.recentTrend, adjusted, predicted * 0.95, predicted * 1.1)
  }

  /** A point of the sales chart: its label and its `ventas` value. */
  datatype ChartPoint = ChartPoint(name: string, sales: real)

  function ChartFor(p: Prediction): seq<ChartPoint>
  {
    [ ChartPoint(BaseLabel, p.basePrediction),
      ChartPoint(AdjustedLabel, p.adjustedPrediction),
      ChartPoint(FinalLabel, p.predictedSales) ]
  }

  /** The component's state. Optional values that start as `null` are `None`,
      except the classification result, which holds whatever JSON the service
      returned. */
  datatype UiState = UiState(
    selectedStore: string,
    selectedDept: string,
    selectedDate: string,
    salesPrediction: Option<Prediction>,
    salesChartData: seq<ChartPoint>,
    recommendations: seq<CsvNames.Recommendation>,
    classificationResult: Value,
    selectedFile: Option<ApiService.File>,
    classificationLoading: bool,
    loading: bool,
    error: Option<string>)

  function Initial(): (s: UiState)
    ensures s.selectedStore == "" && s.selectedDept == "" && s.selectedDate == ""
    ensures s.salesPrediction.None? && s.salesChartData == [] && s.recommendations == []
    ensures s.classificationResult == Null && s.selectedFile.None?
    ensures !s.loading && !s.classificationLoading && s.error.None?
  {
    UiState("", "", "", None, [], [], Null, None, false, false, None)
  }

  /** What a handler leaves behind when its click returns: either the final
      state, or a state that waits for awaited work to settle. */
  datatype Step = Settled(state: UiState) | Pending(state: UiState)

  // ---------------------------------------------------------------- prediction

  /** The prediction button is disabled while `loading` is set. */
  predicate PredictEnabled(s: UiState)
  {
    !s.loading
  }

  predicate MissingField(s: UiState)
  {
    s.selectedStore == "" || s.selectedDept == "" || s.selectedDate == ""
  }

  /** The click half of the prediction handler. */
  function PredictSubmit(s: UiState): (step: Step)
    ensures step.Settled? <==> MissingField(s)
    ensures step.Settled? ==> step.state == s.(error := Some(FillAllFields))
    ensures step.Pending? ==> step.state == s.(loading := true, error := None)
  {
    if MissingField(s) then Settled(s.(error := Some(FillAllFields)))
    else Pending(s.(loading := true, error := None))
  }

  /** The half that runs after the delay, with the draws it makes. */
  function PredictSettle(t: UiState, d: Draw): UiState
  {
    var p := MakePrediction(t.selectedStore, t.selectedDept, t.selectedDate, d);
    t.(salesPrediction := Some(p), salesChartData := ChartFor(p), loading := false)
  }

  /** The whole prediction handler from a click to its final state. */
  function HandlePredictSales(s: UiState, d: Draw): (r: UiState)
    ensures MissingField(s) ==> r == s.(error := Some(FillAllFields))
    ensures !MissingField(s) ==>
      && r.error.None? && !r.loading
      && r.salesPrediction.Some?
      && r.salesPrediction.value.store == s.selectedStore
      && r.salesPrediction.value.department == s.selectedDept
      && r.salesPrediction.value.date == s.selectedDate
      && r == s.(salesPrediction := r.salesPrediction, salesChartData := r.salesChartData,
                 loading := false, error := None)
    ensures !MissingField(s) ==>
      var p := r.salesPrediction.value;
      && p.basePrediction == d.basePrediction && p.recentTrend == d.recentTrend
      && p.monthFactor == d.monthFactor && p.dayOfWeekFactor == 1.0
      && p.adjustedPrediction == d.basePrediction * d.monthFactor
      && 3.0 * p.predictedSales == p.basePrediction + p.adjustedPrediction + p.recentTrend
      && p.lowerBound == 0.95 * p.predictedSales && p.upperBound == 1.1 * p.predictedSales
    ensures !MissingField(s) ==>
      var c := r.salesChartData;
      && |c| == 3
      && c[0] == ChartPoint(BaseLabel, r.salesPrediction.value.basePrediction)
      && c[1] == ChartPoint(AdjustedLabel, r.salesPrediction.value.adjustedPrediction)
      && c[2] == ChartPoint(FinalLabel, r.salesPrediction.value.predictedSales)
  {
    match PredictSubmit(s)
    case Settled(t) => t
    case Pending(t) => PredictSettle(t, d)
  }

  /** Between the click and the settle, neither the prediction button nor the
      recommendation button, which share the flag, accepts another click. */
  lemma PendingPredictionBlocksButtons(s: UiState)
    ensures PredictSubmit(s).Pending? ==> !PredictEnabled(PredictSubmit(s).state)
    ensures PredictSubmit(s).Pending? ==> !RecommendEnabled(PredictSubmit(s).state)
  {
  }

  /** Between the click and the settle, the classify button, disabled by its
      own loading flag, accepts no other click. */
  lemma PendingClassificationBlocksButton(s: UiState)
    ensures ClassifySubmit(s).Pending? ==> !ClassifyEnabled(ClassifySubmit(s).state)
  {
  }

  /** With draws in the documented ranges, the final prediction is positive,
      lies strictly inside its confidence bounds, and the adjusted prediction
      is at least the base one. */
  lemma PredictionWithinBounds(store: string, dept: string, date: string, d: Draw)
    requires DrawInRange(d)
    ensures var p := MakePrediction(store, dept, date, d);
      && p.basePrediction <= p.adjustedPrediction
      && 0.0 < p.lowerBound < p.predictedSales < p.upperBound
  {
    var b, m := d.basePrediction, d.monthFactor;
    assert b * m - b == b * (m - 1.0);
    assert b * (m - 1.0) >= 0.0;
  }

  // ------------------------------------------------------------ classification

  /** The classify button exists only with a file selected and is disabled
      while a classification is in flight. */
  predicate ClassifyEnabled(s: UiState)
  {
    s.selectedFile.Some? && !s.classificationLoading
  }

  /** The click half of the classification handler. */
  function ClassifySubmit(s: UiState): (step: Step)
    ensures s.selectedFile.None? <==> step == Settled(s)
    ensures step.Pending? ==>
      step.state == s.(classificationLoading := true, error := None, classificationResult := Null)
  {
    if s.selectedFile.None? then Settled(s)
    else Pending(s.(classificationLoading := true, error := None, classificationResult := Null))
  }

  /** The half that runs when the service call settles, including `finally`. */
  function ClassifySettle(t: UiState, outcome: Result<Value, ApiService.Thrown>): UiState
  {
    match outcome
    case Success(v) => t.(classificationResult := v, classificationLoading := false)
    case Failure(_) => t.(error := Some(ClassifyFailed), classificationLoading := false)
  }

  /** The whole classification handler; `transport` is what the upload of the
      selected file came back with. */
  function HandleClassifyImage(s: UiState, transport: ApiService.Transport): (r: UiState)
    ensures s.selectedFile.None? ==> r == s
    ensures s.selectedFile.Some? ==>
      && !r.classificationLoading
      && r == s.(classificationResult := r.classificationResult, classificationLoading := false,
                 error := r.error)
    ensures s.selectedFile.Some? && ApiService.Outcome(transport).Success? ==>
      r.classificationResult == ApiService.Outcome(transport).value && r.error.None?
    ensures s.selectedFile.Some? && ApiService.Outcome(transport).Failure? ==>
      r.classificationResult == Null && r.error == Some(ClassifyFailed)
    ensures s.selectedFile.Some? && r.error.None? ==>
      transport.Delivered? && transport.response.Ok()
  {
    match ClassifySubmit(s)
    case Settled(t) => t
    case Pending(t) =>
      ClassifySettle(t, ApiService.ClassifyImage(s.selectedFile.value, transport).outcome)
  }

  /** Picking a file (or cancelling, which yields none) replaces the selection
      and clears the previous classification result. */
  function FileChange(s: UiState, f: Option<ApiService.File>): (r: UiState)
    ensures r.selectedFile == f && r.classificationResult == Null
    ensures r.(selectedFile := s.selectedFile, classificationResult := s.classificationResult) == s
  {
    s.(selectedFile := f, classificationResult := Null)
  }

  // ----------------------------------------------------------- recommendations

  /** The recommendation button shares the prediction button's flag. */
  predicate RecommendEnabled(s: UiState)
  {
    !s.loading
  }

  /** What fetching the bundled CSV file produced. */
  datatype CsvFetch = CsvUnreachable | CsvResponse(ok: bool, text: string)

  /** The items read from the fetched CSV, or `None` for any of the handler's
      failures: no response, a non-ok status, no lines, no `name` column. */
  function CsvItems(f: CsvFetch): (r: Option<seq<CsvNames.Item>>)
    ensures r.Some? <==> f.CsvResponse? && f.ok && CsvNames.ExtractNames(f.text).Success?
    ensures r.Some? ==> r.value == CsvNames.ExtractNames(f.text).value
  {
    if f.CsvResponse? && f.ok then
      match CsvNames.ExtractNames(f.text)
      case Success(items) => Some(items)
      case Failure(_) => None
    else None
  }

  /** The click half of the recommendation handler. */
  function RecommendSubmit(s: UiState): UiState
  {
    s.(loading := true, error := None)
  }

  /** The half that runs after the delay, with the CSV fetch result and the
      draws the shuffle consumes. */
  function RecommendSettle(t: UiState, f: CsvFetch, draws: seq<nat>): UiState
  {
    match CsvItems(f)
    case Some(items) =>
      t.(recommendations := CsvNames.Select(CsvNames.Shuffle(items, draws)), loading := false)
    case None => t.(error := Some(CsvFailed), loading := false)
  }

  /** The whole recommendation handler from a click to its final state. */
  function HandleGetRecommendations(s: UiState, f: CsvFetch, draws: seq<nat>): (r: UiState)
    ensures !r.loading
    ensures r == s.(recommendations := r.recommendations, loading := false, error := r.error)
    ensures r.error.None? <==> CsvItems(f).Some?
    ensures CsvItems(f).None? ==> r.error == Some(CsvFailed) && r.recommendations == s.recommendations
    ensures CsvItems(f).Some? ==>
      var items := CsvItems(f).value;
      && |r.recommendations| == Min(CsvNames.MaxShown, |items|)
      && (forall i :: 0 <= i < |r.recommendations| ==> r.recommendations[i].id == i)
      && multiset(CsvNames.ItemsOf(r.recommendations)) <= multiset(items)
      && (|items| <= CsvNames.MaxShown ==> multiset(CsvNames.ItemsOf(r.recommendations)) == multiset(items))
  {
    var r := RecommendSettle(RecommendSubmit(s), f, draws);
    if CsvItems(f).Some? then
      CsvNames.RecommendationsFromItems(CsvItems(f).value, draws);
      r
    else r
  }

  // ------------------------------------------------------------------ sessions

  /** Everything a user can do, with what the awaited work produces. */
  datatype Action =
    | SelectStore(store: string)
    | SelectDept(dept: string)
    | SelectDate(date: string)
    | PredictSales(draw: Draw)
    | PickFile(file: Option<ApiService.File>)
    | ClassifyImage(transport: ApiService.Transport)
    | GetRecommendations(fetch: CsvFetch, draws: seq<nat>)

  /** One action run to completion. A click on a disabled or absent button
      does nothing. */
  function Apply(s: UiState, a: Action): UiState
  {
    match a
    case SelectStore(v) => s.(selectedStore := v)
    case SelectDept(v) => s.(selectedDept := v)
    case SelectDate(v) => s.(selectedDate := v)
    case PredictSales(d) => if PredictEnabled(s) then HandlePredictSales(s, d) else s
    case PickFile(f) => FileChange(s, f)
    case ClassifyImage(t) => if ClassifyEnabled(s) then HandleClassifyImage(s, t) else s
    case GetRecommendations(f, draws) =>
      if RecommendEnabled(s) then HandleGetRecommendations(s, f, draws) else s
  }

  function Run(s: UiState, actions: seq<Action>): UiState
    decreases |actions|
  {
    if |actions| == 0 then s else Run(Apply(s, actions[0]), actions[1..])
  }

  /** The state every completed action leaves: nothing in flight, the error is
      one of the handlers' messages, the chart is empty or the three labelled
      points, and the recommendations are numbered from 0 and at most five. */
  predicate WellFormed(s: UiState)
  {
    && !s.loading && !s.classificationLoading
    && (s.error.None? || s.error.value in {FillAllFields, ClassifyFailed, CsvFailed})
    && (s.salesChartData == [] ||
        (|s.salesChartData| == 3
         && s.salesChartData[0].name == BaseLabel
         && s.salesChartData[1].name == AdjustedLabel
         && s.salesChartData[2].name == FinalLabel))
    && |s.recommendations| <= CsvNames.MaxShown
    && (forall i :: 0 <= i < |s.recommendations| ==> s.recommendations[i].id == i)
  }

  lemma ApplyKeepsWellFormed(s: UiState, a: Action)
    requires WellFormed(s)
    ensures WellFormed(Apply(s, a))
  {
    match a
    case GetRecommendations(f, draws) =>
      var r := HandleGetRecommendations(s, f, draws);
      assert |r.recommendations| <= CsvNames.MaxShown;
    case _ =>
  }

  /** From the initial state, any sequence of completed actions leaves a
      well-formed state. */
  lemma {:induction false} RunKeepsWellFormed(s: UiState, actions: seq<Action>)
    requires WellFormed(s)
    ensures WellFormed(Run(s, actions))
    decreases |actions|
  {
    if |actions| > 0 {
      ApplyKeepsWellFormed(s, actions[0]);
      RunKeepsWellFormed(Apply(s, actions[0]), actions[1..]);
    }
  }

  lemma SessionsStayWellFormed(actions: seq<Action>)
    ensures WellFormed(Run(Initial(), actions))
  {
    RunKeepsWellFormed(Initial(), actions);
  }
}

/**
 * Model of `app/api/run-python/route.ts`: the POST handler that validates
 * the request, stages the uploaded CSV file, and turns a small JSON chart
 * instruction plus the parsed CSV rows into a Chart.js configuration.
 *
 * Library calls are parameters of the model:
 *  - `parse` is `JSON.parse` applied to the instruction text; `None` means
 *    it threw, or that reading a field of its result would throw;
 *  - `parseFloat` is JavaScript's `parseFloat` on `row[yAxis]`;
 *  - `csvRows` is the base64 decode, UTF-8 read and `Papa.parse` of the
 *    file content, giving one map from column name to cell per data row.
 */
module RunPythonRoute {
  import opened Wrappers
  import Js

  /** The chart instruction object; every field may be absent. */
  datatype Instructions = Instructions(
    chartType: Option<string>,
    xAxis: Option<string>,
    yAxis: Option<string>,
    title: Option<string>,
    color: Option<string>,
    borderColor: Option<string>)

  /** A parsed CSV row: column name to cell text. */
  type Row = map<string, string>

  const DefaultChartType: string := "bar"
  const DefaultBackgroundColor: string := "rgba(75, 192, 192, 0.2)"
  const DefaultBorderColor: string := "rgba(75, 192, 192, 1)"
  const DefaultTitle: string := "Chart"
  const MissingFileData: string := "Missing file data"
  const FailedToProcess: string := "Failed to process data"

  /** One Chart.js dataset (`datasetLabel` is the key `label`); `F` is whatever `parseFloat` returns. */
  datatype Dataset<F> = Dataset(
    datasetLabel: Option<string>,
    data: seq<F>,
    backgroundColor: string,
    borderColor: string,
    borderWidth: int)

  datatype ChartData<F> = ChartData(labels: seq<Option<string>>, datasets: seq<Dataset<F>>)
  datatype YScale = YScale(beginAtZero: bool)
  datatype Scales = Scales(y: YScale)
  datatype Title = Title(display: bool, text: string)
  datatype Plugins = Plugins(title: Title)
  datatype Options = Options(responsive: bool, scales: Scales, plugins: Plugins)

  /** A Chart.js configuration; `chartType` is the key `type`. */
  datatype ChartConfig<F> = ChartConfig(chartType: string, data: ChartData<F>, options: Options)

  /** `rows.map(f)`: one result per row, in row order. */
  function MapRows<T>(rows: seq<Row>, f: Row -> T): (r: seq<T>)
    ensures |r| == |rows|
    ensures forall i :: 0 <= i < |rows| ==> r[i] == f(rows[i])
  {
    if rows == [] then [] else [f(rows[0])] + MapRows(rows[1..], f)
  }

  /**
   * The label a row contributes: its cell in the x-axis column, or
   * undefined when the row has no such column.
   */
  function LabelOf(instr: Instructions): (f: Row -> Option<string>)
    ensures forall row :: f(row).Some? <==> Js.ToJsString(instr.xAxis) in row
    ensures forall row :: Js.ToJsString(instr.xAxis) in row ==> f(row) == Some(row[Js.ToJsString(instr.xAxis)])
  {
    row => Js.Get(row, Js.ToJsString(instr.xAxis))
  }

  /**
   * The value a row contributes: `parseFloat` of its cell in the y-axis
   * column, or of undefined when the row has no such column.
   */
  function ValueOf<F>(instr: Instructions, parseFloat: Option<string> -> F): (f: Row -> F)
    ensures forall row :: Js.ToJsString(instr.yAxis) in row ==> f(row) == parseFloat(Some(row[Js.ToJsString(instr.yAxis)]))
    ensures forall row :: Js.ToJsString(instr.yAxis) !in row ==> f(row) == parseFloat(None)
  {
    var key := Js.ToJsString(instr.yAxis);
    assert forall row :: Js.Get(row, key) == if key in row then Some(row[key]) else None;
    row => parseFloat(Js.Get(row, key))
  }

  /**
   * The configuration object that `processChartInstructions` builds once
   * `JSON.parse` has produced the instructions.
   */
  function BuildConfig<F>(instr: Instructions, rows: seq<Row>, parseFloat: Option<string> -> F): (r: ChartConfig<F>)
    // chart type: passed through when truthy, 'bar' otherwise
    ensures Js.Truthy(instr.chartType) ==> r.chartType == instr.chartType.value
    ensures !Js.Truthy(instr.chartType) ==> r.chartType == DefaultChartType
    // one label per row, in row order, read from the x-axis column
    ensures |r.data.labels| == |rows|
    ensures forall i :: 0 <= i < |rows| ==>
              r.data.labels[i] == Js.Get(rows[i], Js.ToJsString(instr.xAxis))
    // exactly one dataset, one value per row, labelled by the y-axis name
    ensures |r.data.datasets| == 1
    ensures |r.data.datasets[0].data| == |rows|
    ensures forall i :: 0 <= i < |rows| ==>
              r.data.datasets[0].data[i] == parseFloat(Js.Get(rows[i], Js.ToJsString(instr.yAxis)))
    ensures r.data.datasets[0].datasetLabel == instr.yAxis
    // colours: passed through when truthy, the teal defaults otherwise
    ensures Js.Truthy(instr.color) ==> r.data.datasets[0].backgroundColor == instr.color.value
    ensures !Js.Truthy(instr.color) ==> r.data.datasets[0].backgroundColor == DefaultBackgroundColor
    ensures Js.Truthy(instr.borderColor) ==> r.data.datasets[0].borderColor == instr.borderColor.value
    ensures !Js.Truthy(instr.borderColor) ==> r.data.datasets[0].borderColor == DefaultBorderColor
    // fields that never depend on the instructions
    ensures r.data.datasets[0].borderWidth == 1
    ensures r.options.responsive && r.options.scales.y.beginAtZero
    ensures r.options.plugins.title.display
    // title: passed through when truthy, 'Chart' otherwise
    ensures Js.Truthy(instr.title) ==> r.options.plugins.title.text == instr.title.value
    ensures !Js.Truthy(instr.title) ==> r.options.plugins.title.text == DefaultTitle
  {
    ChartConfig(
      Js.Or(instr.chartType, DefaultChartType),
      ChartData(
        MapRows(rows, LabelOf(instr)),
        [Dataset(
          instr.yAxis,
          MapRows(rows, ValueOf(instr, parseFloat)),
          Js.Or(instr.color, DefaultBackgroundColor),
          Js.Or(instr.borderColor, DefaultBorderColor),
          1)]),
      Options(true, Scales(YScale(true)), Plugins(Title(true, Js.Or(instr.title, DefaultTitle)))))
  }

  /**
   * `processChartInstructions(code, data)`: `None` when `JSON.parse(code)`
   * throws, which the caller turns into a 500 response.
   */
  function ProcessChartInstructions<F>(
    code: string, rows: seq<Row>,
    parse: string -> Option<Instructions>, parseFloat: Option<string> -> F): (r: Option<ChartConfig<F>>)
    ensures r.None? <==> parse(code).None?
    ensures r.Some? ==> r.value == BuildConfig(parse(code).value, rows, parseFloat)
  {
    match parse(code)
    case None => None
    case Some(instr) => Some(BuildConfig(instr, rows, parseFloat))
  }

  /** The points a chart shows: one (label, value) pair per label. */
  function Points<F>(c: ChartConfig<F>): seq<(Option<string>, F)>
    requires |c.data.datasets| >= 1
    requires |c.data.labels| == |c.data.datasets[0].data|
  {
    seq(|c.data.labels|, i requires 0 <= i < |c.data.labels| => (c.data.labels[i], c.data.datasets[0].data[i]))
  }

  /**
   * Labels and values stay aligned: the i-th point of the chart is the
   * x-column and the parsed y-column of the i-th row, so the chart has one
   * point per row, in row order.
   */
  lemma PointsFollowRows<F>(instr: Instructions, rows: seq<Row>, parseFloat: Option<string> -> F)
    ensures var c := BuildConfig(instr, rows, parseFloat);
      |c.data.datasets| == 1 && |c.data.labels| == |c.data.datasets[0].data| == |rows| &&
      Points(c) == MapRows(rows, row => (LabelOf(instr)(row), ValueOf(instr, parseFloat)(row)))
  {
  }

  /** Appending rows to the CSV appends their labels and values, and changes nothing else. */
  lemma MapRowsAppend<T>(a: seq<Row>, b: seq<Row>, f: Row -> T)
    ensures MapRows(a + b, f) == MapRows(a, f) + MapRows(b, f)
  {
  }

  lemma ConfigOfAppendedRows<F>(instr: Instructions, a: seq<Row>, b: seq<Row>, parseFloat: Option<string> -> F)
    ensures var ca, cb, c := BuildConfig(instr, a, parseFloat), BuildConfig(instr, b, parseFloat),
                             BuildConfig(instr, a + b, parseFloat);
      c.data.labels == ca.data.labels + cb.data.labels &&
      c.data.datasets[0].data == ca.data.datasets[0].data + cb.data.datasets[0].data &&
      c.chartType == ca.chartType && c.options == ca.options &&
      c.data.datasets[0].datasetLabel == ca.data.datasets[0].datasetLabel
  {
    MapRowsAppend(a, b, LabelOf(instr));
    MapRowsAppend(a, b, ValueOf(instr, parseFloat));
  }

  /** The JSON body sent by `POST`. */
  datatype RunRequest = RunRequest(code: Option<string>, fileName: Option<string>, fileContent: Option<string>)

  datatype RunBody<F> = Succeeded(chartConfig: ChartConfig<F>) | Failed(error: string)
  {
    /** The `success` field of the JSON body. */
    predicate Success() { Succeeded? }
  }

  datatype RunResponse<F> = RunResponse(status: int, body: RunBody<F>)

  /** The request lacks file data: the file name or the content is absent or empty. */
  predicate MissingFile(req: RunRequest)
    ensures MissingFile(req) <==>
              req.fileName == None || req.fileName == Some("") ||
              req.fileContent == None || req.fileContent == Some("")
  {
    !Js.Truthy(req.fileName) || !Js.Truthy(req.fileContent)
  }

  /**
   * `POST /api/run-python`. `body` is the result of `request.json()`
   * (`None`: it threw, or destructuring its result throws, as for the
   * JSON `null`). Besides the response it reports whether a temp
   * directory was created for the file (`staged`) and whether a cleanup
   * block ran (`cleanupRan`).
   */
  method Post<F>(
    body: Option<RunRequest>,
    csvRows: string -> seq<Row>,
    parse: string -> Option<Instructions>,
    parseFloat: Option<string> -> F)
    returns (resp: RunResponse<F>, staged: bool, cleanupRan: bool)
    // a body that is not JSON is a processing failure, and nothing was staged
    ensures body.None? ==> resp == RunResponse(500, Failed(FailedToProcess)) && !staged && cleanupRan
    // missing file data: 400, no temp directory, no cleanup needed
    ensures body.Some? && MissingFile(body.value) ==>
              resp == RunResponse(400, Failed(MissingFileData)) && !staged && !cleanupRan
    // otherwise the file is staged and always cleaned up again
    ensures body.Some? && !MissingFile(body.value) ==> staged
    ensures staged ==> cleanupRan
    // malformed instructions: 500
    ensures body.Some? && !MissingFile(body.value) && parse(Js.ToJsString(body.value.code)).None? ==>
              resp == RunResponse(500, Failed(FailedToProcess))
    // well-formed instructions: 200 with the configuration built from the file's rows
    ensures body.Some? && !MissingFile(body.value) && parse(Js.ToJsString(body.value.code)).Some? ==>
              resp == RunResponse(200, Succeeded(BuildConfig(parse(Js.ToJsString(body.value.code)).value,
                                                             csvRows(body.value.fileContent.value), parseFloat)))
    // the success flag and the status agree
    ensures resp.body.Success() <==> resp.status == 200
  {
    staged, cleanupRan := false, false;
    if body.None? {
      // request.json() threw: the catch block cleans up (nothing exists) and answers 500
      cleanupRan := true;
      return RunResponse(500, Failed(FailedToProcess)), staged, cleanupRan;
    }
    var req := body.value;
    if !Js.Truthy(req.fileName) || !Js.Truthy(req.fileContent) {
      return RunResponse(400, Failed(MissingFileData)), staged, cleanupRan;
    }
    // mkdtempSync, writeFileSync, readFileSync, then Papa.parse
    staged := true;
    var rows := csvRows(req.fileContent.value);
    var chartConfig := ProcessChartInstructions(Js.ToJsString(req.code), rows, parse, parseFloat);
    // both the success path and the catch block remove the file and the directory
    cleanupRan := true;
    if chartConfig.None? {
      resp := RunResponse(500, Failed(FailedToProcess));
    } else {
      resp := RunResponse(200, Succeeded(chartConfig.value));
    }
  }
}

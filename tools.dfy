/**
 * executeTool: the six data-analysis tools the model may call, dispatched by
 * name, and the JSON object each one returns.
 */
module Tools {
  import opened JsRuntime
  import opened Json
  import opened Stats
  import opened Columns
  import opened Outliers
  import opened Quality
  import opened Visualize
  import opened Correlate

  /** A tool definition: its name and the input properties its schema marks required. */
  datatype ToolSpec = ToolSpec(name: string, required: seq<string>)

  /** The names and required inputs of dataAnalysisTools, in order. */
  const DataAnalysisTools: seq<ToolSpec> := [
    ToolSpec("calculate_statistics", ["data"]),
    ToolSpec("detect_outliers", ["data"]),
    ToolSpec("check_data_quality", ["data"]),
    ToolSpec("suggest_visualizations", ["data"]),
    ToolSpec("correlation_analysis", ["data", "variables"]),
    ToolSpec("generate_insights", ["analysisResults"])
  ]

  function ToolNames(): (names: seq<string>)
    ensures |names| == |DataAnalysisTools|
    ensures forall k :: 0 <= k < |names| ==> names[k] == DataAnalysisTools[k].name
  {
    seq(|DataAnalysisTools|, k requires 0 <= k < |DataAnalysisTools| => DataAnalysisTools[k].name)
  }

  /** What a tool returns, before it is rendered as a JSON object. */
  datatype ToolOutput =
    | Failure(error: string)
    | Statistics(summary: Summary)
    | OutlierOutput(report: OutlierReport, methodName: Value)
    | QualityOutput(quality: QualityReport)
    | VisualOutput(visual: VisualReport)
    | CorrelationOutput(methodName: Value, correlations: seq<Member>, variables: Value)
    | Insights(analysisResults: Value)

  const InvalidData: string := "Invalid data provided"
  const StatisticsInvalid: string := InvalidData + " for statistics calculation"
  const OutliersInvalid: string := InvalidData + " for outlier detection"
  const NoNumericData: string := "No valid numerical data found"
  const CorrelationInvalid: string := "Invalid data format" + " for correlation analysis"
  const InsightsMessage: string := "Insights will be generated by the AI model based on analysis results"

  /**
   * `args.data || args.column ? extractColumn(args.data || originalData, args.column) : args.data`,
   * the list both numeric tools start from.
   */
  function NumbersArg(host: Host, args: Value, original: Value): Result<Value>
  {
    var data :- Prop(args, "data");
    var column := Prop(args, "column").value;
    if Truthy(data) || Truthy(column) then
      var items :- ExtractColumn(host, Or(data, original), column);
      Ok(Arr(items))
    else Ok(data)
  }

  /** calculate_statistics: a summary, or one of its two errors. */
  function StatisticsOf(host: Host, args: Value, original: Value): (r: Result<ToolOutput>)
    ensures r.Ok? ==> r.value.Statistics? || r.value == Failure(StatisticsInvalid) || r.value == Failure(NoNumericData)
  {
    var numbers :- NumbersArg(host, args, original);
    Ok(Summarize(host, numbers))
  }

  /** calculate_statistics once the list is extracted. */
  function Summarize(host: Host, numbers: Value): ToolOutput
  {
    if !numbers.Arr? || numbers.items == [] then Failure(StatisticsInvalid)
    else
      var values := Numbers(numbers.items);
      if values == [] then Failure(NoNumericData)
      else Statistics(Describe(host, values))
  }

  /** detect_outliers: a report, or its one error. */
  function OutliersOf(host: Host, args: Value, original: Value): (r: Result<ToolOutput>)
    ensures r.Ok? ==> r.value.OutlierOutput? || r.value == Failure(OutliersInvalid)
  {
    var numbers :- NumbersArg(host, args, original);
    if !numbers.Arr? then Ok(Failure(OutliersInvalid))
    else
      var report := Detect(numbers.items, Threshold(host, Prop(args, "threshold").value));
      Ok(OutlierOutput(report, Or(Prop(args, "method").value, Str("iqr"))))
  }

  /** correlation_analysis: the correlations object, or its one error. */
  function CorrelationToolOf(host: Host, args: Value, original: Value): (r: Result<ToolOutput>)
    ensures r.Ok? ==> r.value.CorrelationOutput? || r.value == Failure(CorrelationInvalid)
  {
    var outcome :- CorrelationOf(host, args, original);
    match outcome
    case InvalidFormat => Ok(Failure(CorrelationInvalid))
    case Correlated(m, c, vs) => Ok(CorrelationOutput(m, c, vs))
  }

  /** check_data_quality: its report, never an error object. */
  function QualityToolOf(host: Host, args: Value, original: Value): (r: Result<ToolOutput>)
    ensures r.Ok? ==> r.value.QualityOutput?
  {
    var q :- QualityOf(host, args, original);
    Ok(QualityOutput(q))
  }

  /** suggest_visualizations: its report, never an error object. */
  function VisualToolOf(args: Value): (r: Result<ToolOutput>)
    ensures r.Ok? ==> r.value.VisualOutput?
  {
    var v :- VisualizationsOf(args);
    Ok(VisualOutput(v))
  }

  /** generate_insights: the analysis results handed back. */
  function InsightsOf(args: Value): (r: Result<ToolOutput>)
    ensures r.Ok? <==> Prop(args, "analysisResults").Ok?
    ensures r.Ok? ==> r.value == Insights(Prop(args, "analysisResults").value)
  {
    var results :- Prop(args, "analysisResults");
    Ok(Insights(results))
  }

  /** The case labels of executeTool's switch, and its default. */
  datatype ToolCase =
    | StatisticsCase | OutliersCase | QualityCase | VisualCase | CorrelationCase | InsightsCase
    | DefaultCase

  /** The case a tool name selects. */
  function CaseOf(name: string): ToolCase
  {
    if name == "calculate_statistics" then StatisticsCase
    else if name == "detect_outliers" then OutliersCase
    else if name == "check_data_quality" then QualityCase
    else if name == "suggest_visualizations" then VisualCase
    else if name == "correlation_analysis" then CorrelationCase
    else if name == "generate_insights" then InsightsCase
    else DefaultCase
  }

  /** executeTool(toolName, args, originalData); Throw is an exception the caller catches. */
  function ToolOf(host: Host, name: string, args: Value, original: Value): Result<ToolOutput>
  {
    match CaseOf(name)
    case StatisticsCase => StatisticsOf(host, args, original)
    case OutliersCase => OutliersOf(host, args, original)
    case QualityCase => QualityToolOf(host, args, original)
    case VisualCase => VisualToolOf(args)
    case CorrelationCase => CorrelationToolOf(host, args, original)
    case InsightsCase => InsightsOf(args)
    case DefaultCase => Ok(Failure("Unknown tool: " + name))
  }

  method QualityTool(host: Host, args: Value, original: Value) returns (r: Result<ToolOutput>)
    ensures r == QualityToolOf(host, args, original)
  {
    var q := CheckDataQuality(host, args, original);
    if q.Throw? {
      return Throw(q.message);
    }
    r := Ok(QualityOutput(q.value));
  }

  method VisualTool(args: Value) returns (r: Result<ToolOutput>)
    ensures r == VisualToolOf(args)
  {
    var v := SuggestVisualizations(args);
    if v.Throw? {
      return Throw(v.message);
    }
    r := Ok(VisualOutput(v.value));
  }

  method CorrelationTool(host: Host, args: Value, original: Value) returns (r: Result<ToolOutput>)
    ensures r == CorrelationToolOf(host, args, original)
  {
    var outcome := CorrelationAnalysis(host, args, original);
    if outcome.Throw? {
      return Throw(outcome.message);
    }
    match outcome.value
    case InvalidFormat => r := Ok(Failure(CorrelationInvalid));
    case Correlated(m, c, vs) => r := Ok(CorrelationOutput(m, c, vs));
  }

  /**
   * executeTool: the three tools built by forEach loops run as methods, the
   * others are the expressions ToolOf evaluates.
   */
  method ExecuteTool(host: Host, name: string, args: Value, original: Value) returns (r: Result<ToolOutput>)
    ensures r == ToolOf(host, name, args, original)
  {
    var c := CaseOf(name);
    if c == QualityCase {
      r := QualityTool(host, args, original);
    } else if c == VisualCase {
      r := VisualTool(args);
    } else if c == CorrelationCase {
      r := CorrelationTool(host, args, original);
    } else {
      r := ToolOf(host, name, args, original);
    }
  }

  // ---------------------------------------------------------------------------
  // The returned objects

  function EntryObject(e: Entry): Value
  {
    Obj([Member("index", Num(e.index as real)), Member("value", Num(e.value))])
  }

  function SuggestionObject(s: Suggestion): Value
  {
    Obj([Member("type", Str(s.kind)), Member("reason", Str(s.reason))])
  }

  function SummaryObject(s: Summary): Value
  {
    Obj([
      Member("count", Num(s.count as real)), Member("mean", Num(s.mean)), Member("median", Num(s.median)),
      Member("stdDev", Num(s.stdDev)), Member("variance", Num(s.variance)), Member("min", Num(s.min)),
      Member("max", Num(s.max)), Member("q1", Num(s.q1)), Member("q3", Num(s.q3)), Member("iqr", Num(s.iqr)),
      Member("range", Num(s.range)), Member("coefficientOfVariation", Num(s.coefficientOfVariation))])
  }

  /** The object a tool's result is, as JSON.stringify sees it. */
  function Render(o: ToolOutput): (v: Value)
    ensures v.Obj?
    ensures o.Failure? ==> v.members == [Member("error", Str(o.error))]
  {
    match o
    case Failure(e) => Obj([Member("error", Str(e))])
    case Statistics(s) => SummaryObject(s)
    case OutlierOutput(NoNumbers, _) => Obj([Member("outliers", Arr([])), Member("message", Str(NoNumericData))])
    case OutlierOutput(Found(out, count, percentage), m) =>
      Obj([
        Member("outliers", Arr(seq(|out|, k requires 0 <= k < |out| => EntryObject(out[k])))),
        Member("count", Num(count as real)), Member("percentage", Num(percentage)), Member("method", m)])
    case QualityOutput(q) =>
      Obj([
        Member("totalRows", Num(q.totalRows as real)), Member("totalColumns", Num(q.totalColumns as real)),
        Member("missingValues", Obj(q.missingValues)), Member("duplicates", Num(q.duplicates as real)),
        Member("dataTypes", Obj(q.dataTypes))])
    case VisualOutput(r) =>
      Obj([
        Member("suggestions", Arr(seq(|r.suggestions|, k requires 0 <= k < |r.suggestions| => SuggestionObject(r.suggestions[k])))),
        Member("variablesAnalyzed", Num(r.variablesAnalyzed as real)), Member("recommended", Str(r.recommended))])
    case CorrelationOutput(m, c, vs) =>
      Obj([Member("method", m), Member("correlations", Obj(c)), Member("variables", vs)])
    case Insights(results) =>
      Obj([Member("message", Str(InsightsMessage)), Member("analysisResults", results)])
  }

  // ---------------------------------------------------------------------------
  // Properties

  lemma ToolNamesListed()
    ensures ToolNames() == ["calculate_statistics", "detect_outliers", "check_data_quality",
                            "suggest_visualizations", "correlation_analysis", "generate_insights"]
  {
  }

  /** The switch falls through to its default exactly for the names outside dataAnalysisTools. */
  lemma CaseOfListed(name: string)
    ensures CaseOf(name) == DefaultCase <==> name !in ToolNames()
  {
    ToolNamesListed();
  }

  /** A name outside dataAnalysisTools gets the unknown-tool error. */
  lemma UnlistedToolUnknown(host: Host, name: string, args: Value, original: Value)
    requires name !in ToolNames()
    ensures ToolOf(host, name, args, original) == Ok(Failure("Unknown tool: " + name))
  {
    CaseOfListed(name);
  }

  /** A result whose error objects never start with 'U' is not the unknown-tool error. */
  lemma NotUnknown(r: Result<ToolOutput>, name: string)
    requires r.Ok? && r.value.Failure? ==> r.value.error != [] && r.value.error[0] != 'U'
    ensures r != Ok(Failure("Unknown tool: " + name))
  {
    var u := "Unknown tool: " + name;
    assert u[0] == 'U';
  }

  /** The tools' own error objects never start with 'U'. */
  lemma StatisticsNeverUnknown(host: Host, args: Value, original: Value, name: string)
    ensures StatisticsOf(host, args, original) != Ok(Failure("Unknown tool: " + name))
  {
    assert StatisticsInvalid[0] == 'I' && NoNumericData[0] == 'N';
    NotUnknown(StatisticsOf(host, args, original), name);
  }

  lemma OutliersNeverUnknown(host: Host, args: Value, original: Value, name: string)
    ensures OutliersOf(host, args, original) != Ok(Failure("Unknown tool: " + name))
  {
    assert OutliersInvalid[0] == 'I';
    NotUnknown(OutliersOf(host, args, original), name);
  }

  lemma CorrelationNeverUnknown(host: Host, args: Value, original: Value, name: string)
    ensures CorrelationToolOf(host, args, original) != Ok(Failure("Unknown tool: " + name))
  {
    assert CorrelationInvalid[0] == 'I';
    NotUnknown(CorrelationToolOf(host, args, original), name);
  }

  /** A name of dataAnalysisTools never gets the unknown-tool error. */
  lemma ListedToolKnown(host: Host, name: string, args: Value, original: Value)
    requires name in ToolNames()
    ensures ToolOf(host, name, args, original) != Ok(Failure("Unknown tool: " + name))
  {
    CaseOfListed(name);
    var c := CaseOf(name);
    if c == StatisticsCase {
      StatisticsNeverUnknown(host, args, original, name);
    } else if c == OutliersCase {
      OutliersNeverUnknown(host, args, original, name);
    } else if c == CorrelationCase {
      CorrelationNeverUnknown(host, args, original, name);
    }
  }

  /** Every tool of dataAnalysisTools has its own case: exactly the other names are unknown. */
  lemma UnknownToolExactly(host: Host, name: string, args: Value, original: Value)
    ensures ToolOf(host, name, args, original) == Ok(Failure("Unknown tool: " + name)) <==> name !in ToolNames()
  {
    if name in ToolNames() {
      ListedToolKnown(host, name, args, original);
    } else {
      UnlistedToolUnknown(host, name, args, original);
    }
  }

  /** The tool names are distinct, so the dispatch is by name alone. */
  lemma ToolNamesDistinct()
    ensures forall k, l :: 0 <= k < l < |ToolNames()| ==> ToolNames()[k] != ToolNames()[l]
  {
    var names := ToolNames();
    assert names == ["calculate_statistics", "detect_outliers", "check_data_quality",
                     "suggest_visualizations", "correlation_analysis", "generate_insights"];
    assert names[0][0] == 'c' && names[2][0] == 'c' && names[4][0] == 'c';
    assert names[0][1] == 'a' && names[2][1] == 'h' && names[4][1] == 'o';
  }

  /**
   * calculate_statistics on a list: the invalid-data error on an empty list,
   * the no-numbers error when no element is a number, and otherwise the
   * summary of exactly the list's numbers.
   */
  lemma SummarizeList(host: Host, items: seq<Value>)
    ensures items == [] ==> Summarize(host, Arr(items)) == Failure(StatisticsInvalid)
    ensures items != [] && (forall i :: 0 <= i < |items| ==> !items[i].Num?) ==>
              Summarize(host, Arr(items)) == Failure(NoNumericData)
    ensures (exists i :: 0 <= i < |items| && items[i].Num?) ==>
              Summarize(host, Arr(items)) == Statistics(Describe(host, Numbers(items)))
  {
    NumbersEmptyExactly(items);
  }

  /** A list given directly, without a column, is summarized as it is. */
  lemma StatisticsOfList(host: Host, args: Value, original: Value, items: seq<Value>)
    requires Prop(args, "data") == Ok(Arr(items)) && !Truthy(Prop(args, "column").value)
    ensures StatisticsOf(host, args, original) == Ok(Summarize(host, Arr(items)))
  {
    assert NumbersArg(host, args, original) == Ok(Arr(items));
  }

  /**
   * Both numeric tools report invalid data, rather than a result, exactly
   * when neither a data nor a column argument is given.
   */
  lemma NumericToolsInvalidExactly(host: Host, args: Value, original: Value)
    requires NumbersArg(host, args, original).Ok?
    ensures OutliersOf(host, args, original) == Ok(Failure(OutliersInvalid)) <==>
              !Truthy(Prop(args, "data").value) && !Truthy(Prop(args, "column").value)
    ensures !Truthy(Prop(args, "data").value) && !Truthy(Prop(args, "column").value) ==>
              StatisticsOf(host, args, original) == Ok(Failure(StatisticsInvalid))
  {
  }

  /**
   * detect_outliers' method argument is only echoed: two argument objects
   * that agree on data, column and threshold give the same report, each
   * carrying its own method (or 'iqr').
   */
  lemma OutlierMethodEchoed(host: Host, args1: Value, args2: Value, original: Value)
    requires Prop(args1, "data") == Prop(args2, "data")
    requires Prop(args1, "column") == Prop(args2, "column")
    requires Prop(args1, "threshold") == Prop(args2, "threshold")
    requires OutliersOf(host, args1, original).Ok? && OutliersOf(host, args1, original).value.OutlierOutput?
    ensures var r1, r2 := OutliersOf(host, args1, original), OutliersOf(host, args2, original);
      && r2.Ok? && r2.value.OutlierOutput?
      && r1.value.report == r2.value.report
      && r1.value.methodName == Or(Prop(args1, "method").value, Str("iqr"))
      && r2.value.methodName == Or(Prop(args2, "method").value, Str("iqr"))
  {
    assert NumbersArg(host, args1, original) == NumbersArg(host, args2, original);
  }

  /** generate_insights hands its argument back under analysisResults. */
  lemma InsightsEcho(args: Value)
    requires Prop(args, "analysisResults").Ok?
    ensures var r := InsightsOf(args);
      && r.Ok?
      && Lookup(Render(r.value).members, "analysisResults") == Prop(args, "analysisResults").value
      && Lookup(Render(r.value).members, "message") == Str(InsightsMessage)
  {
  }
}

/**
 * suggest_visualizations: a fixed table of chart rules, tried in order, each
 * guarded by a word of the analysis goal and by how many variables of a kind
 * were declared, with a two-chart fallback when no rule fires.
 */
module Visualize {
  import opened JsRuntime
  import opened Json

  datatype Suggestion = Suggestion(kind: string, reason: string)

  datatype VisualReport = VisualReport(suggestions: seq<Suggestion>, variablesAnalyzed: nat, recommended: string)

  /** `variables.filter(v => v.type === kind).length`; throws on a null or undefined variable. */
  function CountOfType(variables: seq<Value>, kind: string): (r: Result<nat>)
    ensures r.Ok? ==> r.value <= |variables|
    ensures r.Ok? <==> forall i :: 0 <= i < |variables| ==> !variables[i].Null? && !variables[i].Undefined?
  {
    if variables == [] then Ok(0)
    else
      var t :- Prop(variables[0], "type");
      var rest :- CountOfType(variables[1..], kind);
      assert forall i :: 1 <= i < |variables| ==> variables[i] == variables[1..][i - 1];
      Ok((if t == Str(kind) then 1 else 0) + rest)
  }

  /** s contains w as a contiguous, case-sensitive substring. */
  predicate Contains(s: string, w: string)
    decreases |s|
  {
    |w| <= |s| && (s[..|w|] == w || Contains(s[1..], w))
  }

  /** An occurrence of w at any position makes Contains hold. */
  lemma {:induction false} ContainsAt(s: string, w: string, i: nat)
    requires i + |w| <= |s| && s[i..i + |w|] == w
    ensures Contains(s, w)
  {
    if i > 0 {
      assert s[1..][i - 1..i - 1 + |w|] == s[i..i + |w|];
      ContainsAt(s[1..], w, i - 1);
    }
  }

  /** Contains holds only where w occurs: it names a position of w in s. */
  lemma {:induction false} ContainsOccurs(s: string, w: string) returns (i: nat)
    requires Contains(s, w)
    ensures i + |w| <= |s| && s[i..i + |w|] == w
    decreases |s|
  {
    if s[..|w|] == w {
      i := 0;
    } else {
      var j := ContainsOccurs(s[1..], w);
      assert s[1..][j..j + |w|] == s[j + 1..j + 1 + |w|];
      i := j + 1;
    }
  }

  /** w occurs in s at position i. */
  predicate OccursAt(s: string, w: string, i: nat)
  {
    i + |w| <= |s| && s[i..i + |w|] == w
  }

  /** `includes` on a string is exactly a substring test: w occurs at some position of s. */
  lemma ContainsExactly(s: string, w: string)
    ensures Contains(s, w) <==> exists i: nat :: OccursAt(s, w, i)
  {
    if Contains(s, w) {
      var i := ContainsOccurs(s, w);
      assert OccursAt(s, w, i);
    }
    if exists i: nat :: OccursAt(s, w, i) {
      var i: nat :| OccursAt(s, w, i);
      ContainsAt(s, w, i);
    }
  }

  /** A word whose first character does not occur in the text is not contained in it. */
  lemma {:induction false} FirstCharAbsent(s: string, w: string)
    requires |w| > 0 && w[0] !in s
    ensures !Contains(s, w)
  {
    if |w| <= |s| {
      assert s[..|w|][0] == s[0];
      FirstCharAbsent(s[1..], w);
    }
  }

  /** `goal.includes(word)`: a substring test on a string, an element test on an array. */
  function Includes(goal: Value, word: string): Result<bool>
  {
    match goal
    case Str(s) => Ok(Contains(s, word))
    case Arr(items) => Ok(Str(word) in items)
    case Null => Throw("Cannot read properties of null (reading 'includes')")
    case Undefined => Throw("Cannot read properties of undefined (reading 'includes')")
    case _ => Throw("goal.includes is not a function")
  }

  /** Which goal words matched and how many variables of each kind were declared. */
  datatype Signals = Signals(
    distribution: bool, comparison: bool, correlation: bool, trend: bool,
    numVars: nat, catVars: nat, tempVars: nat)

  predicate DistributionRule(g: Signals) { g.distribution && g.numVars > 0 }
  predicate ComparisonRule(g: Signals) { g.comparison && g.catVars > 0 && g.numVars > 0 }
  predicate CorrelationRule(g: Signals) { g.correlation && g.numVars >= 2 }
  predicate TrendRule(g: Signals) { g.trend && g.tempVars > 0 }

  predicate AnyRule(g: Signals)
  {
    DistributionRule(g) || ComparisonRule(g) || CorrelationRule(g) || TrendRule(g)
  }

  const Histogram := Suggestion("histogram", "Best for showing distribution of numerical data")
  const BoxPlotDistribution := Suggestion("box_plot", "Shows distribution, quartiles, and outliers")
  const ViolinPlot := Suggestion("violin_plot", "Combines distribution and density information")
  const BarChartComparison := Suggestion("bar_chart", "Compare categories using numerical values")
  const BoxPlotComparison := Suggestion("box_plot", "Compare distributions across categories")
  const ScatterPlotCorrelation := Suggestion("scatter_plot", "Show relationships between two numerical variables")
  const CorrelationHeatmap := Suggestion("correlation_heatmap", "Visualize correlation matrix")
  const LineChart := Suggestion("line_chart", "Show trends over time")
  const AreaChart := Suggestion("area_chart", "Emphasize cumulative trends")
  const ScatterPlotGeneral := Suggestion("scatter_plot", "General purpose visualization")
  const BarChartGeneral := Suggestion("bar_chart", "Good for categorical data")

  function DistributionCharts(g: Signals): seq<Suggestion>
  {
    if DistributionRule(g) then [Histogram, BoxPlotDistribution, ViolinPlot] else []
  }

  function ComparisonCharts(g: Signals): seq<Suggestion>
  {
    if ComparisonRule(g) then [BarChartComparison, BoxPlotComparison] else []
  }

  function CorrelationCharts(g: Signals): seq<Suggestion>
  {
    if CorrelationRule(g) then [ScatterPlotCorrelation, CorrelationHeatmap] else []
  }

  function TrendCharts(g: Signals): seq<Suggestion>
  {
    if TrendRule(g) then [LineChart, AreaChart] else []
  }

  /** The charts of the rules that fire, in the order the rules are tried. */
  function Fired(g: Signals): seq<Suggestion>
  {
    DistributionCharts(g) + ComparisonCharts(g) + CorrelationCharts(g) + TrendCharts(g)
  }

  /** The suggestions of the rule table, with the fallback pair when no rule fires. */
  function Suggestions(g: Signals): seq<Suggestion>
  {
    if Fired(g) == [] then [ScatterPlotGeneral, BarChartGeneral] else Fired(g)
  }

  /** Reads the arguments in the order the source does and evaluates the goal words rule by rule. */
  function SignalsOf(args: Value): Result<(seq<Value>, Signals)>
  {
    var dataArg :- Prop(args, "data");
    var variables := Or(Prop(args, "variables").value, Arr([]));
    var goal := Or(Prop(args, "goal").value, Str("general"));
    if !variables.Arr? then Throw("variables.filter is not a function")
    else
      var numVars :- CountOfType(variables.items, "numerical");
      var catVars :- CountOfType(variables.items, "categorical");
      var tempVars :- CountOfType(variables.items, "temporal");
      var distribution :- Includes(goal, "distribution");
      var comparison :- Includes(goal, "comparison");
      var correlation :- Includes(goal, "correlation");
      var trend :- Includes(goal, "trend");
      Ok((variables.items, Signals(distribution, comparison, correlation, trend, numVars, catVars, tempVars)))
  }

  /** suggest_visualizations on the tool arguments. */
  function VisualizationsOf(args: Value): Result<VisualReport>
  {
    var (variables, g) :- SignalsOf(args);
    var suggestions := Suggestions(g);
    Ok(VisualReport(suggestions, |variables|, suggestions[0].kind))
  }

  /** The step-by-step pushes of the source, checked against the rule table. */
  method PushSuggestions(g: Signals) returns (suggestions: seq<Suggestion>)
    ensures suggestions == Suggestions(g)
  {
    suggestions := [];
    if g.distribution && g.numVars > 0 {
      suggestions := suggestions + [Histogram];
      suggestions := suggestions + [BoxPlotDistribution];
      suggestions := suggestions + [ViolinPlot];
    }
    assert suggestions == DistributionCharts(g);
    if g.comparison && g.catVars > 0 && g.numVars > 0 {
      suggestions := suggestions + [BarChartComparison];
      suggestions := suggestions + [BoxPlotComparison];
    }
    assert suggestions == DistributionCharts(g) + ComparisonCharts(g);
    if g.correlation && g.numVars >= 2 {
      suggestions := suggestions + [ScatterPlotCorrelation];
      suggestions := suggestions + [CorrelationHeatmap];
    }
    assert suggestions == DistributionCharts(g) + ComparisonCharts(g) + CorrelationCharts(g);
    if g.trend && g.tempVars > 0 {
      suggestions := suggestions + [LineChart];
      suggestions := suggestions + [AreaChart];
    }
    assert suggestions == Fired(g);
    if |suggestions| == 0 {
      suggestions := suggestions + [ScatterPlotGeneral];
      suggestions := suggestions + [BarChartGeneral];
    }
  }

  /** suggest_visualizations as the source runs it. */
  method SuggestVisualizations(args: Value) returns (r: Result<VisualReport>)
    ensures r == VisualizationsOf(args)
  {
    var signals := SignalsOf(args);
    if signals.Throw? {
      return Throw(signals.message);
    }
    var variables, g := signals.value.0, signals.value.1;
    var suggestions := PushSuggestions(g);
    SuggestionsShape(g);
    var recommended := if |suggestions| > 0 && suggestions[0].kind != "" then suggestions[0].kind else "scatter_plot";
    return Ok(VisualReport(suggestions, |variables|, recommended));
  }

  /**
   * The list is never empty; the fallback pair is given exactly when no rule
   * fires; otherwise the first fired rule's first chart leads.
   */
  lemma SuggestionsShape(g: Signals)
    ensures |Suggestions(g)| > 0
    ensures !AnyRule(g) <==> Suggestions(g) == [ScatterPlotGeneral, BarChartGeneral]
    ensures DistributionRule(g) ==> Suggestions(g)[0] == Histogram
    ensures !DistributionRule(g) && ComparisonRule(g) ==> Suggestions(g)[0] == BarChartComparison
    ensures !DistributionRule(g) && !ComparisonRule(g) && CorrelationRule(g) ==> Suggestions(g)[0] == ScatterPlotCorrelation
    ensures !DistributionRule(g) && !ComparisonRule(g) && !CorrelationRule(g) && TrendRule(g) ==> Suggestions(g)[0] == LineChart
    ensures Suggestions(g)[0].kind != ""
  {
    var d, c, r, t := DistributionCharts(g), ComparisonCharts(g), CorrelationCharts(g), TrendCharts(g);
    assert Fired(g) == d + c + r + t;
    if AnyRule(g) {
      assert Fired(g) != [];
      var first := Fired(g)[0];
      if d != [] {
        assert first == d[0];
      } else if c != [] {
        assert first == c[0];
      } else if r != [] {
        assert first == r[0];
      } else {
        assert first == t[0];
      }
      assert first != ScatterPlotGeneral;
    }
  }

  /** A suggestion comes from a rule that fired, or from the fallback pair when none did. */
  lemma SuggestionSources(g: Signals, x: Suggestion)
    ensures x in Suggestions(g) <==>
      || (DistributionRule(g) && x in [Histogram, BoxPlotDistribution, ViolinPlot])
      || (ComparisonRule(g) && x in [BarChartComparison, BoxPlotComparison])
      || (CorrelationRule(g) && x in [ScatterPlotCorrelation, CorrelationHeatmap])
      || (TrendRule(g) && x in [LineChart, AreaChart])
      || (!AnyRule(g) && x in [ScatterPlotGeneral, BarChartGeneral])
  {
    var d, c, r, t := DistributionCharts(g), ComparisonCharts(g), CorrelationCharts(g), TrendCharts(g);
    assert Fired(g) == d + c + r + t;
    assert Fired(g) == [] <==> !AnyRule(g);
  }

  /** The histogram and the violin plot appear exactly when the distribution rule fires. */
  lemma DistributionChartsByRule(g: Signals)
    ensures Histogram in Suggestions(g) <==> DistributionRule(g)
    ensures ViolinPlot in Suggestions(g) <==> DistributionRule(g)
  {
    SuggestionSources(g, Histogram);
    SuggestionSources(g, ViolinPlot);
  }

  /** The comparison bar chart appears exactly when the comparison rule fires. */
  lemma ComparisonChartByRule(g: Signals)
    ensures BarChartComparison in Suggestions(g) <==> ComparisonRule(g)
  {
    SuggestionSources(g, BarChartComparison);
  }

  /** The heatmap appears exactly when the correlation rule fires. */
  lemma CorrelationChartByRule(g: Signals)
    ensures CorrelationHeatmap in Suggestions(g) <==> CorrelationRule(g)
  {
    SuggestionSources(g, CorrelationHeatmap);
  }

  /** The line and area charts appear exactly when the trend rule fires. */
  lemma TrendChartsByRule(g: Signals)
    ensures LineChart in Suggestions(g) <==> TrendRule(g)
    ensures AreaChart in Suggestions(g) <==> TrendRule(g)
  {
    SuggestionSources(g, LineChart);
    SuggestionSources(g, AreaChart);
  }

  /** The number of box_plot entries: one per fired distribution or comparison rule. */
  function CountKind(s: seq<Suggestion>, kind: string): nat
  {
    if s == [] then 0 else (if s[0].kind == kind then 1 else 0) + CountKind(s[1..], kind)
  }

  lemma {:induction false} CountKindAppend(a: seq<Suggestion>, b: seq<Suggestion>, kind: string)
    ensures CountKind(a + b, kind) == CountKind(a, kind) + CountKind(b, kind)
  {
    if a == [] {
      assert a + b == b;
    } else {
      assert (a + b)[1..] == a[1..] + b;
      CountKindAppend(a[1..], b, kind);
    }
  }

  lemma CountKindPair(a: Suggestion, b: Suggestion, kind: string)
    ensures CountKind([a, b], kind) == (if a.kind == kind then 1 else 0) + (if b.kind == kind then 1 else 0)
  {
    assert [a, b][1..] == [b];
    assert [b][1..] == [];
    assert CountKind([b], kind) == (if b.kind == kind then 1 else 0) + CountKind([], kind);
    assert CountKind([a, b], kind) == (if a.kind == kind then 1 else 0) + CountKind([b], kind);
  }

  /** box_plot is suggested twice when both the distribution and the comparison rule fire. */
  lemma BoxPlotCount(g: Signals)
    ensures CountKind(Suggestions(g), "box_plot") ==
              (if DistributionRule(g) then 1 else 0) + (if ComparisonRule(g) then 1 else 0)
  {
    var d, c, r, t := DistributionCharts(g), ComparisonCharts(g), CorrelationCharts(g), TrendCharts(g);
    CountKindAppend(d, c, "box_plot");
    CountKindAppend(d + c, r, "box_plot");
    CountKindAppend(d + c + r, t, "box_plot");
    if d != [] {
      assert d == [Histogram] + [BoxPlotDistribution, ViolinPlot];
      CountKindAppend([Histogram], [BoxPlotDistribution, ViolinPlot], "box_plot");
      CountKindPair(BoxPlotDistribution, ViolinPlot, "box_plot");
      assert [Histogram][1..] == [];
    }
    CountKindPair(BarChartComparison, BoxPlotComparison, "box_plot");
    CountKindPair(ScatterPlotCorrelation, CorrelationHeatmap, "box_plot");
    CountKindPair(LineChart, AreaChart, "box_plot");
    CountKindPair(ScatterPlotGeneral, BarChartGeneral, "box_plot");
  }

  /** The report counts the declared variables and recommends the first suggestion. */
  lemma ReportSound(args: Value)
    requires VisualizationsOf(args).Ok?
    ensures var r := VisualizationsOf(args).value;
      var (variables, g) := SignalsOf(args).value;
      && r.variablesAnalyzed == |variables|
      && r.suggestions == Suggestions(g)
      && r.recommended == r.suggestions[0].kind
  {
    SuggestionsShape(SignalsOf(args).value.1);
  }

  /** The default goal "general" contains none of the four rule words, so it selects the fallback pair. */
  lemma GeneralGoalFallback(g: Signals)
    requires Includes(Str("general"), "distribution") == Ok(g.distribution)
    requires Includes(Str("general"), "comparison") == Ok(g.comparison)
    requires Includes(Str("general"), "correlation") == Ok(g.correlation)
    requires Includes(Str("general"), "trend") == Ok(g.trend)
    ensures Suggestions(g) == [ScatterPlotGeneral, BarChartGeneral]
  {
    FirstCharAbsent("general", "distribution");
    FirstCharAbsent("general", "comparison");
    FirstCharAbsent("general", "correlation");
    FirstCharAbsent("general", "trend");
    SuggestionsShape(g);
  }
}

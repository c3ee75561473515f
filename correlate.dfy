/**
 * correlation_analysis: an object of columns is turned into rows, and every
 * pair of requested variables (i <= j, self-pairs included) whose filtered
 * number lists have the same length, above one, gets its Pearson coefficient
 * under the key `${var1}_${var2}`; a later pair with the same key overwrites.
 */
module Correlate {
  import opened JsRuntime
  import opened Json
  import opened Stats
  import opened Columns
  import opened Quality
  import opened Pearson

  /** Rows built from an object of columns are objects. */
  predicate Records(rows: seq<Value>)
  {
    forall k :: 0 <= k < |rows| ==> rows[k].Obj?
  }

  /**
   * How often `for (let i = 0; i < length; i++)` runs when `length` converts to
   * the number given (None for NaN): once for each natural number below it.
   */
  function LoopCount(length: Option<real>): (n: nat)
    ensures length.None? || length.value <= 0.0 ==> n == 0
    ensures length.Some? && length.value > 0.0 ==> ((n - 1) as real) < length.value <= n as real
  {
    if length.None? || length.value <= 0.0 then 0
    else
      var f := length.value.Floor;
      if f as real == length.value then f else f + 1
  }

  /**
   * What the two loops read of `variables`: `variables.length` converted to a
   * number bounds the index, and `variables[i]` is read as a property, so
   * arrays, strings and array-like objects are all iterated.
   */
  function VariableList(host: Host, variables: Value): (vs: seq<Value>)
    requires !variables.Null? && !variables.Undefined?
    ensures variables.Arr? ==> vs == variables.items
    ensures variables.Str? ==> |vs| == |variables.s| && forall i :: 0 <= i < |vs| ==> vs[i] == Str([variables.s[i]])
    ensures variables.Obj? ==>
      && |vs| == LoopCount(ToNumber(host, Lookup(variables.members, "length")))
      && forall i :: 0 <= i < |vs| ==> vs[i] == Lookup(variables.members, IndexKey(i))
    ensures variables.Num? || variables.NaN? || variables.Bool? ==> vs == []
  {
    var n := LoopCount(ToNumber(host, Prop(variables, "length").value));
    var vs := seq(n, i requires 0 <= i < n => Index(variables, i).value);
    IndexedVariables(variables, vs);
    vs
  }

  /** Reading index i of an array or a string gives its i-th element or character. */
  lemma IndexedVariables(variables: Value, vs: seq<Value>)
    requires !variables.Null? && !variables.Undefined?
    requires forall i :: 0 <= i < |vs| ==> vs[i] == Index(variables, i).value
    ensures variables.Arr? && |vs| == |variables.items| ==> vs == variables.items
    ensures variables.Str? ==> forall i :: 0 <= i < |vs| && i < |variables.s| ==> vs[i] == Str([variables.s[i]])
  {
    forall i | 0 <= i < |vs|
      ensures variables.Arr? && i < |variables.items| ==> vs[i] == variables.items[i]
      ensures variables.Str? && i < |variables.s| ==> vs[i] == Str([variables.s[i]])
    {
      ParseIndexKey(i);
      assert IndexKey(i) != "length" by {
        assert IsDigit(IndexKey(i)[0]);
      }
    }
  }

  /** An array-like object `{ length: 1, 0: "a" }` is iterated like the array `["a"]`. */
  lemma ArrayLikeVariables(host: Host)
    ensures VariableList(host, Obj([Member("length", Num(1.0)), Member("0", Str("a"))])) == [Str("a")]
  {
    var ms := [Member("length", Num(1.0)), Member("0", Str("a"))];
    assert IndexKey(0) == "0";
    assert Lookup(ms, "length") == Num(1.0);
    assert Lookup(ms, IndexKey(0)) == Str("a");
  }

  /** `rows.map(r => r[v]).filter(x => typeof x === 'number' && !isNaN(x))`. */
  function ColumnOf(host: Host, rows: seq<Value>, v: Value): seq<real>
    requires Records(rows)
  {
    Numbers(Project(rows, ToText(host, v)).value)
  }

  /**
   * What the two loops see of the variables: the key text of each variable,
   * its filtered column, and the coefficient of every pair of columns.
   */
  datatype Grid = Grid(names: seq<string>, cols: seq<seq<real>>, coef: seq<seq<real>>)

  predicate Shaped(g: Grid)
  {
    && |g.names| == |g.cols| == |g.coef|
    && forall i :: 0 <= i < |g.coef| ==> |g.coef[i]| == |g.cols|
  }

  /** The key texts of the variables, in order. */
  function Names(host: Host, vars: seq<Value>): (r: seq<string>)
    ensures |r| == |vars|
    ensures forall k :: 0 <= k < |vars| ==> r[k] == ToText(host, vars[k])
  {
    if vars == [] then [] else Names(host, vars[..|vars| - 1]) + [ToText(host, vars[|vars| - 1])]
  }

  /** The filtered column of each variable, in order. */
  function ColumnsOf(host: Host, rows: seq<Value>, vars: seq<Value>): (r: seq<seq<real>>)
    requires Records(rows)
    ensures |r| == |vars|
    ensures forall k :: 0 <= k < |vars| ==> r[k] == ColumnOf(host, rows, vars[k])
  {
    if vars == [] then [] else ColumnsOf(host, rows, vars[..|vars| - 1]) + [ColumnOf(host, rows, vars[|vars| - 1])]
  }

  /** The coefficients of column i with each of the columns. */
  function CoefRow(host: Host, x: seq<real>, cols: seq<seq<real>>): (r: seq<real>)
    ensures |r| == |cols|
  {
    if cols == [] then [] else CoefRow(host, x, cols[..|cols| - 1]) + [Correlation(host, x, cols[|cols| - 1])]
  }

  /** The coefficient of every ordered pair of columns. */
  function Coefs(host: Host, xs: seq<seq<real>>, cols: seq<seq<real>>): (r: seq<seq<real>>)
    ensures |r| == |xs|
    ensures forall k :: 0 <= k < |xs| ==> |r[k]| == |cols|
  {
    if xs == [] then [] else Coefs(host, xs[..|xs| - 1], cols) + [CoefRow(host, xs[|xs| - 1], cols)]
  }

  lemma {:induction false} CoefRowAt(host: Host, x: seq<real>, cols: seq<seq<real>>, j: nat)
    requires j < |cols|
    ensures CoefRow(host, x, cols)[j] == Correlation(host, x, cols[j])
  {
    if j < |cols| - 1 {
      CoefRowAt(host, x, cols[..|cols| - 1], j);
    }
  }

  /** Entry (i, j) of the coefficient matrix is the coefficient of columns i and j. */
  lemma {:induction false} CoefsAt(host: Host, xs: seq<seq<real>>, cols: seq<seq<real>>, i: nat, j: nat)
    requires i < |xs| && j < |cols|
    ensures Coefs(host, xs, cols)[i][j] == Correlation(host, xs[i], cols[j])
  {
    if i < |xs| - 1 {
      CoefsAt(host, xs[..|xs| - 1], cols, i, j);
    } else {
      CoefRowAt(host, xs[i], cols, j);
    }
  }

  /** g holds the key texts, the filtered columns and the coefficients of rows and vars. */
  ghost predicate Describes(g: Grid, host: Host, rows: seq<Value>, vars: seq<Value>)
    requires Records(rows)
  {
    && Shaped(g) && |g.cols| == |vars|
    && (forall i {:trigger ToText(host, vars[i])} :: 0 <= i < |vars| ==> g.names[i] == ToText(host, vars[i]))
    && (forall i {:trigger ColumnOf(host, rows, vars[i])} :: 0 <= i < |vars| ==> g.cols[i] == ColumnOf(host, rows, vars[i]))
    && forall i, j {:trigger Correlation(host, g.cols[i], g.cols[j])} ::
         0 <= i < |vars| && 0 <= j < |vars| ==> g.coef[i][j] == Correlation(host, g.cols[i], g.cols[j])
  }

  lemma GridDescribes(host: Host, rows: seq<Value>, vars: seq<Value>)
    requires Records(rows)
    ensures Describes(GridOf(host, rows, vars), host, rows, vars)
  {
    var g := GridOf(host, rows, vars);
    forall i, j | 0 <= i < |vars| && 0 <= j < |vars|
      ensures g.coef[i][j] == Correlation(host, g.cols[i], g.cols[j])
    {
      CoefsAt(host, g.cols, g.cols, i, j);
    }
  }

  /** The grid of a dataset's rows and a variable list. */
  function GridOf(host: Host, rows: seq<Value>, vars: seq<Value>): (g: Grid)
    requires Records(rows)
    ensures Shaped(g) && |g.cols| == |vars|
  {
    var cols := ColumnsOf(host, rows, vars);
    Grid(Names(host, vars), cols, Coefs(host, cols, cols))
  }

  /** `${var1}_${var2}`. */
  function PairKey(g: Grid, i: nat, j: nat): string
    requires Shaped(g) && i < |g.cols| && j < |g.cols|
  {
    g.names[i] + "_" + g.names[j]
  }

  /** The guard of the inner loop body: equal filtered lengths, more than one value. */
  predicate Qualifies(g: Grid, i: nat, j: nat)
    requires Shaped(g) && i < |g.cols| && j < |g.cols|
  {
    |g.cols[i]| == |g.cols[j]| && |g.cols[i]| > 1
  }

  function PairValue(g: Grid, i: nat, j: nat): Value
    requires Shaped(g) && i < |g.cols| && j < |g.cols|
  {
    Num(g.coef[i][j])
  }

  /** One pass of the inner loop body on the correlations object. */
  function Step(g: Grid, c: seq<Member>, i: nat, j: nat): seq<Member>
    requires Shaped(g) && i < |g.cols| && j < |g.cols|
  {
    if Qualifies(g, i, j) then Assign(c, PairKey(g, i, j), PairValue(g, i, j)) else c
  }

  /** The inner loop from j on, for a fixed i. */
  function InnerFrom(g: Grid, c: seq<Member>, i: nat, j: nat): seq<Member>
    requires Shaped(g) && i < |g.cols| && j <= |g.cols|
    decreases |g.cols| - j
  {
    if j == |g.cols| then c else InnerFrom(g, Step(g, c, i, j), i, j + 1)
  }

  /** The outer loop from i on. */
  function OuterFrom(g: Grid, c: seq<Member>, i: nat): seq<Member>
    requires Shaped(g) && i <= |g.cols|
    decreases |g.cols| - i
  {
    if i == |g.cols| then c else OuterFrom(g, InnerFrom(g, c, i, i), i + 1)
  }

  /** The correlations object after both loops. */
  function Correlations(g: Grid): seq<Member>
    requires Shaped(g)
  {
    OuterFrom(g, [], 0)
  }

  /** One pass of the inner loop body: both columns filtered, then the guarded write. */
  method PairStep(host: Host, rows: seq<Value>, vars: seq<Value>, ghost g: Grid, c: seq<Member>, i: nat, j: nat)
    returns (c': seq<Member>)
    requires Records(rows) && Describes(g, host, rows, vars) && i < |vars| && j < |vars|
    ensures c' == Step(g, c, i, j)
  {
    var var1, var2 := vars[i], vars[j];
    var values1 := ColumnOf(host, rows, var1);
    var values2 := ColumnOf(host, rows, var2);
    c' := c;
    if |values1| == |values2| && |values1| > 1 {
      var corr := Correlation(host, values1, values2);
      c' := Assign(c, ToText(host, var1) + "_" + ToText(host, var2), Num(corr));
    }
  }

  /** The nested for-loops of the source, each pass filtering both columns afresh. */
  method CorrelationLoops(host: Host, rows: seq<Value>, vars: seq<Value>, ghost g: Grid) returns (c: seq<Member>)
    requires Records(rows) && Describes(g, host, rows, vars)
    ensures c == Correlations(g)
  {
    c := [];
    var n := |vars|;
    var i := 0;
    while i < n
      invariant 0 <= i <= n
      invariant OuterFrom(g, c, i) == Correlations(g)
    {
      var j := i;
      assert OuterFrom(g, c, i) == OuterFrom(g, InnerFrom(g, c, i, i), i + 1);
      while j < n
        invariant i <= j <= n
        invariant OuterFrom(g, InnerFrom(g, c, i, j), i + 1) == Correlations(g)
      {
        ghost var before := c;
        c := PairStep(host, rows, vars, g, c, i, j);
        assert InnerFrom(g, before, i, j) == InnerFrom(g, c, i, j + 1);
        j := j + 1;
      }
      i := i + 1;
    }
  }

  // ---------------------------------------------------------------------------
  // Which keys are written, and with what

  /** Pass (i, j) writes key k: the pair qualifies and its key is k. */
  predicate Writes(g: Grid, i: nat, j: nat, k: string)
    requires Shaped(g) && i < |g.cols| && j < |g.cols|
  {
    Qualifies(g, i, j) && PairKey(g, i, j) == k
  }

  /** Some pass (i, j') with j <= j' writes key k. */
  ghost predicate KeyInRow(g: Grid, i: nat, j: nat, k: string)
    requires Shaped(g) && i < |g.cols|
  {
    exists j': nat :: j <= j' < |g.cols| && Writes(g, i, j', k)
  }

  /** Some pass (i', j') with i <= i' <= j' writes key k. */
  ghost predicate KeyInRows(g: Grid, i: nat, k: string)
    requires Shaped(g)
  {
    exists i': nat, j': nat :: i <= i' <= j' < |g.cols| && Writes(g, i', j', k)
  }

  lemma KeyInRowStep(g: Grid, i: nat, j: nat, k: string)
    requires Shaped(g) && i < |g.cols| && j < |g.cols|
    ensures KeyInRow(g, i, j, k) <==> Writes(g, i, j, k) || KeyInRow(g, i, j + 1, k)
  {
    if KeyInRow(g, i, j, k) && !Writes(g, i, j, k) {
      var j' :| j <= j' < |g.cols| && Writes(g, i, j', k);
      assert j + 1 <= j';
    }
  }

  lemma KeyInRowsStep(g: Grid, i: nat, k: string)
    requires Shaped(g) && i < |g.cols|
    ensures KeyInRows(g, i, k) <==> KeyInRow(g, i, i, k) || KeyInRows(g, i + 1, k)
  {
    if KeyInRows(g, i, k) {
      var i', j' :| i <= i' <= j' < |g.cols| && Writes(g, i', j', k);
      if i' == i {
        assert i <= j' < |g.cols| && Writes(g, i, j', k);
      }
    }
    if KeyInRow(g, i, i, k) {
      var j' :| i <= j' < |g.cols| && Writes(g, i, j', k);
      assert i <= i <= j' < |g.cols| && Writes(g, i, j', k);
    }
  }

  /** The keys the inner loop writes from j on. */
  lemma {:induction false} InnerKeys(g: Grid, c: seq<Member>, i: nat, j: nat, k: string)
    requires Shaped(g) && i < |g.cols| && j <= |g.cols|
    ensures k in KeysOf(InnerFrom(g, c, i, j)) <==> k in KeysOf(c) || KeyInRow(g, i, j, k)
    decreases |g.cols| - j
  {
    if j < |g.cols| {
      if Qualifies(g, i, j) {
        KeysOfAssignMembers(c, PairKey(g, i, j), PairValue(g, i, j), k);
      }
      InnerKeys(g, Step(g, c, i, j), i, j + 1, k);
      KeyInRowStep(g, i, j, k);
    }
  }

  /** The keys the outer loop writes from i on. */
  lemma {:induction false} OuterKeys(g: Grid, c: seq<Member>, i: nat, k: string)
    requires Shaped(g) && i <= |g.cols|
    ensures k in KeysOf(OuterFrom(g, c, i)) <==> k in KeysOf(c) || KeyInRows(g, i, k)
    decreases |g.cols| - i
  {
    if i < |g.cols| {
      var row := InnerFrom(g, c, i, i);
      assert OuterFrom(g, c, i) == OuterFrom(g, row, i + 1);
      InnerKeys(g, c, i, i, k);
      OuterKeys(g, row, i + 1, k);
      KeyInRowsStep(g, i, k);
    }
  }

  /**
   * A key appears in the correlations object exactly when some pair i <= j
   * qualifies and carries that key: unqualified pairs write nothing.
   */
  lemma CorrelationKeys(g: Grid, k: string)
    requires Shaped(g)
    ensures k in KeysOf(Correlations(g)) <==>
              exists i, j :: 0 <= i <= j < |g.cols| && Qualifies(g, i, j) && PairKey(g, i, j) == k
  {
    OuterKeys(g, [], 0, k);
    if KeyInRows(g, 0, k) {
      var i, j :| 0 <= i <= j < |g.cols| && Writes(g, i, j, k);
      assert Qualifies(g, i, j) && PairKey(g, i, j) == k;
    }
    if exists i, j :: 0 <= i <= j < |g.cols| && Qualifies(g, i, j) && PairKey(g, i, j) == k {
      var i, j :| 0 <= i <= j < |g.cols| && Qualifies(g, i, j) && PairKey(g, i, j) == k;
      assert Writes(g, i, j, k);
    }
  }

  /** No pass of the inner loop from j on writes key k: k keeps its value. */
  lemma {:induction false} InnerKeeps(g: Grid, c: seq<Member>, i: nat, j: nat, k: string)
    requires Shaped(g) && i < |g.cols| && j <= |g.cols|
    requires !KeyInRow(g, i, j, k)
    ensures Lookup(InnerFrom(g, c, i, j), k) == Lookup(c, k)
    decreases |g.cols| - j
  {
    if j < |g.cols| {
      KeyInRowStep(g, i, j, k);
      if Qualifies(g, i, j) {
        LookupAssign(c, PairKey(g, i, j), PairValue(g, i, j), k);
      }
      InnerKeeps(g, Step(g, c, i, j), i, j + 1, k);
    }
  }

  /** No pass of the outer loop from i on writes key k: k keeps its value. */
  lemma {:induction false} OuterKeeps(g: Grid, c: seq<Member>, i: nat, k: string)
    requires Shaped(g) && i <= |g.cols|
    requires !KeyInRows(g, i, k)
    ensures Lookup(OuterFrom(g, c, i), k) == Lookup(c, k)
    decreases |g.cols| - i
  {
    if i < |g.cols| {
      KeyInRowsStep(g, i, k);
      InnerKeeps(g, c, i, i, k);
      OuterKeeps(g, InnerFrom(g, c, i, i), i + 1, k);
    }
  }

  /** The last pass writing key k in the inner loop decides k's value. */
  lemma {:induction false} InnerLastWrite(g: Grid, c: seq<Member>, i: nat, j: nat, j0: nat)
    requires Shaped(g) && i <= j0 < |g.cols| && j <= j0
    requires Qualifies(g, i, j0) && !KeyInRow(g, i, j0 + 1, PairKey(g, i, j0))
    ensures Lookup(InnerFrom(g, c, i, j), PairKey(g, i, j0)) == PairValue(g, i, j0)
    decreases |g.cols| - j
  {
    var k := PairKey(g, i, j0);
    if j == j0 {
      LookupAssign(c, k, PairValue(g, i, j0), k);
      InnerKeeps(g, Step(g, c, i, j), i, j + 1, k);
    } else {
      InnerLastWrite(g, Step(g, c, i, j), i, j + 1, j0);
    }
  }

  /**
   * A qualifying pair no later pass writes its key again, later meaning
   * further along the row or in a later row: the loops' visiting order.
   */
  ghost predicate LastWithKey(g: Grid, i0: nat, j0: nat)
    requires Shaped(g) && i0 <= j0 < |g.cols|
  {
    && Qualifies(g, i0, j0)
    && !KeyInRow(g, i0, j0 + 1, PairKey(g, i0, j0))
    && !KeyInRows(g, i0 + 1, PairKey(g, i0, j0))
  }

  /** The row of the last pair with its key decides the key's value, and later rows keep it. */
  lemma LastWriteInRow(g: Grid, c: seq<Member>, i0: nat, j0: nat)
    requires Shaped(g) && i0 <= j0 < |g.cols|
    requires LastWithKey(g, i0, j0)
    ensures Lookup(OuterFrom(g, c, i0), PairKey(g, i0, j0)) == PairValue(g, i0, j0)
  {
    InnerLastWrite(g, c, i0, i0, j0);
    OuterKeeps(g, InnerFrom(g, c, i0, i0), i0 + 1, PairKey(g, i0, j0));
  }

  /** The last qualifying pair with key k in loop order decides k's value. */
  lemma {:induction false} OuterLastWrite(g: Grid, c: seq<Member>, i: nat, i0: nat, j0: nat)
    requires Shaped(g) && i <= i0 <= j0 < |g.cols|
    requires LastWithKey(g, i0, j0)
    ensures Lookup(OuterFrom(g, c, i), PairKey(g, i0, j0)) == PairValue(g, i0, j0)
    decreases |g.cols| - i
  {
    if i < i0 {
      OuterLastWrite(g, InnerFrom(g, c, i, i), i + 1, i0, j0);
    } else {
      LastWriteInRow(g, c, i0, j0);
    }
  }

  /**
   * A qualifying pair that no later qualifying pair shares its key with leaves
   * the Pearson coefficient of its two columns under that key.
   */
  lemma CorrelationValue(host: Host, rows: seq<Value>, vars: seq<Value>, i0: nat, j0: nat)
    requires Records(rows) && i0 <= j0 < |vars|
    requires LastWithKey(GridOf(host, rows, vars), i0, j0)
    ensures var g := GridOf(host, rows, vars);
      Lookup(Correlations(g), PairKey(g, i0, j0)) ==
        Num(Correlation(host, ColumnOf(host, rows, vars[i0]), ColumnOf(host, rows, vars[j0])))
  {
    var g := GridOf(host, rows, vars);
    OuterLastWrite(g, [], 0, i0, j0);
    CoefsAt(host, g.cols, g.cols, i0, j0);
  }

  // ---------------------------------------------------------------------------
  // The tool

  datatype CorrelationOutcome =
    | InvalidFormat
    | Correlated(methodName: Value, correlations: seq<Member>, variables: Value)

  /** The rows of correlation_analysis: only when the first key is non-empty and holds an array. */
  function CorrelationRows(data: Value): Result<seq<Value>>
    requires data.Obj?
  {
    var keys := KeysOf(data.members);
    if |keys| > 0 && keys[0] != "" && Lookup(data.members, keys[0]).Arr? then
      ZipRows(data, keys, |Lookup(data.members, keys[0]).items|)
    else Ok([])
  }

  /** Rows zipped from an object are objects. */
  lemma CorrelationRowsRecords(data: Value)
    requires data.Obj? && CorrelationRows(data).Ok?
    ensures Records(CorrelationRows(data).value)
  {
    var keys := KeysOf(data.members);
    if |keys| > 0 && keys[0] != "" && Lookup(data.members, keys[0]).Arr? {
      var n := |Lookup(data.members, keys[0]).items|;
      ZipRowsLength(data, keys, n);
      forall i | 0 <= i < n ensures ZipRows(data, keys, n).value[i].Obj? {
        ZipRowsAt(data, keys, n, i);
      }
    }
  }

  /** correlation_analysis on the tool arguments and the request's data. */
  function CorrelationOf(host: Host, args: Value, original: Value): Result<CorrelationOutcome>
  {
    var dataArg :- Prop(args, "data");
    var variables := Or(Prop(args, "variables").value, Arr([]));
    var methodName := Or(Prop(args, "method").value, Str("pearson"));
    DataCorrelation(host, Or(dataArg, original), variables, methodName)
  }

  /**
   * correlation_analysis once its three arguments are read: an array or a
   * non-object is an invalid format, null makes Object.keys throw, and only a
   * plain object reaches the loops.
   */
  function DataCorrelation(host: Host, data: Value, variables: Value, methodName: Value): Result<CorrelationOutcome>
    requires Truthy(variables)
  {
    if data.Obj? then ObjectCorrelation(host, data, variables, methodName) else NonObjectData(data)
  }

  /** `Object.keys(null)` throws; any other non-object is an invalid format. */
  function NonObjectData(data: Value): (r: Result<CorrelationOutcome>)
    requires !data.Obj?
    ensures r.Throw? <==> data.Null?
  {
    if data.Null? then Throw("Cannot convert undefined or null to object") else Ok(InvalidFormat)
  }

  /** correlation_analysis once its data is known to be a plain object. */
  function ObjectCorrelation(host: Host, data: Value, variables: Value, methodName: Value): Result<CorrelationOutcome>
    requires data.Obj? && Truthy(variables)
  {
    var rows :- CorrelationRows(data);
    CorrelationRowsRecords(data);
    Ok(Correlated(methodName, Correlations(GridOf(host, rows, VariableList(host, variables))), variables))
  }

  /** The zipping step of correlation_analysis. */
  method BuildCorrelationRows(data: Value) returns (rows: Result<seq<Value>>)
    requires data.Obj?
    ensures rows == CorrelationRows(data)
  {
    var keys := KeysOf(data.members);
    rows := Ok([]);
    if |keys| > 0 && keys[0] != "" && Lookup(data.members, keys[0]).Arr? {
      rows := BuildZippedRows(data, keys, |Lookup(data.members, keys[0]).items|);
    }
  }

  /** The two loops of correlation_analysis over the rows and its variables argument. */
  method CorrelateRows(host: Host, rows: seq<Value>, variables: Value) returns (c: seq<Member>)
    requires Records(rows) && Truthy(variables)
    ensures c == Correlations(GridOf(host, rows, VariableList(host, variables)))
  {
    var vars := VariableList(host, variables);
    GridDescribes(host, rows, vars);
    c := CorrelationLoops(host, rows, vars, GridOf(host, rows, vars));
  }

  /** correlation_analysis as the source runs it. */
  method CorrelationAnalysis(host: Host, args: Value, original: Value) returns (r: Result<CorrelationOutcome>)
    ensures r == CorrelationOf(host, args, original)
  {
    var dataArg := Prop(args, "data");
    if dataArg.Throw? {
      return Throw(dataArg.message);
    }
    var variables := Or(Prop(args, "variables").value, Arr([]));
    var methodName := Or(Prop(args, "method").value, Str("pearson"));
    r := CorrelateData(host, Or(dataArg.value, original), variables, methodName);
  }

  /** The format checks of correlation_analysis, then the object case. */
  method CorrelateData(host: Host, data: Value, variables: Value, methodName: Value) returns (r: Result<CorrelationOutcome>)
    requires Truthy(variables)
    ensures r == DataCorrelation(host, data, variables, methodName)
  {
    if data.Obj? {
      r := CorrelateObject(host, data, variables, methodName);
    } else {
      r := NonObjectData(data);
    }
  }

  /** The rows and the two loops of correlation_analysis on an object. */
  method CorrelateObject(host: Host, data: Value, variables: Value, methodName: Value) returns (r: Result<CorrelationOutcome>)
    requires data.Obj? && Truthy(variables)
    ensures r == ObjectCorrelation(host, data, variables, methodName)
  {
    var rows := BuildCorrelationRows(data);
    if rows.Throw? {
      return Throw(rows.message);
    }
    CorrelationRowsRecords(data);
    var c := CorrelateRows(host, rows.value, variables);
    return Ok(Correlated(methodName, c, variables));
  }

  /** Arrays and non-objects are rejected with the invalid-format result; objects never are. */
  lemma InvalidFormatExactly(host: Host, args: Value, original: Value)
    requires Prop(args, "data").Ok?
    ensures var data := Or(Prop(args, "data").value, original);
      CorrelationOf(host, args, original) == Ok(InvalidFormat) <==> data.Arr? || TypeOf(data) != "object"
  {
    TypeOfObject(Or(Prop(args, "data").value, original));
  }
}

/**
 * extractColumn: the list of values a statistics or outlier tool works on,
 * taken from a plain array, from one field of every row of an array of
 * records, or from one array-valued field of an object of columns.
 */
module Columns {
  import opened JsRuntime
  import opened Json
  import opened Stats

  /**
   * `vs.filter(v => typeof v === 'number' && !isNaN(v))`: the numbers of the
   * list, in list order.
   */
  function KeepNumbers(vs: seq<Value>): (r: seq<Value>)
    ensures |r| <= |vs|
    ensures forall k :: 0 <= k < |r| ==> r[k].Num?
    ensures forall v :: v in r <==> v in vs && v.Num?
  {
    if vs == [] then []
    else
      var init := vs[..|vs| - 1];
      assert vs == init + [vs[|vs| - 1]];
      var r := KeepNumbers(init);
      if vs[|vs| - 1].Num? then r + [vs[|vs| - 1]] else r
  }

  /** The numbers xs as JSON values. */
  function AsValues(xs: seq<real>): (r: seq<Value>)
    ensures |r| == |xs|
    ensures forall k :: 0 <= k < |xs| ==> r[k] == Num(xs[k])
  {
    seq(|xs|, k requires 0 <= k < |xs| => Num(xs[k]))
  }

  /** The filtered list holds exactly the list's numbers, in order. */
  lemma {:induction false} KeepNumbersAgrees(vs: seq<Value>)
    ensures KeepNumbers(vs) == AsValues(Numbers(vs))
  {
    if vs != [] {
      var init := vs[..|vs| - 1];
      var last := vs[|vs| - 1];
      KeepNumbersAgrees(init);
      NumbersStep(vs);
      if last.Num? {
        assert AsValues(Numbers(init) + [last.n]) == AsValues(Numbers(init)) + [last];
      }
    }
  }

  /** Numbers grows by the last element exactly when that element is a number. */
  lemma NumbersStep(vs: seq<Value>)
    requires vs != []
    ensures var init, last := vs[..|vs| - 1], vs[|vs| - 1];
      Numbers(vs) == if last.Num? then Numbers(init) + [last.n] else Numbers(init)
  {
    var init, last := vs[..|vs| - 1], vs[|vs| - 1];
    var es := NumericEntries(init);
    if last.Num? {
      assert NumericEntries(vs) == es + [Entry(|vs| - 1, last.n)];
      assert EntryValues(es + [Entry(|vs| - 1, last.n)]) == EntryValues(es) + [last.n];
    } else {
      assert NumericEntries(vs) == es;
    }
  }

  /** Filtering twice changes nothing. */
  lemma {:induction false} KeepNumbersIdempotent(vs: seq<Value>)
    ensures KeepNumbers(KeepNumbers(vs)) == KeepNumbers(vs)
  {
    if vs != [] {
      var init := vs[..|vs| - 1];
      KeepNumbersIdempotent(init);
      KeepNumbersOfNumbers(KeepNumbers(vs));
    }
  }

  /** A list of numbers passes the filter unchanged. */
  lemma {:induction false} KeepNumbersOfNumbers(vs: seq<Value>)
    requires forall k :: 0 <= k < |vs| ==> vs[k].Num?
    ensures KeepNumbers(vs) == vs
  {
    if vs != [] {
      var init := vs[..|vs| - 1];
      KeepNumbersOfNumbers(init);
      assert init + [vs[|vs| - 1]] == vs;
    }
  }

  /**
   * `rows.map(row => row[key])`: throws on the first row that is null or
   * undefined.
   */
  function Project(rows: seq<Value>, key: string): (r: Result<seq<Value>>)
    ensures r.Ok? <==> forall i :: 0 <= i < |rows| ==> !rows[i].Null? && !rows[i].Undefined?
    ensures r.Ok? ==> |r.value| == |rows| && forall i :: 0 <= i < |rows| ==> Prop(rows[i], key) == Ok(r.value[i])
  {
    if rows == [] then Ok([])
    else
      var first :- Prop(rows[0], key);
      var rest :- Project(rows[1..], key);
      assert forall i :: 1 <= i < |rows| ==> rows[i] == rows[1..][i - 1];
      Ok([first] + rest)
  }

  /** extractColumn(data, column), with the column used as a property key through String(). */
  function ExtractColumn(host: Host, data: Value, column: Value): Result<seq<Value>>
  {
    if !Truthy(column) then Ok(if data.Arr? then data.items else [])
    else
      var key := ToText(host, column);
      if data.Arr? && |data.items| > 0 && ObjectTyped(data.items[0]) then
        var projected :- Project(data.items, key);
        Ok(KeepNumbers(projected))
      else if ObjectTyped(data) then
        var field :- Prop(data, key);
        if Truthy(field) && field.Arr? then Ok(KeepNumbers(field.items)) else Ok([])
      else Ok([])
  }

  /** Without a column the input is returned unfiltered when it is an array, and [] otherwise. */
  lemma ExtractWithoutColumn(host: Host, data: Value, column: Value)
    requires !Truthy(column)
    ensures ExtractColumn(host, data, column) == Ok(if data.Arr? then data.items else [])
  {
  }

  /** With a column every extracted value is a number. */
  lemma ExtractColumnNumeric(host: Host, data: Value, column: Value)
    requires Truthy(column) && ExtractColumn(host, data, column).Ok?
    ensures forall k :: 0 <= k < |ExtractColumn(host, data, column).value| ==>
              ExtractColumn(host, data, column).value[k].Num?
  {
  }

  /**
   * Over an array whose first element is an object (or null), null-free rows
   * give exactly the numbers found under the key, in row order.
   */
  lemma ExtractFromRecords(host: Host, rows: seq<Value>, column: Value)
    requires Truthy(column) && |rows| > 0 && ObjectTyped(rows[0])
    requires forall i :: 0 <= i < |rows| ==> !rows[i].Null? && !rows[i].Undefined?
    ensures var key := ToText(host, column);
      var r := ExtractColumn(host, Arr(rows), column);
      && r.Ok?
      && r.value == AsValues(Numbers(Project(rows, key).value))
      && (forall v :: v in r.value <==> v.Num? && exists i :: 0 <= i < |rows| && Prop(rows[i], key) == Ok(v))
  {
    var key := ToText(host, column);
    var projected := Project(rows, key).value;
    KeepNumbersAgrees(projected);
    forall v: Value | v.Num? && exists i :: 0 <= i < |rows| && Prop(rows[i], key) == Ok(v)
      ensures v in projected
    {
      var i :| 0 <= i < |rows| && Prop(rows[i], key) == Ok(v);
      assert projected[i] == v;
    }
  }

  /** An object whose field is an array gives that array's numbers. */
  lemma ExtractFromColumns(host: Host, ms: seq<Member>, column: Value)
    requires Truthy(column) && Lookup(ms, ToText(host, column)).Arr?
    ensures ExtractColumn(host, Obj(ms), column) == Ok(KeepNumbers(Lookup(ms, ToText(host, column)).items))
  {
  }

  /**
   * With a column, an input that is neither an array of records nor an object
   * with a truthy array under the column gives [] (or throws on null).
   */
  lemma ExtractOtherwiseEmpty(host: Host, data: Value, column: Value)
    requires Truthy(column) && !data.Null?
    requires !(data.Arr? && |data.items| > 0 && ObjectTyped(data.items[0]))
    requires !(ObjectTyped(data) && Prop(data, ToText(host, column)).value.Arr?)
    ensures ExtractColumn(host, data, column) == Ok([])
  {
  }

  /**
   * extractColumn throws exactly when a column is given and either the input
   * is null, or it is an array of records with a null or undefined row.
   */
  lemma ExtractThrows(host: Host, data: Value, column: Value)
    ensures ExtractColumn(host, data, column).Throw? <==>
      Truthy(column) &&
      (data.Null? ||
       (data.Arr? && |data.items| > 0 && ObjectTyped(data.items[0]) &&
        exists i :: 0 <= i < |data.items| && (data.items[i].Null? || data.items[i].Undefined?)))
  {
  }
}

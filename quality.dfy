/**
 * check_data_quality: the rows of a dataset, the missing-value count and the
 * value kinds of every column, and the number of duplicate rows.
 */
module Quality {
  import opened JsRuntime
  import opened Json
  import opened Stats
  import opened Columns

  // ---------------------------------------------------------------------------
  // Rows

  /** `data[key][i]`, the cell of row i in one column of an object of columns. */
  function Cell(data: Value, key: string, i: nat): Result<Value>
  {
    var column :- Prop(data, key);
    Index(column, i)
  }

  /** The row object for index i: `row[key] = data[key][i]` for each key in turn. */
  function ZipRow(data: Value, keys: seq<string>, i: nat): Result<seq<Member>>
  {
    if keys == [] then Ok([])
    else
      var row :- ZipRow(data, keys[..|keys| - 1], i);
      var cell :- Cell(data, keys[|keys| - 1], i);
      Ok(Assign(row, keys[|keys| - 1], cell))
  }

  /** Rows 0 to n - 1 of an object of columns, built in index order. */
  function ZipRows(data: Value, keys: seq<string>, n: nat): Result<seq<Value>>
  {
    if n == 0 then Ok([])
    else
      var rows :- ZipRows(data, keys, n - 1);
      var row :- ZipRow(data, keys, n - 1);
      Ok(rows + [Obj(row)])
  }

  /**
   * The rows of the dataset: an array as it is; an object whose first key
   * holds an array, zipped to that array's length; any other object as a
   * single row; anything else as no rows.
   */
  function RowsOf(data: Value): Result<seq<Value>>
  {
    match data
    case Arr(items) => Ok(items)
    case Null => Throw("Cannot convert undefined or null to object")
    case Obj(ms) =>
      var keys := KeysOf(ms);
      if |keys| > 0 && Lookup(ms, keys[0]).Arr? then ZipRows(data, keys, |Lookup(ms, keys[0]).items|)
      else Ok([data])
    case _ => Ok([])
  }

  /** Once the row for a prefix of the keys throws, the whole row throws the same error. */
  lemma {:induction false} ZipRowThrows(data: Value, keys: seq<string>, j: nat, i: nat)
    requires j <= |keys|
    requires ZipRow(data, keys[..j], i).Throw?
    ensures ZipRow(data, keys, i) == ZipRow(data, keys[..j], i)
    decreases |keys| - j
  {
    if j < |keys| {
      var init := keys[..|keys| - 1];
      assert init[..j] == keys[..j];
      ZipRowThrows(data, init, j, i);
    } else {
      assert keys[..j] == keys;
    }
  }

  /** Once the rows up to m throw, all later row counts throw the same error. */
  lemma {:induction false} ZipRowsThrow(data: Value, keys: seq<string>, m: nat, n: nat)
    requires m <= n
    requires ZipRows(data, keys, m).Throw?
    ensures ZipRows(data, keys, n) == ZipRows(data, keys, m)
    decreases n - m
  {
    if m < n {
      ZipRowsThrow(data, keys, m, n - 1);
    }
  }

  /** The row for one more key extends the row for the keys before it. */
  lemma ZipRowStep(data: Value, keys: seq<string>, j: nat, i: nat)
    requires j < |keys|
    ensures ZipRow(data, keys[..j + 1], i)
            == (if ZipRow(data, keys[..j], i).Throw? then ZipRow(data, keys[..j], i)
                else if Cell(data, keys[j], i).Throw? then Throw(Cell(data, keys[j], i).message)
                else Ok(Assign(ZipRow(data, keys[..j], i).value, keys[j], Cell(data, keys[j], i).value)))
  {
    var next := keys[..j + 1];
    assert next[..|next| - 1] == keys[..j] && next[|next| - 1] == keys[j];
  }

  /** One row object, built key by key as the inner `keys.forEach` does. */
  method BuildRow(data: Value, keys: seq<string>, i: nat) returns (r: Result<seq<Member>>)
    ensures r == ZipRow(data, keys, i)
  {
    var row: seq<Member> := [];
    var j := 0;
    while j < |keys|
      invariant 0 <= j <= |keys|
      invariant ZipRow(data, keys[..j], i) == Ok(row)
    {
      ZipRowStep(data, keys, j, i);
      var cell := Cell(data, keys[j], i);
      if cell.Throw? {
        ZipRowThrows(data, keys, j + 1, i);
        return Throw(cell.message);
      }
      row := Assign(row, keys[j], cell.value);
      j := j + 1;
    }
    assert keys[..j] == keys;
    return Ok(row);
  }

  /** The rows of an object of columns, built in index order as `Array.from` does. */
  method BuildZippedRows(data: Value, keys: seq<string>, n: nat) returns (r: Result<seq<Value>>)
    ensures r == ZipRows(data, keys, n)
  {
    var rows: seq<Value> := [];
    var i := 0;
    while i < n
      invariant 0 <= i <= n
      invariant ZipRows(data, keys, i) == Ok(rows)
    {
      var row := BuildRow(data, keys, i);
      if row.Throw? {
        ZipRowsThrow(data, keys, i + 1, n);
        return Throw(row.message);
      }
      assert ZipRows(data, keys, i + 1) == Ok(rows + [Obj(row.value)]);
      rows := rows + [Obj(row.value)];
      i := i + 1;
    }
    return Ok(rows);
  }

  /** The rows of the dataset, as the branches of the source compute them. */
  method BuildRows(data: Value) returns (r: Result<seq<Value>>)
    ensures r == RowsOf(data)
  {
    if data.Arr? {
      r := Ok(data.items);
    } else if data.Null? {
      r := Throw("Cannot convert undefined or null to object");
    } else if data.Obj? {
      var keys := KeysOf(data.members);
      if |keys| > 0 && Lookup(data.members, keys[0]).Arr? {
        r := BuildZippedRows(data, keys, |Lookup(data.members, keys[0]).items|);
      } else {
        r := Ok([data]);
      }
    } else {
      r := Ok([]);
    }
  }

  /** Row i of a zipped object holds, under every key, the i-th cell of that key's column. */
  lemma {:induction false} ZipRowCells(data: Value, keys: seq<string>, i: nat, key: string)
    requires ZipRow(data, keys, i).Ok?
    requires key in keys
    ensures Cell(data, key, i).Ok?
    ensures Lookup(ZipRow(data, keys, i).value, key) == Cell(data, key, i).value
  {
    var init := keys[..|keys| - 1];
    var last := keys[|keys| - 1];
    assert keys == init + [last];
    assert ZipRow(data, init, i).Ok? && Cell(data, last, i).Ok?;
    var row := ZipRow(data, init, i).value;
    var cell := Cell(data, last, i).value;
    assert ZipRow(data, keys, i) == Ok(Assign(row, last, cell));
    LookupAssign(row, last, cell, key);
    if key != last {
      assert key in init;
      ZipRowCells(data, init, i, key);
    }
  }

  /** A zipped object has exactly the requested number of rows. */
  lemma {:induction false} ZipRowsLength(data: Value, keys: seq<string>, n: nat)
    requires ZipRows(data, keys, n).Ok?
    ensures |ZipRows(data, keys, n).value| == n
  {
    if n > 0 {
      ZipRowsLength(data, keys, n - 1);
    }
  }

  /** Row i of a zipped object is the object ZipRow builds for index i. */
  lemma {:induction false} ZipRowsAt(data: Value, keys: seq<string>, n: nat, i: nat)
    requires ZipRows(data, keys, n).Ok? && i < n
    ensures ZipRow(data, keys, i).Ok? && |ZipRows(data, keys, n).value| == n
    ensures ZipRows(data, keys, n).value[i] == Obj(ZipRow(data, keys, i).value)
  {
    var prev := ZipRows(data, keys, n - 1);
    assert prev.Ok?;
    ZipRowsLength(data, keys, n - 1);
    if i < n - 1 {
      ZipRowsAt(data, keys, n - 1, i);
    }
  }

  /**
   * The three ways rows are derived: an array is taken as it is; an object
   * whose first key holds an array becomes one row per element of that
   * array (see ZipRowsCells); any other object is a single row; null
   * throws and anything else has no rows.
   */
  lemma RowsOfShape(data: Value)
    ensures data.Arr? ==> RowsOf(data) == Ok(data.items)
    ensures data.Null? ==> RowsOf(data).Throw?
    ensures !data.Arr? && !data.Obj? && !data.Null? ==> RowsOf(data) == Ok([])
    ensures data.Obj? && (KeysOf(data.members) == [] || !Lookup(data.members, KeysOf(data.members)[0]).Arr?) ==>
              RowsOf(data) == Ok([data])
    ensures data.Obj? && KeysOf(data.members) != [] && Lookup(data.members, KeysOf(data.members)[0]).Arr? ==>
              var keys := KeysOf(data.members);
              RowsOf(data) == ZipRows(data, keys, |Lookup(data.members, keys[0]).items|)
  {
  }

  /** Rows 0 to n - 1, when they can be built, hold `data[key][i]` under every key. */
  lemma ZipRowsCells(data: Value, keys: seq<string>, n: nat)
    requires ZipRows(data, keys, n).Ok?
    ensures var rows := ZipRows(data, keys, n).value;
            && |rows| == n
            && forall i, key :: 0 <= i < n && key in keys ==>
                 rows[i].Obj? && Cell(data, key, i).Ok? && Lookup(rows[i].members, key) == Cell(data, key, i).value
  {
    ZipRowsLength(data, keys, n);
    forall i, key | 0 <= i < n && key in keys
      ensures var rows := ZipRows(data, keys, n).value;
        rows[i].Obj? && Cell(data, key, i).Ok? && Lookup(rows[i].members, key) == Cell(data, key, i).value
    {
      ZipRowsAt(data, keys, n, i);
      ZipRowCells(data, keys, i, key);
    }
  }

  // ---------------------------------------------------------------------------
  // Columns

  /** Object.keys(row) as values: the default column list is the first row's keys. */
  function KeyValues(keys: seq<string>): (r: seq<Value>)
    ensures |r| == |keys|
    ensures forall i :: 0 <= i < |keys| ==> r[i] == Str(keys[i])
  {
    seq(|keys|, i requires 0 <= i < |keys| => Str(keys[i]))
  }

  /**
   * `args.columns || (rows.length > 0 ? Object.keys(rows[0]) : [])`, iterated
   * with forEach: a truthy value that is not an array has no forEach.
   */
  function ReportColumns(columnsArg: Value, rows: seq<Value>): Result<seq<Value>>
  {
    if Truthy(columnsArg) then
      if columnsArg.Arr? then Ok(columnsArg.items) else Throw("columns.forEach is not a function")
    else if |rows| > 0 then
      var keys :- ObjectKeys(rows[0]);
      Ok(KeyValues(keys))
    else Ok([])
  }

  // ---------------------------------------------------------------------------
  // Per-column tallies

  /** `v === null || v === undefined || v === '' || isNaN(v)`. */
  predicate Missing(host: Host, v: Value)
  {
    v.Null? || v.Undefined? || v == Str("") || LooseIsNaN(host, v)
  }

  /** `v !== null && v !== undefined && v !== ''`: NaN and non-numeric strings are present. */
  predicate Present(v: Value)
  {
    !v.Null? && !v.Undefined? && v != Str("")
  }

  /** The number of missing values. */
  function MissingCount(host: Host, vs: seq<Value>): (c: nat)
    ensures c <= |vs|
  {
    if vs == [] then 0
    else (if Missing(host, vs[0]) then 1 else 0) + MissingCount(host, vs[1..])
  }

  /** `Array.from(new Set(nonMissing.map(v => typeof v)))`: the kinds in order of first appearance. */
  function Kinds(vs: seq<Value>): seq<string>
  {
    if vs == [] then []
    else
      var kinds := Kinds(vs[..|vs| - 1]);
      var v := vs[|vs| - 1];
      if Present(v) && TypeOf(v) !in kinds then kinds + [TypeOf(v)] else kinds
  }

  /** The kinds are distinct, and are exactly the `typeof` of the present values. */
  lemma {:induction false} KindsSound(vs: seq<Value>)
    ensures forall a, b :: 0 <= a < b < |Kinds(vs)| ==> Kinds(vs)[a] != Kinds(vs)[b]
    ensures forall t :: t in Kinds(vs) <==> exists i :: 0 <= i < |vs| && Present(vs[i]) && TypeOf(vs[i]) == t
  {
    if vs != [] {
      var init := vs[..|vs| - 1];
      KindsSound(init);
      assert forall i :: 0 <= i < |init| ==> init[i] == vs[i];
      forall t | exists i :: 0 <= i < |vs| && Present(vs[i]) && TypeOf(vs[i]) == t
        ensures t in Kinds(vs)
      {
        var i :| 0 <= i < |vs| && Present(vs[i]) && TypeOf(vs[i]) == t;
        if i < |init| {
          assert Present(init[i]) && TypeOf(init[i]) == t;
        }
      }
    }
  }

  /** The type array of a column: `Array.from(types)`. */
  function KindsValue(kinds: seq<string>): (v: Value)
    ensures v.Arr? && |v.items| == |kinds|
    ensures forall i :: 0 <= i < |kinds| ==> v.items[i] == Str(kinds[i])
  {
    Arr(KeyValues(kinds))
  }

  /** `{ count, percentage }` for a column with `count` missing values out of `total` rows. */
  function MissingRecord(count: nat, total: nat): Value
  {
    Obj([Member("count", Num(count as real)), Member("percentage", Num(Percentage(count, total)))])
  }

  /** The two objects the source fills column by column. */
  datatype Tally = Tally(missingValues: seq<Member>, dataTypes: seq<Member>)

  /** The body of the forEach for one column. */
  function TallyColumn(host: Host, rows: seq<Value>, t: Tally, column: Value): Result<Tally>
  {
    var key := ToText(host, column);
    var values :- Project(rows, key);
    var missing := Assign(t.missingValues, key, MissingRecord(MissingCount(host, values), |rows|));
    var kinds := Kinds(values);
    Ok(Tally(missing, if kinds == [] then t.dataTypes else Assign(t.dataTypes, key, KindsValue(kinds))))
  }

  /** The tallies after the forEach has visited the given columns in order. */
  function TallyColumns(host: Host, rows: seq<Value>, columns: seq<Value>): Result<Tally>
  {
    if columns == [] then Ok(Tally([], []))
    else
      var t :- TallyColumns(host, rows, columns[..|columns| - 1]);
      TallyColumn(host, rows, t, columns[|columns| - 1])
  }

  lemma {:induction false} TallyThrows(host: Host, rows: seq<Value>, columns: seq<Value>, j: nat)
    requires j <= |columns|
    requires TallyColumns(host, rows, columns[..j]).Throw?
    ensures TallyColumns(host, rows, columns) == TallyColumns(host, rows, columns[..j])
    decreases |columns| - j
  {
    if j < |columns| {
      var init := columns[..|columns| - 1];
      assert init[..j] == columns[..j];
      TallyThrows(host, rows, init, j);
    } else {
      assert columns[..j] == columns;
    }
  }

  /** The forEach over the columns, updating the two report objects in place. */
  method TallyLoop(host: Host, rows: seq<Value>, columns: seq<Value>) returns (r: Result<Tally>)
    ensures r == TallyColumns(host, rows, columns)
  {
    var missingValues: seq<Member> := [];
    var dataTypes: seq<Member> := [];
    var i := 0;
    while i < |columns|
      invariant 0 <= i <= |columns|
      invariant TallyColumns(host, rows, columns[..i]) == Ok(Tally(missingValues, dataTypes))
    {
      assert columns[..i + 1][..i] == columns[..i];
      var key := ToText(host, columns[i]);
      var values := Project(rows, key);
      if values.Throw? {
        TallyThrows(host, rows, columns, i + 1);
        return Throw(values.message);
      }
      var missing := MissingCount(host, values.value);
      missingValues := Assign(missingValues, key, MissingRecord(missing, |rows|));
      var kinds := Kinds(values.value);
      if kinds != [] {
        dataTypes := Assign(dataTypes, key, KindsValue(kinds));
      }
      i := i + 1;
    }
    assert columns[..i] == columns;
    return Ok(Tally(missingValues, dataTypes));
  }

  /**
   * After the forEach, every visited column's key maps to its missing record
   * and, when it has present values, to its kinds; no other key is set.
   */
  lemma {:induction false} TallySound(host: Host, rows: seq<Value>, columns: seq<Value>, c: nat)
    requires TallyColumns(host, rows, columns).Ok?
    requires c < |columns|
    ensures var key := ToText(host, columns[c]);
      var t := TallyColumns(host, rows, columns).value;
      && Project(rows, key).Ok?
      && Lookup(t.missingValues, key) == MissingRecord(MissingCount(host, Project(rows, key).value), |rows|)
      && Lookup(t.dataTypes, key) ==
           (var kinds := Kinds(Project(rows, key).value); if kinds == [] then Undefined else KindsValue(kinds))
  {
    var init := columns[..|columns| - 1];
    var last := columns[|columns| - 1];
    var t := TallyColumns(host, rows, init).value;
    var key := ToText(host, columns[c]);
    var lastKey := ToText(host, last);
    var values := Project(rows, lastKey).value;
    var kinds := Kinds(values);
    LookupAssign(t.missingValues, lastKey, MissingRecord(MissingCount(host, values), |rows|), key);
    if kinds != [] {
      LookupAssign(t.dataTypes, lastKey, KindsValue(kinds), key);
    }
    if c < |columns| - 1 {
      assert columns[c] == init[c];
      TallySound(host, rows, init, c);
    } else if kinds == [] {
      TallyKeyUnset(host, rows, init, lastKey);
    }
  }

  /** A key whose column has no present values is never set in the kinds object. */
  lemma {:induction false} TallyKeyUnset(host: Host, rows: seq<Value>, columns: seq<Value>, key: string)
    requires TallyColumns(host, rows, columns).Ok?
    requires Project(rows, key).Ok? && Kinds(Project(rows, key).value) == []
    ensures Lookup(TallyColumns(host, rows, columns).value.dataTypes, key) == Undefined
  {
    if columns != [] {
      var init := columns[..|columns| - 1];
      var t := TallyColumns(host, rows, init).value;
      var lastKey := ToText(host, columns[|columns| - 1]);
      var kinds := Kinds(Project(rows, lastKey).value);
      TallyKeyUnset(host, rows, init, key);
      if kinds != [] {
        LookupAssign(t.dataTypes, lastKey, KindsValue(kinds), key);
      }
    }
  }

  /** The keys of the missing-values object are exactly the visited column keys. */
  lemma {:induction false} TallyKeys(host: Host, rows: seq<Value>, columns: seq<Value>, k: string)
    requires TallyColumns(host, rows, columns).Ok?
    ensures k in KeysOf(TallyColumns(host, rows, columns).value.missingValues) <==>
              exists c :: 0 <= c < |columns| && ToText(host, columns[c]) == k
  {
    if columns != [] {
      var init := columns[..|columns| - 1];
      TallyStepKeys(host, rows, columns, k);
      TallyKeys(host, rows, init, k);
      LastColumnKey(host, columns, init, k);
    }
  }

  /** A key is among the columns' keys when it is among the earlier ones or is the last one's. */
  lemma LastColumnKey(host: Host, columns: seq<Value>, init: seq<Value>, k: string)
    requires columns != [] && init == columns[..|columns| - 1]
    ensures (exists c :: 0 <= c < |columns| && ToText(host, columns[c]) == k) <==>
              (exists c :: 0 <= c < |init| && ToText(host, init[c]) == k) ||
              ToText(host, columns[|columns| - 1]) == k
  {
    if exists c :: 0 <= c < |init| && ToText(host, init[c]) == k {
      var c :| 0 <= c < |init| && ToText(host, init[c]) == k;
      assert columns[c] == init[c];
    }
    if exists c :: 0 <= c < |columns| && ToText(host, columns[c]) == k {
      var c :| 0 <= c < |columns| && ToText(host, columns[c]) == k;
      if c < |init| {
        assert columns[c] == init[c];
      }
    }
  }

  /** Visiting one more column adds its key to the missing-values object and no other. */
  lemma TallyStepKeys(host: Host, rows: seq<Value>, columns: seq<Value>, k: string)
    requires columns != [] && TallyColumns(host, rows, columns).Ok?
    ensures TallyColumns(host, rows, columns[..|columns| - 1]).Ok?
    ensures k in KeysOf(TallyColumns(host, rows, columns).value.missingValues) <==>
              k in KeysOf(TallyColumns(host, rows, columns[..|columns| - 1]).value.missingValues) ||
              k == ToText(host, columns[|columns| - 1])
  {
    var t := TallyColumns(host, rows, columns[..|columns| - 1]).value;
    var lastKey := ToText(host, columns[|columns| - 1]);
    var record := MissingRecord(MissingCount(host, Project(rows, lastKey).value), |rows|);
    KeysOfAssignMembers(t.missingValues, lastKey, record, k);
    assert TallyColumns(host, rows, columns).value.missingValues == Assign(t.missingValues, lastKey, record);
  }

  // ---------------------------------------------------------------------------
  // Duplicate rows

  /** `new Set(rowStrings)`, JSON.stringify giving undefined (None) for an undefined row. */
  function Distinct(texts: seq<Option<string>>): (d: set<Option<string>>)
    ensures |d| <= |texts|
    ensures |texts| > 0 ==> |d| > 0
    ensures forall t :: t in d <==> t in texts
  {
    if texts == [] then {}
    else
      var init := texts[..|texts| - 1];
      assert texts == init + [texts[|texts| - 1]];
      Distinct(init) + {texts[|texts| - 1]}
  }

  /** `rows.map(r => JSON.stringify(r))`. */
  function RowTexts(host: Host, rows: seq<Value>): (texts: seq<Option<string>>)
    ensures |texts| == |rows|
    ensures forall i :: 0 <= i < |rows| ==> texts[i] == Stringify(host, rows[i])
  {
    seq(|rows|, i requires 0 <= i < |rows| => Stringify(host, rows[i]))
  }

  /** `rowStrings.length - uniqueRows.size`. */
  function Duplicates(host: Host, rows: seq<Value>): nat
  {
    var texts := RowTexts(host, rows);
    |texts| - |Distinct(texts)|
  }

  /** There are fewer duplicates than rows, and none without rows or when all rows serialise differently. */
  lemma DuplicatesBounds(host: Host, rows: seq<Value>)
    ensures rows == [] ==> Duplicates(host, rows) == 0
    ensures rows != [] ==> Duplicates(host, rows) < |rows|
    ensures (forall i, j :: 0 <= i < j < |rows| ==> Stringify(host, rows[i]) != Stringify(host, rows[j])) ==>
              Duplicates(host, rows) == 0
  {
    var texts := RowTexts(host, rows);
    if forall i, j :: 0 <= i < j < |rows| ==> Stringify(host, rows[i]) != Stringify(host, rows[j]) {
      DistinctOfInjective(texts);
    }
  }

  lemma {:induction false} DistinctOfInjective(texts: seq<Option<string>>)
    requires forall i, j :: 0 <= i < j < |texts| ==> texts[i] != texts[j]
    ensures |Distinct(texts)| == |texts|
  {
    if texts != [] {
      var init := texts[..|texts| - 1];
      DistinctOfInjective(init);
      assert texts[|texts| - 1] !in init;
      assert texts[|texts| - 1] !in Distinct(init);
    }
  }

  // ---------------------------------------------------------------------------
  // The report

  datatype QualityReport = QualityReport(
    totalRows: nat,
    totalColumns: nat,
    missingValues: seq<Member>,
    duplicates: nat,
    dataTypes: seq<Member>)

  /** check_data_quality on the arguments and the request's data. */
  function QualityOf(host: Host, args: Value, original: Value): Result<QualityReport>
  {
    var dataArg :- Prop(args, "data");
    var rows :- RowsOf(Or(dataArg, original));
    var columns :- ReportColumns(Prop(args, "columns").value, rows);
    var t :- TallyColumns(host, rows, columns);
    Ok(QualityReport(|rows|, |columns|, t.missingValues, Duplicates(host, rows), t.dataTypes))
  }

  /** check_data_quality as the source runs it. */
  method CheckDataQuality(host: Host, args: Value, original: Value) returns (r: Result<QualityReport>)
    ensures r == QualityOf(host, args, original)
  {
    var dataArg := Prop(args, "data");
    if dataArg.Throw? {
      return Throw(dataArg.message);
    }
    var rows := BuildRows(Or(dataArg.value, original));
    if rows.Throw? {
      return Throw(rows.message);
    }
    var columns := ReportColumns(Prop(args, "columns").value, rows.value);
    if columns.Throw? {
      return Throw(columns.message);
    }
    var t := TallyLoop(host, rows.value, columns.value);
    if t.Throw? {
      return Throw(t.message);
    }
    var duplicates := Duplicates(host, rows.value);
    return Ok(QualityReport(|rows.value|, |columns.value|, t.value.missingValues, duplicates, t.value.dataTypes));
  }

  /**
   * The report counts the rows and columns, gives every column a missing
   * count no larger than the row count with a percentage in [0, 100], and
   * counts fewer duplicates than rows.
   */
  lemma QualitySound(host: Host, args: Value, original: Value, c: nat)
    requires QualityOf(host, args, original).Ok?
    ensures var r := QualityOf(host, args, original).value;
      var rows := RowsOf(Or(Prop(args, "data").value, original)).value;
      var columns := ReportColumns(Prop(args, "columns").value, rows).value;
      && r.totalRows == |rows|
      && r.totalColumns == |columns|
      && (r.totalRows == 0 ==> r.duplicates == 0)
      && (r.totalRows > 0 ==> r.duplicates < r.totalRows)
      && (c < |columns| ==>
            var key := ToText(host, columns[c]);
            var count := MissingCount(host, Project(rows, key).value);
            && Lookup(r.missingValues, key) == MissingRecord(count, r.totalRows)
            && count <= r.totalRows
            && 0.0 <= Percentage(count, r.totalRows) <= 100.0)
  {
    var rows := RowsOf(Or(Prop(args, "data").value, original)).value;
    var columns := ReportColumns(Prop(args, "columns").value, rows).value;
    DuplicatesBounds(host, rows);
    if c < |columns| {
      TallySound(host, rows, columns, c);
    }
  }

  /** Without a columns argument the columns are the first row's keys, or none when there are no rows. */
  lemma DefaultColumns(columnsArg: Value, rows: seq<Value>)
    requires !Truthy(columnsArg)
    ensures rows == [] ==> ReportColumns(columnsArg, rows) == Ok([])
    ensures rows != [] && ObjectKeys(rows[0]).Ok? ==> ReportColumns(columnsArg, rows) == Ok(KeyValues(ObjectKeys(rows[0]).value))
  {
  }
}

/** The detect_outliers tool: interquartile-range fences over the numeric entries of a list. */
module Outliers {
  import opened JsRuntime
  import opened Json
  import opened Stats

  /**
   * `args.threshold || 1.5`, then converted to a number by the multiplication
   * `threshold * iqr`; None stands for NaN.
   */
  function Threshold(host: Host, arg: Value): (t: Option<real>)
    ensures !Truthy(arg) ==> t == Some(1.5)
    ensures arg.Num? && arg.n != 0.0 ==> t == Some(arg.n)
  {
    if Truthy(arg) then ToNumber(host, arg) else Some(1.5)
  }

  /**
   * `value < q1 - t * iqr || value > q3 + t * iqr`; with a NaN threshold both
   * comparisons are false.
   */
  predicate Outside(x: real, q1: real, q3: real, t: Option<real>)
  {
    Beyond(x, FencePair(q1, q3, t))
  }

  /** The two fences, or None when the threshold is NaN. */
  function FencePair(q1: real, q3: real, t: Option<real>): Option<(real, real)>
  {
    if t.None? then None else Some((LowerFence(q1, q3, t.value), UpperFence(q1, q3, t.value)))
  }

  /** Below the lower fence or above the upper one. */
  predicate Beyond(x: real, f: Option<(real, real)>)
  {
    f.Some? && (x < f.value.0 || x > f.value.1)
  }

  function LowerFence(q1: real, q3: real, t: real): real
  {
    q1 - t * (q3 - q1)
  }

  function UpperFence(q1: real, q3: real, t: real): real
  {
    q3 + t * (q3 - q1)
  }

  /** With a non-negative threshold the fences lie outside the quartiles. */
  lemma FencesAroundQuartiles(q1: real, q3: real, t: real)
    requires q1 <= q3 && t >= 0.0
    ensures LowerFence(q1, q3, t) <= q1 && q3 <= UpperFence(q1, q3, t)
  {
    assert t * (q3 - q1) >= 0.0;
  }

  /** The entries beyond the fences, in their original order. */
  function KeepOutside(es: seq<Entry>, f: Option<(real, real)>): (r: seq<Entry>)
    ensures |r| <= |es|
    ensures forall k :: 0 <= k < |r| ==> Beyond(r[k].value, f)
  {
    if es == [] then []
    else if Beyond(es[0].value, f) then [es[0]] + KeepOutside(es[1..], f)
    else KeepOutside(es[1..], f)
  }

  /** Entries in strictly increasing position order. */
  ghost predicate Ascending(es: seq<Entry>)
  {
    forall k, l :: 0 <= k < l < |es| ==> es[k].index < es[l].index
  }

  /** Every kept entry is one of the input entries. */
  lemma {:induction false} KeepOutsideFrom(es: seq<Entry>, f: Option<(real, real)>)
    ensures forall e :: e in KeepOutside(es, f) ==> e in es
  {
    if es != [] {
      KeepOutsideFrom(es[1..], f);
    }
  }

  /** Every input entry beyond the fences is kept. */
  lemma {:induction false} KeepOutsideAll(es: seq<Entry>, f: Option<(real, real)>, e: Entry)
    requires e in es && Beyond(e.value, f)
    ensures e in KeepOutside(es, f)
  {
    if e != es[0] {
      KeepOutsideAll(es[1..], f, e);
    }
  }

  /** Filtering keeps ascending positions ascending. */
  lemma {:induction false} KeepOutsideAscending(es: seq<Entry>, f: Option<(real, real)>)
    requires Ascending(es)
    ensures Ascending(KeepOutside(es, f))
  {
    if es != [] {
      var rest := KeepOutside(es[1..], f);
      assert Ascending(es[1..]) by {
        forall k, l | 0 <= k < l < |es| - 1 ensures es[1..][k].index < es[1..][l].index {
          assert es[1..][k] == es[k + 1] && es[1..][l] == es[l + 1];
        }
      }
      KeepOutsideAscending(es[1..], f);
      if Beyond(es[0].value, f) {
        KeepOutsideFrom(es[1..], f);
        forall l | 0 <= l < |rest| ensures es[0].index < rest[l].index {
          assert rest[l] in es[1..];
          var m :| 0 <= m < |es| - 1 && es[1..][m] == rest[l];
          assert es[m + 1] == rest[l];
        }
        var r := [es[0]] + rest;
        forall k, l | 0 <= k < l < |r| ensures r[k].index < r[l].index {
          if k == 0 {
            assert r[l] == rest[l - 1];
          } else {
            assert r[k] == rest[k - 1] && r[l] == rest[l - 1];
          }
        }
      }
    }
  }

  datatype OutlierReport =
    | NoNumbers
    | Found(outliers: seq<Entry>, count: nat, percentage: real)

  /** detect_outliers on an extracted list: the method argument plays no part. */
  function Detect(vs: seq<Value>, t: Option<real>): OutlierReport
  {
    var es := NumericEntries(vs);
    if es == [] then NoNumbers
    else
      var values := EntryValues(es);
      var out := KeepOutside(es, FencePair(LowerQuartile(values), UpperQuartile(values), t));
      Found(out, |out|, Percentage(|out|, |es|))
  }

  /** The fences of detect_outliers, as reported by its lemma. */
  function Fences(vs: seq<Value>): (real, real)
    requires NumericEntries(vs) != []
  {
    var values := Numbers(vs);
    (LowerQuartile(values), UpperQuartile(values))
  }

  /** detect_outliers finds no numeric data exactly when the list holds no number. */
  lemma DetectNoNumbers(vs: seq<Value>, t: Option<real>)
    ensures Detect(vs, t).NoNumbers? <==> forall i :: 0 <= i < |vs| ==> !vs[i].Num?
  {
    var es := NumericEntries(vs);
    if es != [] {
      var k0 := 0;
      assert vs[es[k0].index].Num?;
    }
  }

  /**
   * detect_outliers reports exactly the numeric entries outside the fences,
   * with their positions, in order; its count and percentage agree with the
   * list; and with a non-negative threshold no value between the quartiles is
   * an outlier.
   */
  lemma DetectSound(vs: seq<Value>, t: Option<real>)
    requires Detect(vs, t).Found?
    ensures var r := Detect(vs, t);
      var (q1, q3) := Fences(vs);
      && r.count == |r.outliers|
      && 0.0 <= r.percentage <= 100.0
      && (forall k :: 0 <= k < |r.outliers| ==>
            r.outliers[k].index < |vs| && vs[r.outliers[k].index] == Num(r.outliers[k].value)
            && Outside(r.outliers[k].value, q1, q3, t))
      && (forall k, l :: 0 <= k < l < |r.outliers| ==> r.outliers[k].index < r.outliers[l].index)
  {
    var es := NumericEntries(vs);
    var values := EntryValues(es);
    var out := KeepOutside(es, FencePair(LowerQuartile(values), UpperQuartile(values), t));
    assert Detect(vs, t).outliers == out;
    KeepOutsideFrom(es, FencePair(LowerQuartile(values), UpperQuartile(values), t));
    KeepOutsideAscending(es, FencePair(LowerQuartile(values), UpperQuartile(values), t));
    forall k | 0 <= k < |out| ensures out[k].index < |vs| && vs[out[k].index] == Num(out[k].value) {
      assert out[k] in es;
    }
  }

  /** The reported outliers are the numeric entries filtered by the fences of Fences. */
  lemma DetectFilters(vs: seq<Value>, t: Option<real>)
    requires Detect(vs, t).Found?
    ensures Detect(vs, t).outliers == KeepOutside(NumericEntries(vs), FencePair(Fences(vs).0, Fences(vs).1, t))
  {
  }

  /** Every numeric entry outside the fences is reported. */
  lemma DetectComplete(vs: seq<Value>, t: Option<real>, i: nat)
    requires Detect(vs, t).Found?
    requires i < |vs| && vs[i].Num? && Outside(vs[i].n, Fences(vs).0, Fences(vs).1, t)
    ensures exists k :: 0 <= k < |Detect(vs, t).outliers| && Detect(vs, t).outliers[k].index == i
  {
    var es := NumericEntries(vs);
    var f := FencePair(Fences(vs).0, Fences(vs).1, t);
    DetectFilters(vs, t);
    var k :| 0 <= k < |es| && es[k].index == i;
    KeptPosition(es, f, k);
  }

  /** An entry beyond the fences keeps its position in the filtered list. */
  lemma KeptPosition(es: seq<Entry>, f: Option<(real, real)>, k: nat)
    requires k < |es| && Beyond(es[k].value, f)
    ensures exists m :: 0 <= m < |KeepOutside(es, f)| && KeepOutside(es, f)[m].index == es[k].index
  {
    assert es[k] in es;
    KeepOutsideAll(es, f, es[k]);
    var out := KeepOutside(es, f);
    var m :| 0 <= m < |out| && out[m] == es[k];
  }

  /** With a non-negative threshold, no value between the quartiles is an outlier. */
  lemma NoOutlierBetweenQuartiles(vs: seq<Value>, t: Option<real>, x: real)
    requires NumericEntries(vs) != []
    requires t.Some? && t.value >= 0.0
    requires Fences(vs).0 <= x <= Fences(vs).1
    ensures !Outside(x, Fences(vs).0, Fences(vs).1, t)
  {
    QuartilesOrdered(Numbers(vs));
    FencesAroundQuartiles(Fences(vs).0, Fences(vs).1, t.value);
  }

  /** The list 1, 2, 3, 4, 5, 100. */
  const SmallWithSpike: seq<Value> := seq(6, i requires 0 <= i < 6 => Num(if i < 5 then (i + 1) as real else 100.0))

  const SpikeEntries: seq<Entry> :=
    [Entry(0, 1.0), Entry(1, 2.0), Entry(2, 3.0), Entry(3, 4.0), Entry(4, 5.0), Entry(5, 100.0)]

  lemma SpikeNumbers()
    ensures NumericEntries(SmallWithSpike) == SpikeEntries
  {
    AllNumbersEntries(SmallWithSpike);
  }

  lemma SpikeQuartiles()
    ensures LowerQuartile(EntryValues(SpikeEntries)) == 2.0 && UpperQuartile(EntryValues(SpikeEntries)) == 5.0
  {
    var values := EntryValues(SpikeEntries);
    assert Sorted(values) by {
      forall i, j | 0 <= i < j < 6 ensures values[i] <= values[j] {
        assert values[i] == SpikeEntries[i].value && values[j] == SpikeEntries[j].value;
      }
    }
    RanksOfSorted(values);
    assert values[1] == 2.0 && values[4] == 5.0;
  }

  /**
   * With threshold 1.5, the list 1, 2, 3, 4, 5, 100 (q1 = 2, q3 = 5, fences
   * -2.5 and 9.5) has one outlier, 100 at index 5: one sixth of the values.
   */
  lemma SpikeExample()
    ensures Detect(SmallWithSpike, Some(1.5)) == Found([Entry(5, 100.0)], 1, 100.0 / 6.0)
  {
    SpikeNumbers();
    SpikeQuartiles();
    var es := SpikeEntries;
    var f := FencePair(2.0, 5.0, Some(1.5));
    assert f == Some((-2.5, 9.5));
    assert KeepOutside(es, f) == [Entry(5, 100.0)];
    assert Percentage(1, 6) == 100.0 / 6.0;
  }
}

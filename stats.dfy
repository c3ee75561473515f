/**
 * Descriptive statistics of the calculate_statistics tool: the numeric entries
 * of a list, the ascending sort, nearest-rank quantiles, population variance.
 */
module Stats {
  import opened JsRuntime
  import opened Json

  /** A numeric entry of a list with its position in that list. */
  datatype Entry = Entry(index: nat, value: real)

  /**
   * The entries that pass `typeof n === 'number' && !isNaN(n)`, with their
   * positions, in list order: exactly the positions holding a number.
   */
  function NumericEntries(vs: seq<Value>): (es: seq<Entry>)
    ensures |es| <= |vs|
    ensures forall k :: 0 <= k < |es| ==> es[k].index < |vs| && vs[es[k].index] == Num(es[k].value)
    ensures forall k, l :: 0 <= k < l < |es| ==> es[k].index < es[l].index
    ensures forall i :: 0 <= i < |vs| && vs[i].Num? ==> exists k :: 0 <= k < |es| && es[k].index == i
  {
    if vs == [] then []
    else
      var init := vs[..|vs| - 1];
      var es' := NumericEntries(init);
      assert forall i :: 0 <= i < |init| ==> init[i] == vs[i];
      if vs[|vs| - 1].Num? then
        var es := es' + [Entry(|vs| - 1, vs[|vs| - 1].n)];
        assert forall k :: 0 <= k < |es'| ==> es[k] == es'[k];
        assert es[|es'|].index == |vs| - 1;
        es
      else es'
  }

  /** A list of numbers only: every element is an entry, at its own position. */
  lemma {:induction false} AllNumbersEntries(vs: seq<Value>)
    requires forall i :: 0 <= i < |vs| ==> vs[i].Num?
    ensures |NumericEntries(vs)| == |vs|
    ensures forall k :: 0 <= k < |vs| ==> NumericEntries(vs)[k] == Entry(k, vs[k].n)
  {
    if vs != [] {
      var init := vs[..|vs| - 1];
      AllNumbersEntries(init);
      assert NumericEntries(vs) == NumericEntries(init) + [Entry(|vs| - 1, vs[|vs| - 1].n)];
    }
  }

  function EntryValues(es: seq<Entry>): (r: seq<real>)
    ensures |r| == |es|
    ensures forall k :: 0 <= k < |es| ==> r[k] == es[k].value
  {
    seq(|es|, k requires 0 <= k < |es| => es[k].value)
  }

  /** The numbers of a list, in list order. */
  function Numbers(vs: seq<Value>): seq<real>
  {
    EntryValues(NumericEntries(vs))
  }

  /** A list has no numbers exactly when none of its elements is a number. */
  lemma NumbersEmptyExactly(vs: seq<Value>)
    ensures Numbers(vs) == [] <==> forall i :: 0 <= i < |vs| ==> !vs[i].Num?
  {
    var es := NumericEntries(vs);
    if es != [] {
      assert vs[es[0].index].Num?;
    }
  }

  function Sum(s: seq<real>): real
  {
    if s == [] then 0.0 else s[0] + Sum(s[1..])
  }

  /** Sum of squared deviations from m. */
  function SquaredDeviations(s: seq<real>, m: real): (r: real)
    ensures r >= 0.0
  {
    if s == [] then 0.0
    else
      var d := s[0] - m;
      assert d * d >= 0.0;
      d * d + SquaredDeviations(s[1..], m)
  }

  /** Math.min(...s). */
  function MinOf(s: seq<real>): (r: real)
    requires |s| > 0
    ensures r in s
    ensures forall x :: x in s ==> r <= x
  {
    if |s| == 1 then s[0]
    else
      var rest := MinOf(s[1..]);
      assert forall x :: x in s ==> x == s[0] || x in s[1..];
      if s[0] <= rest then s[0] else rest
  }

  /** Math.max(...s). */
  function MaxOf(s: seq<real>): (r: real)
    requires |s| > 0
    ensures r in s
    ensures forall x :: x in s ==> x <= r
  {
    if |s| == 1 then s[0]
    else
      var rest := MaxOf(s[1..]);
      assert forall x :: x in s ==> x == s[0] || x in s[1..];
      if s[0] >= rest then s[0] else rest
  }

  /** `whole > 0 ? (part / whole) * 100 : 0`. */
  function Percentage(part: nat, whole: nat): (p: real)
    ensures part <= whole ==> 0.0 <= p <= 100.0
    ensures whole > 0 ==> p * (whole as real) == (part as real) * 100.0
  {
    if whole > 0 then
      var q := part as real / whole as real;
      assert q * (whole as real) == part as real;
      assert part <= whole ==> q <= 1.0;
      q * 100.0
    else 0.0
  }

  // ---------------------------------------------------------------------------
  // Sorting: [...s].sort((a, b) => a - b)

  ghost predicate Sorted(s: seq<real>)
  {
    forall i, j :: 0 <= i < j < |s| ==> s[i] <= s[j]
  }

  function Insert(x: real, s: seq<real>): (r: seq<real>)
    requires Sorted(s)
    ensures Sorted(r)
    ensures multiset(r) == multiset(s) + multiset{x}
    ensures |r| == |s| + 1
    ensures forall i :: 0 <= i < |r| ==> r[i] == x || r[i] in s
  {
    if s == [] || x <= s[0] then
      SortedCons(x, s);
      [x] + s
    else
      var rest := Insert(x, s[1..]);
      assert s == [s[0]] + s[1..];
      assert forall i :: 0 <= i < |rest| ==> s[0] <= rest[i];
      SortedCons(s[0], rest);
      [s[0]] + rest
  }

  /** A value at most every element of a sorted list, put in front, keeps it sorted. */
  lemma SortedCons(a: real, t: seq<real>)
    requires Sorted(t)
    requires t != [] ==> a <= t[0]
    ensures Sorted([a] + t)
  {
    var r := [a] + t;
    forall i, j | 0 <= i < j < |r| ensures r[i] <= r[j] {
      assert r[j] == t[j - 1];
      if i > 0 {
        assert r[i] == t[i - 1];
      }
    }
  }

  /** The ascending sort of s: sorted, and a permutation of s. */
  function SortAsc(s: seq<real>): (r: seq<real>)
    ensures Sorted(r)
    ensures multiset(r) == multiset(s)
    ensures |r| == |s|
  {
    if s == [] then []
    else
      assert s == [s[0]] + s[1..];
      Insert(s[0], SortAsc(s[1..]))
  }

  // ---------------------------------------------------------------------------
  // Ranks

  /** The number of elements of s below x. */
  function CountBelow(s: seq<real>, x: real): nat
  {
    if s == [] then 0 else (if s[0] < x then 1 else 0) + CountBelow(s[1..], x)
  }

  /** The number of elements of s at most x. */
  function CountAtMost(s: seq<real>, x: real): nat
  {
    if s == [] then 0 else (if s[0] <= x then 1 else 0) + CountAtMost(s[1..], x)
  }

  /**
   * v is the k-th smallest element of s (counting from 0): fewer than or
   * exactly k elements lie below v, and more than k lie at or below it.
   */
  ghost predicate OrderStatistic(s: seq<real>, k: nat, v: real)
  {
    v in s && CountBelow(s, v) <= k < CountAtMost(s, v)
  }

  lemma {:induction false} CountsAppend(a: seq<real>, b: seq<real>, x: real)
    ensures CountBelow(a + b, x) == CountBelow(a, x) + CountBelow(b, x)
    ensures CountAtMost(a + b, x) == CountAtMost(a, x) + CountAtMost(b, x)
  {
    if a == [] {
      assert a + b == b;
    } else {
      assert (a + b)[0] == a[0];
      assert (a + b)[1..] == a[1..] + b;
      CountsAppend(a[1..], b, x);
    }
  }

  lemma {:induction false} CountsBounded(s: seq<real>, x: real)
    ensures CountBelow(s, x) <= CountAtMost(s, x) <= |s|
  {
    if s != [] {
      CountsBounded(s[1..], x);
    }
  }

  lemma {:induction false} CountsOfInsert(x: real, s: seq<real>, v: real)
    requires Sorted(s)
    ensures CountBelow(Insert(x, s), v) == CountBelow(s, v) + (if x < v then 1 else 0)
    ensures CountAtMost(Insert(x, s), v) == CountAtMost(s, v) + (if x <= v then 1 else 0)
  {
    if s == [] || x <= s[0] {
      assert ([x] + s)[1..] == s;
    } else {
      CountsOfInsert(x, s[1..], v);
      assert ([s[0]] + Insert(x, s[1..]))[1..] == Insert(x, s[1..]);
    }
  }

  /** Sorting keeps every rank count. */
  lemma {:induction false} CountsOfSort(s: seq<real>, v: real)
    ensures CountBelow(SortAsc(s), v) == CountBelow(s, v)
    ensures CountAtMost(SortAsc(s), v) == CountAtMost(s, v)
  {
    if s != [] {
      CountsOfSort(s[1..], v);
      CountsOfInsert(s[0], SortAsc(s[1..]), v);
    }
  }

  /** In a sorted list, the element at position k is its k-th smallest. */
  lemma SortedRank(s: seq<real>, k: nat)
    requires Sorted(s)
    requires k < |s|
    ensures OrderStatistic(s, k, s[k])
  {
    var v := s[k];
    assert s == s[..k] + s[k..];
    CountsAppend(s[..k], s[k..], v);
    CountsBounded(s[..k], v);
    AllAtLeast(s[k..], v);
    assert s[..k + 1] + s[k + 1..] == s;
    CountsAppend(s[..k + 1], s[k + 1..], v);
    AllAtMost(s[..k + 1], v);
  }

  lemma {:induction false} AllAtLeast(s: seq<real>, v: real)
    requires forall i :: 0 <= i < |s| ==> v <= s[i]
    ensures CountBelow(s, v) == 0
  {
    if s != [] {
      AllAtLeast(s[1..], v);
    }
  }

  lemma {:induction false} AllAtMost(s: seq<real>, v: real)
    requires forall i :: 0 <= i < |s| ==> s[i] <= v
    ensures CountAtMost(s, v) == |s|
  {
    if s != [] {
      AllAtMost(s[1..], v);
    }
  }

  lemma {:induction false} CountsMonotone(s: seq<real>, a: real, b: real)
    requires a < b
    ensures CountAtMost(s, a) <= CountBelow(s, b)
  {
    if s != [] {
      CountsMonotone(s[1..], a, b);
    }
  }

  /** Order statistics grow with their rank. */
  lemma OrderStatisticMonotone(s: seq<real>, k1: nat, v1: real, k2: nat, v2: real)
    requires k1 <= k2
    requires OrderStatistic(s, k1, v1) && OrderStatistic(s, k2, v2)
    ensures v1 <= v2
  {
    if v2 < v1 {
      CountsMonotone(s, v2, v1);
    }
  }

  /** The k-th element of the ascending sort of s is the k-th smallest element of s. */
  lemma SortedAtRank(s: seq<real>, k: nat)
    requires k < |s|
    ensures OrderStatistic(s, k, SortAsc(s)[k])
  {
    var t := SortAsc(s);
    SortedRank(t, k);
    CountsOfSort(s, t[k]);
    assert t[k] in multiset(t);
  }

  /** An already ascending list is its own sort. */
  lemma {:induction false} SortAscOfSorted(s: seq<real>)
    requires Sorted(s)
    ensures SortAsc(s) == s
  {
    if s != [] {
      SortAscOfSorted(s[1..]);
      assert s[1..] == [] || s[0] <= s[1..][0];
      assert [s[0]] + s[1..] == s;
    }
  }

  // ---------------------------------------------------------------------------
  // calculate_statistics

  /** The arithmetic mean. */
  function Mean(s: seq<real>): (m: real)
    requires |s| > 0
    ensures m * (|s| as real) == Sum(s)
  {
    Sum(s) / (|s| as real)
  }

  /** The population variance (divisor n). */
  function Variance(s: seq<real>): (v: real)
    requires |s| > 0
    ensures v * (|s| as real) == SquaredDeviations(s, Mean(s))
    ensures v >= 0.0
  {
    var dev := SquaredDeviations(s, Mean(s));
    var n := |s| as real;
    assert dev / n >= 0.0;
    dev / n
  }

  /** stdDev / mean, or 0 when the mean is 0. */
  function CoefficientOfVariation(stdDev: real, mean: real): (c: real)
    ensures mean == 0.0 ==> c == 0.0
    ensures mean != 0.0 ==> c * mean == stdDev
  {
    if mean != 0.0 then stdDev / mean else 0.0
  }

  /** Math.floor(n / 2). */
  function MedianRank(n: nat): (k: nat)
    requires n > 0
    ensures k < n
  {
    n / 2
  }

  /** Math.floor(n * 0.25). */
  function LowerQuartileRank(n: nat): (k: nat)
    requires n > 0
    ensures k <= MedianRank(n)
  {
    n / 4
  }

  /** Math.floor(n * 0.75). */
  function UpperQuartileRank(n: nat): (k: nat)
    requires n > 0
    ensures MedianRank(n) <= k < n
  {
    (3 * n) / 4
  }

  /** The nearest-rank median: the element at rank floor(n / 2) of the ascending sort. */
  function Median(s: seq<real>): real
    requires |s| > 0
  {
    SortAsc(s)[MedianRank(|s|)]
  }

  /** The nearest-rank first quartile: rank floor(n * 0.25). */
  function LowerQuartile(s: seq<real>): real
    requires |s| > 0
  {
    SortAsc(s)[LowerQuartileRank(|s|)]
  }

  /** The nearest-rank third quartile: rank floor(n * 0.75). */
  function UpperQuartile(s: seq<real>): real
    requires |s| > 0
  {
    SortAsc(s)[UpperQuartileRank(|s|)]
  }

  /** The quartiles are elements of s, at their ranks, with q1 <= median <= q3. */
  lemma QuartilesOrdered(s: seq<real>)
    requires |s| > 0
    ensures OrderStatistic(s, |s| / 4, LowerQuartile(s))
    ensures OrderStatistic(s, |s| / 2, Median(s))
    ensures OrderStatistic(s, (3 * |s|) / 4, UpperQuartile(s))
    ensures LowerQuartile(s) <= Median(s) <= UpperQuartile(s)
  {
    var n := |s|;
    var km, k1, k3 := MedianRank(n), LowerQuartileRank(n), UpperQuartileRank(n);
    SortedAtRank(s, km);
    SortedAtRank(s, k1);
    SortedAtRank(s, k3);
    OrderStatisticMonotone(s, k1, LowerQuartile(s), km, Median(s));
    OrderStatisticMonotone(s, km, Median(s), k3, UpperQuartile(s));
  }

  datatype Summary = Summary(
    count: nat, mean: real, median: real, stdDev: real, variance: real,
    min: real, max: real, q1: real, q3: real, iqr: real, range: real,
    coefficientOfVariation: real)

  /**
   * The summary of a non-empty list of numbers. Ranks are nearest-rank
   * positions in the ascending sort: floor(n / 2) for the median, floor(n * 0.25)
   * and floor(n * 0.75) for the quartiles (exact for every list length).
   */
  function Describe(host: Host, s: seq<real>): Summary
    requires |s| > 0
  {
    var n := |s|;
    var mean := Mean(s);
    var variance := Variance(s);
    var stdDev := host.sqrt(variance);
    var min := MinOf(s);
    var max := MaxOf(s);
    var q1 := LowerQuartile(s);
    var q3 := UpperQuartile(s);
    Summary(n, mean, Median(s), stdDev, variance, min, max, q1, q3, q3 - q1, max - min,
            CoefficientOfVariation(stdDev, mean))
  }

  /**
   * What calculate_statistics promises of a non-empty numeric list: the rank
   * positions of median, quartiles and extremes, their order, and the moments.
   */
  lemma DescribeSound(host: Host, s: seq<real>)
    requires |s| > 0
    ensures var r := Describe(host, s);
      && r.count == |s|
      && r.mean == Mean(s)
      && r.variance == Variance(s)
      && r.variance >= 0.0
      && r.stdDev == host.sqrt(r.variance)
      && (SqrtSound(host) ==> r.stdDev >= 0.0)
      && (r.mean == 0.0 ==> r.coefficientOfVariation == 0.0)
      && (r.mean != 0.0 ==> r.coefficientOfVariation == r.stdDev / r.mean)
      && OrderStatistic(s, |s| / 2, r.median)
      && OrderStatistic(s, |s| / 4, r.q1)
      && OrderStatistic(s, (3 * |s|) / 4, r.q3)
      && r.median == SortAsc(s)[|s| / 2]
      && r.q1 == SortAsc(s)[|s| / 4]
      && r.q3 == SortAsc(s)[(3 * |s|) / 4]
      && r.min in s && (forall x :: x in s ==> r.min <= x)
      && r.max in s && (forall x :: x in s ==> x <= r.max)
      && r.min <= r.q1 <= r.median <= r.q3 <= r.max
      && r.iqr >= 0.0 && r.range >= 0.0
  {
    QuartilesOrdered(s);
  }

  const OneToTen: seq<real> := seq(10, i requires 0 <= i < 10 => (i + 1) as real)

  lemma OneToTenSorted()
    ensures Sorted(OneToTen)
  {
    var s := OneToTen;
    forall i, j | 0 <= i < j < |s| ensures s[i] <= s[j] {
      assert s[i] == (i + 1) as real && s[j] == (j + 1) as real;
    }
  }

  lemma OneToTenSum()
    ensures Sum(OneToTen) == 55.0
  {
    var s := OneToTen;
    assert Sum(s[9..]) == 10.0;
    assert Sum(s[8..]) == 19.0;
    assert Sum(s[7..]) == 27.0;
    assert Sum(s[6..]) == 34.0;
    assert Sum(s[5..]) == 40.0;
    assert Sum(s[4..]) == 45.0;
    assert Sum(s[3..]) == 49.0;
    assert Sum(s[2..]) == 52.0;
    assert Sum(s[1..]) == 54.0;
  }

  lemma OneToTenDeviations()
    ensures SquaredDeviations(OneToTen, 5.5) == 82.5
  {
    var s := OneToTen;
    assert SquaredDeviations(s[9..], 5.5) == 20.25;
    assert SquaredDeviations(s[8..], 5.5) == 32.5;
    assert SquaredDeviations(s[7..], 5.5) == 38.75;
    assert SquaredDeviations(s[6..], 5.5) == 41.0;
    assert SquaredDeviations(s[5..], 5.5) == 41.25;
    assert SquaredDeviations(s[4..], 5.5) == 41.5;
    assert SquaredDeviations(s[3..], 5.5) == 43.75;
    assert SquaredDeviations(s[2..], 5.5) == 50.0;
    assert SquaredDeviations(s[1..], 5.5) == 62.25;
  }

  /**
   * The numbers 1 to 10: mean 5.5, the upper middle value 6 as median, q1 = 3,
   * q3 = 8, iqr 5 and population variance 8.25.
   */
  lemma OneToTenExample(host: Host)
    ensures var r := Describe(host, OneToTen);
      && r.count == 10 && r.mean == 5.5 && r.median == 6.0 && r.q1 == 3.0 && r.q3 == 8.0
      && r.iqr == 5.0 && r.variance == 8.25 && r.min == 1.0 && r.max == 10.0 && r.range == 9.0
  {
    OneToTenRanks();
    OneToTenMoments();
  }

  lemma OneToTenRanks()
    ensures Median(OneToTen) == 6.0 && LowerQuartile(OneToTen) == 3.0 && UpperQuartile(OneToTen) == 8.0
    ensures MinOf(OneToTen) == 1.0 && MaxOf(OneToTen) == 10.0
  {
    OneToTenSorted();
    OneToTenAt();
    RanksOfSorted(OneToTen);
  }

  lemma OneToTenAt()
    ensures |OneToTen| == 10
    ensures OneToTen[0] == 1.0 && OneToTen[2] == 3.0 && OneToTen[5] == 6.0 && OneToTen[7] == 8.0 && OneToTen[9] == 10.0
  {
  }

  lemma OneToTenMoments()
    ensures Mean(OneToTen) == 5.5 && Variance(OneToTen) == 8.25
  {
    OneToTenSum();
    assert Mean(OneToTen) == 5.5;
    OneToTenDeviations();
  }

  /** In an ascending list the median and the quartiles sit at their rank positions. */
  lemma RanksOfSorted(s: seq<real>)
    requires Sorted(s) && |s| > 0
    ensures Median(s) == s[|s| / 2]
    ensures LowerQuartile(s) == s[|s| / 4]
    ensures UpperQuartile(s) == s[(3 * |s|) / 4]
    ensures MinOf(s) == s[0] && MaxOf(s) == s[|s| - 1]
  {
    SortAscOfSorted(s);
    ExtremesOfSorted(s);
  }

  /** In an ascending list the minimum is the first element and the maximum the last. */
  lemma ExtremesOfSorted(s: seq<real>)
    requires Sorted(s) && |s| > 0
    ensures MinOf(s) == s[0] && MaxOf(s) == s[|s| - 1]
  {
    var lo, hi := MinOf(s), MaxOf(s);
    assert s[0] in s && s[|s| - 1] in s;
    var i :| 0 <= i < |s| && s[i] == lo;
    var j :| 0 <= j < |s| && s[j] == hi;
  }
}

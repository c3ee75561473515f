/** calculatePearsonCorrelation over exact reals, with Math.sqrt taken from the host. */
module Pearson {
  import opened JsRuntime
  import opened Stats

  function SumProducts(x: seq<real>, y: seq<real>): real
    requires |x| == |y|
  {
    if x == [] then 0.0 else x[0] * y[0] + SumProducts(x[1..], y[1..])
  }

  function SumSquares(x: seq<real>): real
  {
    if x == [] then 0.0 else x[0] * x[0] + SumSquares(x[1..])
  }

  /** n * sum(x^2) - (sum x)^2, the factor of the denominator contributed by one list. */
  function Spread(x: seq<real>): real
  {
    (|x| as real) * SumSquares(x) - Sum(x) * Sum(x)
  }

  /**
   * The Pearson coefficient (n * sum(xy) - sum x * sum y) / sqrt(Spread(x) * Spread(y)),
   * 0 for lists of different or zero length and when the denominator is 0.
   */
  function Correlation(host: Host, x: seq<real>, y: seq<real>): (r: real)
    ensures |x| != |y| || |x| == 0 ==> r == 0.0
  {
    if |x| != |y| || |x| == 0 then 0.0
    else
      Coefficient(host, Covariance(x, y), Spread(x), Spread(y))
  }

  /** numerator / sqrt(spreadX * spreadY), or 0 when that denominator is 0. */
  function Coefficient(host: Host, numerator: real, spreadX: real, spreadY: real): real
  {
    Ratio(numerator, host.sqrt(spreadX * spreadY))
  }

  /** n * sum(xy) - sum x * sum y, the numerator. */
  function Covariance(x: seq<real>, y: seq<real>): real
    requires |x| == |y|
  {
    (|x| as real) * SumProducts(x, y) - Sum(x) * Sum(y)
  }

  /** `denominator === 0 ? 0 : numerator / denominator`. */
  function Ratio(numerator: real, denominator: real): (r: real)
    ensures denominator == 0.0 ==> r == 0.0
    ensures denominator != 0.0 ==> r * denominator == numerator
  {
    if denominator == 0.0 then 0.0 else numerator / denominator
  }

  lemma {:induction false} SumProductsSymmetric(x: seq<real>, y: seq<real>)
    requires |x| == |y|
    ensures SumProducts(x, y) == SumProducts(y, x)
  {
    if x != [] {
      SumProductsSymmetric(x[1..], y[1..]);
    }
  }

  /** The coefficient does not depend on the order of its two arguments. */
  lemma CorrelationSymmetric(host: Host, x: seq<real>, y: seq<real>)
    ensures Correlation(host, x, y) == Correlation(host, y, x)
  {
    if |x| == |y| && |x| > 0 {
      SumProductsSymmetric(x, y);
      SwapFactors(|x| as real, Sum(x), Sum(y), SumProducts(x, y), SumProducts(y, x), Spread(x), Spread(y));
      assert Covariance(x, y) == Covariance(y, x);
    }
  }

  lemma SwapFactors(n: real, sx: real, sy: real, pxy: real, pyx: real, dx: real, dy: real)
    requires pxy == pyx
    ensures n * pxy - sx * sy == n * pyx - sy * sx
    ensures dx * dy == dy * dx
  {
  }

  /** A constant list has spread 0, so it correlates with anything as 0. */
  lemma CorrelationConstant(host: Host, x: seq<real>, y: seq<real>)
    requires SqrtSound(host)
    requires forall i :: 0 <= i < |x| ==> x[i] == x[0]
    ensures Correlation(host, x, y) == 0.0
  {
    if |x| == |y| && |x| > 0 {
      ConstantSpread(x, x[0]);
      assert Spread(x) * Spread(y) == 0.0;
    }
  }

  lemma {:induction false} ConstantSpread(x: seq<real>, a: real)
    requires forall i :: 0 <= i < |x| ==> x[i] == a
    ensures Sum(x) == (|x| as real) * a
    ensures SumSquares(x) == (|x| as real) * a * a
    ensures Spread(x) == 0.0
  {
    if x == [] {
      assert Sum(x) == 0.0 && SumSquares(x) == 0.0 && (|x| as real) == 0.0;
    } else {
      var t := x[1..];
      ConstantSpread(t, a);
      ConstantStep(a, |t| as real, Sum(t), SumSquares(t), |x| as real, Sum(x), SumSquares(x));
    }
  }

  /** One step of ConstantSpread, every function value passed in as a number. */
  lemma ConstantStep(a: real, n: real, s: real, q: real, nx: real, sx: real, qx: real)
    requires s == n * a && q == n * a * a
    requires nx == n + 1.0 && sx == a + s && qx == a * a + q
    ensures sx == nx * a && qx == nx * a * a && nx * qx - sx * sx == 0.0
  {
  }

  /** y is x with every element multiplied by c. */
  ghost predicate ScaledBy(x: seq<real>, y: seq<real>, c: real)
  {
    |x| == |y| && forall i :: 0 <= i < |x| ==> y[i] == c * x[i]
  }

  /** The sums of a list scaled by c are the sums of the list scaled by c (or c * c for squares). */
  lemma ScaledSums(x: seq<real>, y: seq<real>, c: real)
    requires ScaledBy(x, y, c)
    ensures Sum(y) == c * Sum(x)
    ensures SumProducts(x, y) == c * SumSquares(x)
    ensures SumSquares(y) == c * c * SumSquares(x)
  {
    ScaledSum(x, y, c);
    ScaledProductSum(x, y, c);
    ScaledSquareSum(x, y, c);
  }

  lemma {:induction false} ScaledSum(x: seq<real>, y: seq<real>, c: real)
    requires ScaledBy(x, y, c)
    ensures Sum(y) == c * Sum(x)
  {
    if x != [] {
      ScaledStep(c, x[0], y[0], Sum(x[1..]), Sum(y[1..]), Sum(x), Sum(y));
      ScaledSum(x[1..], y[1..], c);
    }
  }

  lemma {:induction false} ScaledProductSum(x: seq<real>, y: seq<real>, c: real)
    requires ScaledBy(x, y, c)
    ensures SumProducts(x, y) == c * SumSquares(x)
  {
    if x != [] {
      ScaledProductStep(c, x[0], y[0], SumSquares(x[1..]), SumProducts(x[1..], y[1..]), SumSquares(x), SumProducts(x, y));
      ScaledProductSum(x[1..], y[1..], c);
    }
  }

  lemma {:induction false} ScaledSquareSum(x: seq<real>, y: seq<real>, c: real)
    requires ScaledBy(x, y, c)
    ensures SumSquares(y) == c * c * SumSquares(x)
  {
    if x != [] {
      ScaledSquareStep(c, x[0], y[0], SumSquares(x[1..]), SumSquares(y[1..]), SumSquares(x), SumSquares(y));
      ScaledSquareSum(x[1..], y[1..], c);
    }
  }

  /** One step of ScaledSum, every function value passed in as a number. */
  lemma ScaledStep(c: real, a: real, b: real, s: real, t: real, sx: real, sy: real)
    requires sx == a + s && sy == b + t
    ensures b == c * a && t == c * s ==> sy == c * sx
  {
  }

  /** One step of ScaledProductSum. */
  lemma ScaledProductStep(c: real, a: real, b: real, q: real, p: real, qx: real, pxy: real)
    requires qx == a * a + q && pxy == a * b + p
    ensures b == c * a && p == c * q ==> pxy == c * qx
  {
    if b == c * a && p == c * q {
      assert a * b == c * (a * a);
    }
  }

  /** One step of ScaledSquareSum. */
  lemma ScaledSquareStep(c: real, a: real, b: real, q: real, r: real, qx: real, qy: real)
    requires qx == a * a + q && qy == b * b + r
    ensures b == c * a && r == c * c * q ==> qy == c * c * qx
  {
    if b == c * a && r == c * c * q {
      assert b * b == c * c * (a * a);
    }
  }

  /** The products of a list with itself are its squares. */
  lemma {:induction false} SumProductsSelf(x: seq<real>)
    ensures SumProducts(x, x) == SumSquares(x)
  {
    if x != [] {
      SumProductsSelf(x[1..]);
    }
  }

  /**
   * A list and a positive multiple of it correlate with coefficient exactly 1,
   * provided the list is not constant (its spread is not 0).
   */
  lemma PositiveScaleCorrelation(host: Host, x: seq<real>, y: seq<real>, c: real)
    requires SqrtSound(host)
    requires ScaledBy(x, y, c) && c > 0.0 && Spread(x) > 0.0
    ensures Correlation(host, x, y) == 1.0
  {
    ScaledFormula(host, x, y, c);
    ScaledSums(x, y, c);
  }

  /** PositiveScaleCorrelation once the scaled sums are known. */
  lemma ScaledFormula(host: Host, x: seq<real>, y: seq<real>, c: real)
    requires SqrtSound(host)
    requires |x| == |y| && c > 0.0 && Spread(x) > 0.0
    ensures Sum(y) == c * Sum(x) && SumProducts(x, y) == c * SumSquares(x) && SumSquares(y) == c * c * SumSquares(x)
            ==> Correlation(host, x, y) == 1.0
  {
    SpreadOfEmpty(x);
    ScaledCovariance(x, y, c);
    ScaledSpread(x, y, c);
    ScaledRatio(host, c, Spread(x), Covariance(x, y), Spread(y));
  }

  /** Scaling one list's sums by c scales the numerator by c. */
  lemma ScaledCovariance(x: seq<real>, y: seq<real>, c: real)
    requires |x| == |y|
    ensures Sum(y) == c * Sum(x) && SumProducts(x, y) == c * SumSquares(x) ==> Covariance(x, y) == c * Spread(x)
  {
    ScaledProducts(|x| as real, Sum(x), SumSquares(x), c, Spread(x), SumProducts(x, y), Sum(y), Covariance(x, y));
  }

  /** Scaling a list's sums by c (and its squares by c * c) scales its spread by c * c. */
  lemma ScaledSpread(x: seq<real>, y: seq<real>, c: real)
    requires |x| == |y|
    ensures Sum(y) == c * Sum(x) && SumSquares(y) == c * c * SumSquares(x) ==> Spread(y) == c * c * Spread(x)
  {
    ScaledSquares(|x| as real, Sum(x), SumSquares(x), c, Spread(x), Sum(y), SumSquares(y), Spread(y));
  }

  /** The algebra of PositiveScaleCorrelation once numerator and spreads are scaled. */
  lemma ScaledRatio(host: Host, c: real, spx: real, cov: real, spy: real)
    requires SqrtSound(host)
    requires c > 0.0 && spx > 0.0
    ensures cov == c * spx && spy == c * c * spx ==> Coefficient(host, cov, spx, spy) == 1.0
  {
    if cov == c * spx && spy == c * c * spx {
      ScaledSquare(c, spx);
      assert spx * spy == Square(c * spx);
      assert host.sqrt(spx * spy) == c * spx by {
        assert host.sqrt(Square(c * spx)) == c * spx;
      }
      SelfRatio(c * spx);
    }
  }

  /** The empty list has spread 0. */
  lemma SpreadOfEmpty(x: seq<real>)
    ensures |x| == 0 ==> Spread(x) == 0.0
  {
    if |x| == 0 {
      assert Sum(x) == 0.0 && SumSquares(x) == 0.0;
    }
  }

  /** The algebra of ScaledCovariance. */
  lemma ScaledProducts(n: real, sx: real, qx: real, c: real, d: real, pxy: real, sy: real, cov: real)
    requires d == n * qx - sx * sx && cov == n * pxy - sx * sy
    ensures pxy == c * qx && sy == c * sx ==> cov == c * d
  {
    if pxy == c * qx && sy == c * sx {
      assert n * pxy == n * (c * qx) && sx * sy == sx * (c * sx);
    }
  }

  /** The algebra of ScaledSpread. */
  lemma ScaledSquares(n: real, sx: real, qx: real, c: real, d: real, sy: real, qy: real, e: real)
    requires d == n * qx - sx * sx && e == n * qy - sy * sy
    ensures sy == c * sx && qy == c * c * qx ==> e == c * c * d
  {
    if sy == c * sx && qy == c * c * qx {
      assert n * qy == n * (c * c * qx) && sy * sy == (c * sx) * (c * sx);
    }
  }

  /** The algebra of ScaledRatio. */
  lemma ScaledSquare(c: real, d: real)
    requires c > 0.0 && d > 0.0
    ensures d * (c * c * d) == Square(c * d)
    ensures c * d > 0.0
  {
  }

  /** A non-zero number divided by itself is 1. */
  lemma SelfRatio(a: real)
    requires a != 0.0
    ensures Ratio(a, a) == 1.0
  {
  }

  /** A non-constant list correlates with itself with coefficient exactly 1: the self-pairs. */
  lemma SelfCorrelation(host: Host, x: seq<real>)
    requires SqrtSound(host) && Spread(x) > 0.0
    ensures Correlation(host, x, x) == 1.0
  {
    PositiveScaleCorrelation(host, x, x, 1.0);
  }
}

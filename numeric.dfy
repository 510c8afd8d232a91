/**
 * Numeric helpers shared by the services: an Option type, absolute value and
 * maximum on reals, and the LINQ aggregates Sum, Average and the population
 * variance used by both the anomaly detector and the forecaster.
 *
 * IEEE doubles are modelled as unbounded reals; Math.Sqrt is not modelled,
 * a standard deviation is a value sigma with sigma >= 0 and sigma^2 = variance.
 */
module Numeric {

  datatype Option<+T> = None | Some(value: T)

  /** Math.Abs */
  function Abs(x: real): (r: real)
    ensures r >= 0.0 && (r == x || r == -x)
  {
    if x < 0.0 then -x else x
  }

  /** Math.Max */
  function Max(a: real, b: real): (r: real)
    ensures r >= a && r >= b && (r == a || r == b)
  {
    if a < b then b else a
  }

  /** Enumerable.Sum, accumulated from the front as the loop of the source does. */
  function Sum(s: seq<real>): real
  {
    if |s| == 0 then 0.0 else Sum(s[..|s| - 1]) + s[|s| - 1]
  }

  /** Enumerable.Average; it throws on an empty sequence, hence the precondition. */
  function Mean(s: seq<real>): real
    requires |s| > 0
  {
    Sum(s) / (|s| as real)
  }

  /** Sum of (v - m)^2 over s. */
  function SumSquaredDeviations(s: seq<real>, m: real): (r: real)
    ensures r >= 0.0
  {
    if |s| == 0 then 0.0
    else
      var d := s[|s| - 1] - m;
      SquareNonNegative(d);
      SumSquaredDeviations(s[..|s| - 1], m) + d * d
  }

  lemma SquareNonNegative(x: real)
    ensures x * x >= 0.0
  {
    if x < 0.0 {
      assert x * x == (-x) * (-x);
    }
  }

  lemma ProductPositive(a: real, b: real)
    requires a > 0.0 && b > 0.0
    ensures a * b > 0.0
  {
  }

  lemma ProductZero(a: real, b: real)
    requires a >= 0.0 && b >= 0.0 && a * b == 0.0
    ensures a == 0.0 || b == 0.0
  {
    if a > 0.0 && b > 0.0 {
      ProductPositive(a, b);
    }
  }

  /** Population variance: the average of the squared deviations from the mean; 0 when empty. */
  function PopulationVariance(s: seq<real>): (r: real)
    ensures r >= 0.0
  {
    if |s| == 0 then 0.0 else SumSquaredDeviations(s, Mean(s)) / (|s| as real)
  }

  /** sigma is Math.Sqrt of the population variance of s. */
  predicate IsStdDev(sigma: real, s: seq<real>)
  {
    sigma >= 0.0 && sigma * sigma == PopulationVariance(s)
  }

  predicate Constant(s: seq<real>, c: real)
  {
    forall i :: 0 <= i < |s| ==> s[i] == c
  }

  lemma {:induction false} SumConcat(a: seq<real>, b: seq<real>)
    ensures Sum(a + b) == Sum(a) + Sum(b)
  {
    if |b| == 0 {
      assert a + b == a;
    } else {
      assert (a + b)[..|a + b| - 1] == a + b[..|b| - 1];
      SumConcat(a, b[..|b| - 1]);
    }
  }

  lemma {:induction false} SumConstant(s: seq<real>, c: real)
    requires Constant(s, c)
    ensures Sum(s) == (|s| as real) * c
  {
    if |s| > 0 {
      SumConstant(s[..|s| - 1], c);
    }
  }

  lemma MeanConstant(s: seq<real>, c: real)
    requires |s| > 0 && Constant(s, c)
    ensures Mean(s) == c
  {
    SumConstant(s, c);
  }

  lemma {:induction false} SumSquaredDeviationsConstant(s: seq<real>, c: real)
    requires Constant(s, c)
    ensures SumSquaredDeviations(s, c) == 0.0
  {
    if |s| > 0 {
      SumSquaredDeviationsConstant(s[..|s| - 1], c);
    }
  }

  lemma {:induction false} SumSquaredDeviationsOfConstant(s: seq<real>, c: real, m: real)
    requires Constant(s, c)
    ensures SumSquaredDeviations(s, m) == (|s| as real) * ((c - m) * (c - m))
  {
    if |s| > 0 {
      SumSquaredDeviationsOfConstant(s[..|s| - 1], c, m);
    }
  }

  /** A constant series has variance 0, so its only standard deviation is 0. */
  lemma StdDevConstant(s: seq<real>, c: real, sigma: real)
    requires Constant(s, c) && IsStdDev(sigma, s)
    ensures PopulationVariance(s) == 0.0 && sigma == 0.0
  {
    if |s| > 0 {
      MeanConstant(s, c);
      SumSquaredDeviationsConstant(s, c);
      assert SumSquaredDeviations(s, Mean(s)) == 0.0;
    }
    assert PopulationVariance(s) == 0.0;
    ProductZero(sigma, sigma);
  }

  /** The mean lies between the smallest and the largest element. */
  lemma {:induction false} SumBounds(s: seq<real>, lo: real, hi: real)
    requires forall i :: 0 <= i < |s| ==> lo <= s[i] <= hi
    ensures (|s| as real) * lo <= Sum(s) <= (|s| as real) * hi
  {
    if |s| > 0 {
      SumBounds(s[..|s| - 1], lo, hi);
    }
  }

  lemma MeanBounds(s: seq<real>, lo: real, hi: real)
    requires |s| > 0
    requires forall i :: 0 <= i < |s| ==> lo <= s[i] <= hi
    ensures lo <= Mean(s) <= hi
  {
    SumBounds(s, lo, hi);
    var n := |s| as real;
    assert Sum(s) / n >= (n * lo) / n;
    assert Sum(s) / n <= (n * hi) / n;
  }

  /** Elements of s that satisfy p, in order (Enumerable.Where). */
  function Filter<T>(s: seq<T>, p: T -> bool): (r: seq<T>)
    ensures |r| <= |s|
    ensures forall i :: 0 <= i < |r| ==> p(r[i]) && r[i] in s
  {
    if |s| == 0 then []
    else Filter(s[..|s| - 1], p) + (if p(s[|s| - 1]) then [s[|s| - 1]] else [])
  }

  /** Filter is empty exactly when no element satisfies p (Enumerable.Any). */
  lemma {:induction false} FilterNonEmpty<T>(s: seq<T>, p: T -> bool)
    ensures |Filter(s, p)| > 0 <==> exists i :: 0 <= i < |s| && p(s[i])
  {
    if |s| > 0 {
      var s' := s[..|s| - 1];
      FilterNonEmpty(s', p);
      if exists i :: 0 <= i < |s'| && p(s'[i]) {
        var i :| 0 <= i < |s'| && p(s'[i]);
        assert s[i] == s'[i];
      }
      if exists i :: 0 <= i < |s| && p(s[i]) {
        var i :| 0 <= i < |s| && p(s[i]);
        if i < |s| - 1 {
          assert s'[i] == s[i];
        }
      }
    }
  }
}

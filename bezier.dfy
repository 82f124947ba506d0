/// modules/helpers.py, `get_bezier_parameters`: argument validation, the
/// Bernstein matrix over evenly spaced parameters, and the pinning of the
/// fitted control polygon's endpoints to the first and last data points.
/// The pseudo-inverse least-squares product is the function parameter
/// `leastSquares`, which yields row `k` of the fitted control points.
module Bezier {
  import opened Common

  datatype Point = Point(x: real, y: real)

  /// The three ValueErrors, in the order they are checked.
  datatype FitError = DegreeBelowOne | LengthMismatch | TooFewPoints

  function Pow(t: real, k: nat): real
  {
    if k == 0 then 1.0 else t * Pow(t, k - 1)
  }

  /// `comb(n, k)`, zero when `k > n`.
  function Comb(n: nat, k: nat): nat
  {
    if k == 0 then 1 else if n == 0 then 0 else Comb(n - 1, k - 1) + Comb(n - 1, k)
  }

  /// `bpoly(n, t, k)`: the Bernstein basis polynomial on [0, 1].
  function Bpoly(n: nat, t: real, k: nat): real
    requires k <= n
  {
    Pow(t, k) * Pow(1.0 - t, n - k) * Comb(n, k) as real
  }

  /// `i / d` as a real: the `i`-th of `d` equal steps from 0 to 1.
  function Fraction(i: nat, d: nat): (r: real)
    requires d > 0
    ensures r * d as real == i as real
    ensures i == 0 ==> r == 0.0
    ensures i == d ==> r == 1.0
  {
    i as real / d as real
  }

  /// `np.linspace(0, 1, n)`: `n` evenly spaced parameters from 0 to 1.
  function Linspace(n: nat): (ts: seq<real>)
    ensures |ts| == n
    ensures n >= 1 ==> ts[0] == 0.0
    ensures n >= 2 ==> ts[n - 1] == 1.0
    ensures n >= 2 ==> forall i :: 0 <= i < n ==> ts[i] * (n - 1) as real == i as real
  {
    seq(n, i requires 0 <= i < n => if n == 1 then 0.0 else Fraction(i, n - 1))
  }

  /// `bmatrix(T)`: one row per parameter, one column per control point.
  function Bmatrix(degree: nat, ts: seq<real>): (m: seq<seq<real>>)
    ensures |m| == |ts|
    ensures forall i :: 0 <= i < |ts| ==> |m[i]| == degree + 1
  {
    seq(|ts|, i requires 0 <= i < |ts| => seq(degree + 1, k requires 0 <= k <= degree => Bpoly(degree, ts[i], k)))
  }

  function LastRow(m: seq<seq<real>>): seq<real>
    requires m != []
  {
    m[|m| - 1]
  }

  lemma {:induction false} PowZero(k: nat)
    ensures Pow(0.0, k) == if k == 0 then 1.0 else 0.0
  {
  }

  lemma {:induction false} PowOne(k: nat)
    ensures Pow(1.0, k) == 1.0
  {
    if k > 0 {
      PowOne(k - 1);
    }
  }

  lemma {:induction false} CombEnds(n: nat)
    ensures Comb(n, 0) == 1 && Comb(n, n) == 1
  {
    if n > 0 {
      CombEnds(n - 1);
      assert Comb(n - 1, n) == 0 by { CombAbove(n - 1, n); }
    }
  }

  lemma {:induction false} CombAbove(n: nat, k: nat)
    requires k > n
    ensures Comb(n, k) == 0
  {
    if n > 0 {
      CombAbove(n - 1, k - 1);
      CombAbove(n - 1, k);
    }
  }

  /// The first parameter gives all weight to the first control point and
  /// the last parameter all weight to the last one, so the curve passes
  /// through the first and last control points.
  lemma BernsteinEndpoints(degree: nat, n: nat)
    requires n >= 2
    ensures var m := Bmatrix(degree, Linspace(n));
            (forall k :: 0 <= k <= degree ==> m[0][k] == if k == 0 then 1.0 else 0.0) &&
            (forall k :: 0 <= k <= degree ==> LastRow(m)[k] == if k == degree then 1.0 else 0.0)
  {
    var m := Bmatrix(degree, Linspace(n));
    CombEnds(degree);
    forall k | 0 <= k <= degree
      ensures m[0][k] == if k == 0 then 1.0 else 0.0
      ensures LastRow(m)[k] == if k == degree then 1.0 else 0.0
    {
      PowZero(k);
      PowZero(degree - k);
      PowOne(k);
      PowOne(degree - k);
    }
  }

  /// `get_bezier_parameters(X, Y, degree)`.
  method GetBezierParameters(xs: seq<real>, ys: seq<real>, degree: int,
                             leastSquares: (seq<seq<real>>, seq<Point>, nat) -> Point)
    returns (r: Result<seq<Point>, FitError>)
    ensures degree < 1 ==> r == Err(DegreeBelowOne)
    ensures degree >= 1 && |xs| != |ys| ==> r == Err(LengthMismatch)
    ensures degree >= 1 && |xs| == |ys| && |xs| < degree + 1 ==> r == Err(TooFewPoints)
    ensures r.Ok? <==> degree >= 1 && |xs| == |ys| && |xs| >= degree + 1
    ensures r.Ok? ==>
      |r.value| == degree + 1 &&
      r.value[0] == Point(xs[0], ys[0]) &&
      r.value[degree] == Point(xs[|xs| - 1], ys[|ys| - 1]) &&
      forall k :: 0 < k < degree ==>
        r.value[k] == leastSquares(Bmatrix(degree, Linspace(|xs|)), Points(xs, ys), k)
  {
    if degree < 1 {
      return Err(DegreeBelowOne);
    }
    if |xs| != |ys| {
      return Err(LengthMismatch);
    }
    if |xs| < degree + 1 {
      return Err(TooFewPoints);
    }
    var ts := Linspace(|xs|);
    var m := Bmatrix(degree, ts);
    var points := Points(xs, ys);
    var final := seq(degree + 1, k requires 0 <= k <= degree => leastSquares(m, points, k));
    final := final[0 := Point(xs[0], ys[0])];
    final := final[|final| - 1 := Point(xs[|xs| - 1], ys[|ys| - 1])];
    r := Ok(final);
  }

  /// `list(zip(X, Y))`.
  function Points(xs: seq<real>, ys: seq<real>): (ps: seq<Point>)
    requires |xs| == |ys|
    ensures |ps| == |xs|
    ensures forall i :: 0 <= i < |xs| ==> ps[i] == Point(xs[i], ys[i])
  {
    seq(|xs|, i requires 0 <= i < |xs| => Point(xs[i], ys[i]))
  }
}

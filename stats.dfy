/** Sums, means and dot products over `real` sequences: the arithmetic that
    pandas' `mean` and numpy's degree-1 `polyfit` perform, stated exactly. */
module Stats {

  // `Sum` and `Dot` name the recursive `Total` and `SumOfProducts`. The
  // least-squares lemmas reason about many sums at once, and going through
  // a non-recursive name keeps the solver from unrolling each recursion
  // there; only the induction lemmas below open the definitions.

  function Sum(s: seq<real>): real
  {
    Total(s)
  }

  function Total(s: seq<real>): real
  {
    if |s| == 0 then 0.0 else s[0] + Total(s[1..])
  }

  function Mean(s: seq<real>): real
    requires |s| > 0
  {
    Sum(s) / |s| as real
  }

  /** The product of two reals, as a function of its own so that the solver
      sees the square `Prod(a, a)` as one term. */
  function Prod(a: real, b: real): real
  {
    a * b
  }

  lemma ProdScaled(u: real, v: real, z: real, b: real)
    requires z == b * v
    ensures Prod(u, z) == b * Prod(u, v)
  {
  }

  lemma MulSum(c: real, s: real, p: real, q: real)
    requires s == p + q
    ensures c * s == c * p + c * q
  {
  }

  lemma ProdLineResidual(u: real, x: real, y: real, e: real, b: real, a: real)
    requires e == y - (b * x + a)
    ensures Prod(u, e) == Prod(u, y) - b * Prod(u, x) - a * u
  {
  }

  lemma ProdShift(x: real, d: real, u: real, m: real)
    requires d == x - m
    ensures Prod(d, u) == Prod(x, u) - m * u
  {
  }

  lemma ProdShiftRight(u: real, v: real, d: real, m: real)
    requires d == v - m
    ensures Prod(u, d) == Prod(u, v) - m * u
  {
  }

  lemma ProdAffine(x: real, d: real, u: real, p: real, q: real)
    requires d == p * x + q
    ensures Prod(d, u) == p * Prod(x, u) + q * u
  {
  }

  lemma ProdSquareDiff(e: real, d: real, r: real)
    requires r == e - d
    ensures Prod(r, r) == Prod(e, e) - 2.0 * Prod(d, e) + Prod(d, d)
  {
  }

  /** Sum of the pairwise products of two sequences of equal length. */
  function Dot(u: seq<real>, v: seq<real>): real
    requires |u| == |v|
  {
    SumOfProducts(u, v)
  }

  function SumOfProducts(u: seq<real>, v: seq<real>): real
    requires |u| == |v|
  {
    if |u| == 0 then 0.0 else Prod(u[0], v[0]) + SumOfProducts(u[1..], v[1..])
  }

  /** `t` is `s` with `m` subtracted from every element. */
  predicate Shifted(s: seq<real>, t: seq<real>, m: real)
  {
    |s| == |t| && forall i :: 0 <= i < |s| ==> t[i] == s[i] - m
  }

  /** Each element minus the mean; the deviations always sum to zero. */
  function Deviations(s: seq<real>): (d: seq<real>)
    requires |s| > 0
    ensures |d| == |s|
    ensures Shifted(s, d, Mean(s))
    ensures Sum(d) == 0.0
  {
    var d := seq(|s|, i requires 0 <= i < |s| => s[i] - Mean(s));
    SumShift(s, d, Mean(s));
    d
  }

  /** Some element differs from the first one. */
  predicate NonConstant(s: seq<real>)
  {
    exists i :: 0 <= i < |s| && s[i] != s[0]
  }

  /** Summing an affine image of `s` is the affine image of the sum. */
  lemma {:induction false} SumAffine(s: seq<real>, t: seq<real>, a: real, c: real)
    requires |s| == |t|
    requires forall i :: 0 <= i < |s| ==> t[i] == a * s[i] + c
    ensures Sum(t) == a * Sum(s) + |s| as real * c
  {
    if |s| > 0 {
      SumAffine(s[1..], t[1..], a, c);
      MulSum(a, Sum(s), s[0], Sum(s[1..]));
      MulSum(c, |s| as real, 1.0, |s[1..]| as real);
    }
  }

  /** Summing `s` shifted by `m`. */
  lemma {:induction false} SumShift(s: seq<real>, t: seq<real>, m: real)
    requires |s| == |t|
    requires forall i :: 0 <= i < |s| ==> t[i] == s[i] - m
    ensures Sum(t) == Sum(s) - |s| as real * m
  {
    if |s| > 0 {
      SumShift(s[1..], t[1..], m);
    }
  }

  /** Summing the vertical distances of points (x, y) from a line. */
  lemma {:induction false} SumLineResidual(x: seq<real>, y: seq<real>, e: seq<real>, b: real, a: real)
    requires |x| == |y| == |e|
    requires forall i :: 0 <= i < |e| ==> e[i] == y[i] - (b * x[i] + a)
    ensures Sum(e) == Sum(y) - b * Sum(x) - |e| as real * a
  {
    if |e| > 0 {
      SumLineResidual(x[1..], y[1..], e[1..], b, a);
      MulSum(b, Sum(x), x[0], Sum(x[1..]));
      MulSum(a, |e| as real, 1.0, |e[1..]| as real);
    }
  }

  /** Every element lies in [lo, hi], so the sum lies in [n * lo, n * hi]. */
  lemma {:induction false} SumBounds(s: seq<real>, lo: real, hi: real)
    requires forall i :: 0 <= i < |s| ==> lo <= s[i] <= hi
    ensures |s| as real * lo <= Sum(s) <= |s| as real * hi
  {
    if |s| > 0 {
      SumBounds(s[1..], lo, hi);
    }
  }

  /** The dot product with a scaled sequence on the right. */
  lemma {:induction false} DotScaled(u: seq<real>, v: seq<real>, z: seq<real>, b: real)
    requires |u| == |v| == |z|
    requires forall i :: 0 <= i < |z| ==> z[i] == b * v[i]
    ensures Dot(u, z) == b * Dot(u, v)
  {
    if |u| > 0 {
      DotScaled(u[1..], v[1..], z[1..], b);
      ProdScaled(u[0], v[0], z[0], b);
    }
  }

  /** The dot product with the vertical distances from a line, on the right. */
  lemma {:induction false} DotLineResidual(u: seq<real>, x: seq<real>, y: seq<real>, e: seq<real>, b: real, a: real)
    requires |u| == |x| == |y| == |e|
    requires forall i :: 0 <= i < |e| ==> e[i] == y[i] - (b * x[i] + a)
    ensures Dot(u, e) == Dot(u, y) - b * Dot(u, x) - a * Sum(u)
  {
    if |u| > 0 {
      DotLineResidual(u[1..], x[1..], y[1..], e[1..], b, a);
      ProdLineResidual(u[0], x[0], y[0], e[0], b, a);
      MulSum(b, Dot(u, x), Prod(u[0], x[0]), Dot(u[1..], x[1..]));
      MulSum(a, Sum(u), u[0], Sum(u[1..]));
    }
  }

  /** The dot product with `v` shifted by `m`, on the right. */
  lemma {:induction false} DotShiftRight(u: seq<real>, v: seq<real>, d: seq<real>, m: real)
    requires |u| == |v| == |d|
    requires forall i :: 0 <= i < |d| ==> d[i] == v[i] - m
    ensures Dot(u, d) == Dot(u, v) - m * Sum(u)
  {
    if |u| > 0 {
      DotShiftRight(u[1..], v[1..], d[1..], m);
      ProdShiftRight(u[0], v[0], d[0], m);
    }
  }

  /** The dot product with `x` shifted by `m`, on the left. */
  lemma {:induction false} DotShiftLeft(x: seq<real>, d: seq<real>, u: seq<real>, m: real)
    requires |x| == |d| == |u|
    requires forall i :: 0 <= i < |d| ==> d[i] == x[i] - m
    ensures Dot(d, u) == Dot(x, u) - m * Sum(u)
  {
    if |d| > 0 {
      DotShiftLeft(x[1..], d[1..], u[1..], m);
      ProdShift(x[0], d[0], u[0], m);
    }
  }

  /** The dot product with an affine image of `x`, on the left. */
  lemma {:induction false} DotAffineLeft(x: seq<real>, d: seq<real>, u: seq<real>, p: real, q: real)
    requires |x| == |d| == |u|
    requires forall i :: 0 <= i < |d| ==> d[i] == p * x[i] + q
    ensures Dot(d, u) == p * Dot(x, u) + q * Sum(u)
  {
    if |d| > 0 {
      DotAffineLeft(x[1..], d[1..], u[1..], p, q);
      ProdAffine(x[0], d[0], u[0], p, q);
    }
  }

  /** Expanding the square of a difference: |e - d|^2 = |e|^2 - 2 d.e + |d|^2. */
  lemma {:induction false} DotSquareDiff(e: seq<real>, d: seq<real>, r: seq<real>)
    requires |e| == |d| == |r|
    requires forall i :: 0 <= i < |r| ==> r[i] == e[i] - d[i]
    ensures Dot(r, r) == Dot(e, e) - 2.0 * Dot(d, e) + Dot(d, d)
  {
    if |r| > 0 {
      DotSquareDiff(e[1..], d[1..], r[1..]);
      ProdSquareDiff(e[0], d[0], r[0]);
    }
  }

  lemma ProdPositive(a: real, b: real)
    requires (a > 0.0 && b > 0.0) || (a < 0.0 && b < 0.0)
    ensures Prod(a, b) > 0.0
  {
    if a < 0.0 {
      assert (-a) * (-b) > 0.0;
    }
  }

  lemma ProdNonNegative(a: real, b: real)
    requires (a >= 0.0 && b >= 0.0) || (a <= 0.0 && b <= 0.0)
    ensures Prod(a, b) >= 0.0
  {
    if a < 0.0 {
      assert (-a) * (-b) >= 0.0;
    }
  }

  /** A sum of squares is never negative. */
  lemma {:induction false} DotSelfNonNegative(u: seq<real>)
    ensures Dot(u, u) >= 0.0
  {
    if |u| > 0 {
      DotSelfNonNegative(u[1..]);
      ProdNonNegative(u[0], u[0]);
    }
  }

  /** A sum of squares with a non-zero term is positive. */
  lemma {:induction false} DotSelfPositive(u: seq<real>, k: nat)
    requires k < |u| && u[k] != 0.0
    ensures Dot(u, u) > 0.0
  {
    if k == 0 {
      DotSelfNonNegative(u[1..]);
      ProdPositive(u[0], u[0]);
    } else {
      DotSelfPositive(u[1..], k - 1);
      ProdNonNegative(u[0], u[0]);
    }
  }

  /** A non-constant sequence has a positive sum of squared deviations. */
  lemma NonConstantSpread(s: seq<real>)
    requires NonConstant(s)
    ensures Dot(Deviations(s), Deviations(s)) > 0.0
  {
    var d := Deviations(s);
    var i :| 0 <= i < |s| && s[i] != s[0];
    if d[0] != 0.0 {
      DotSelfPositive(d, 0);
    } else {
      DotSelfPositive(d, i);
    }
  }
}

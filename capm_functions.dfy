/** `normalize`, `daily_return` and `calculate_beta` over exact reals. */
module CapmFunctions {
  import opened Stats
  import opened Frames
  import opened Outcomes

  // ---------------------------------------------------------------------
  // normalize
  // ---------------------------------------------------------------------

  /** One price column divided by its own first value. */
  function NormalizeColumn(c: seq<real>): (r: seq<real>)
    requires |c| > 0 && c[0] != 0.0
    ensures |r| == |c| && r[0] == 1.0
    ensures forall i :: 0 <= i < |c| ==> r[i] * c[0] == c[i]
  {
    seq(|c|, i requires 0 <= i < |c| => c[i] / c[0])
  }

  /** Every value column that has a first row has a non-zero one there. */
  predicate FirstRowNonZero(t: Table)
  {
    forall k :: 0 <= k < |t.cols| && |t.cols[k]| > 0 ==> t.cols[k][0] != 0.0
  }

  /** The table `normalize` returns: every value column rescaled by its first
      value, the `Date` column and the column names as they were. */
  function NormalizeTable(t: Table): (n: Table)
    requires t.Valid() && FirstRowNonZero(t)
    requires |t.dates| > 0 || |t.labels| == 0
    ensures n.Valid() && n.dates == t.dates && n.labels == t.labels
    ensures forall k :: 0 <= k < |n.cols| ==> n.cols[k][0] == 1.0
    ensures forall k, i :: 0 <= k < |n.cols| && 0 <= i < |t.dates| ==> n.cols[k][i] * t.cols[k][0] == t.cols[k][i]
  {
    t.(cols := seq(|t.cols|, k requires 0 <= k < |t.cols| => NormalizeColumn(t.cols[k])))
  }

  /** `normalize(df_2)`: copies the frame, then replaces each value column of
      the copy by that column over its row-0 value. Without rows, the lookup
      of row 0 raises KeyError (unless there is no value column at all). */
  method Normalize(src: Frame) returns (r: Result<Frame>)
    requires src.Valid() && FirstRowNonZero(src.Value())
    ensures unchanged(src)
    ensures r.Err? <==> |src.dates| == 0 && |src.labels| > 0
    ensures r.Err? ==> r.error == MissingFirstRow
    ensures r.Ok? ==> fresh(r.value) && r.value.Valid() && r.value.Value() == NormalizeTable(src.Value())
  {
    var df := src.Copy();
    var k := 0;
    while k < |df.labels|
      invariant 0 <= k <= |src.labels|
      invariant k > 0 ==> |src.dates| > 0
      invariant fresh(df) && df.Valid()
      invariant df.dates == src.dates && df.labels == src.labels && |df.cols| == |src.cols|
      invariant forall j :: 0 <= j < k ==> df.cols[j] == NormalizeColumn(src.cols[j])
      invariant forall j :: k <= j < |src.cols| ==> df.cols[j] == src.cols[j]
    {
      if |df.dates| == 0 {
        return Err(MissingFirstRow);
      }
      df.Replace(k, NormalizeColumn(df.cols[k]));
      k := k + 1;
    }
    assert df.cols == NormalizeTable(src.Value()).cols;
    return Ok(df);
  }

  // ---------------------------------------------------------------------
  // daily_return
  // ---------------------------------------------------------------------

  /** Every price that a later price is compared with is non-zero. */
  predicate ChangesDefined(p: seq<real>)
  {
    forall i :: 0 <= i < |p| - 1 ==> p[i] != 0.0
  }

  /** `p.pct_change().fillna(0) * 100`: pandas computes p[i] / p[i-1] - 1,
      and the undefined change of row 0 is filled with 0. */
  function DailyReturnColumn(p: seq<real>): (r: seq<real>)
    requires ChangesDefined(p)
    ensures |r| == |p|
    ensures |p| > 0 ==> r[0] == 0.0
    ensures forall i :: 0 < i < |p| ==> r[i] == (p[i] - p[i - 1]) / p[i - 1] * 100.0
  {
    seq(|p|, i requires 0 <= i < |p| => if i == 0 then 0.0 else (p[i] / p[i - 1] - 1.0) * 100.0)
  }

  predicate AllChangesDefined(t: Table)
  {
    forall k :: 0 <= k < |t.cols| ==> ChangesDefined(t.cols[k])
  }

  /** The table `daily_return` returns. */
  function DailyReturnTable(t: Table): (d: Table)
    requires t.Valid() && AllChangesDefined(t)
    ensures d.Valid() && d.dates == t.dates && d.labels == t.labels
    ensures forall k :: 0 <= k < |d.cols| && |t.dates| > 0 ==> d.cols[k][0] == 0.0
    ensures forall k, i :: 0 <= k < |d.cols| && 0 < i < |t.dates| ==>
              d.cols[k][i] == (t.cols[k][i] - t.cols[k][i - 1]) / t.cols[k][i - 1] * 100.0
  {
    t.(cols := seq(|t.cols|, k requires 0 <= k < |t.cols| => DailyReturnColumn(t.cols[k])))
  }

  /** `daily_return(df)`: copies the frame, then replaces each value column of
      the copy by the returns computed from the original frame's column. */
  method DailyReturn(df: Frame) returns (out: Frame)
    requires df.Valid() && AllChangesDefined(df.Value())
    ensures unchanged(df)
    ensures fresh(out) && out.Valid() && out.Value() == DailyReturnTable(df.Value())
  {
    out := df.Copy();
    for k := 0 to |df.labels|
      invariant out.Valid()
      invariant out.dates == df.dates && out.labels == df.labels && |out.cols| == |df.cols|
      invariant forall j :: 0 <= j < k ==> out.cols[j] == DailyReturnColumn(df.cols[j])
      invariant forall j :: k <= j < |df.cols| ==> out.cols[j] == df.cols[j]
    {
      out.Replace(k, DailyReturnColumn(df.cols[k]));
    }
    assert out.cols == DailyReturnTable(df.Value()).cols;
  }

  /** The price after one day's percentage change. */
  function Grow(price: real, change: real): real
  {
    price * (1.0 + change / 100.0)
  }

  lemma GrowUndoesChange(a: real, b: real)
    requires a != 0.0
    ensures Grow(a, (b / a - 1.0) * 100.0) == b
  {
  }

  /** Prices rebuilt from a starting price by compounding daily returns. */
  function Compound(price: real, changes: seq<real>): (ps: seq<real>)
    ensures |ps| == |changes|
    decreases |changes|
  {
    if |changes| == 0 then []
    else [Grow(price, changes[0])] + Compound(Grow(price, changes[0]), changes[1..])
  }

  /** Daily returns lose nothing but the first price: compounding them from
      any row's price gives back every later price. */
  lemma {:induction false} CompoundRecoversPrices(p: seq<real>, k: nat)
    requires ChangesDefined(p) && k < |p|
    ensures Compound(p[k], DailyReturnColumn(p)[k + 1..]) == p[k + 1..]
    decreases |p| - k
  {
    var r := DailyReturnColumn(p);
    if k + 1 < |p| {
      CompoundRecoversPrices(p, k + 1);
      assert r[k + 1..][1..] == r[k + 2..];
      assert r[k + 1] == (p[k + 1] / p[k] - 1.0) * 100.0;
      GrowUndoesChange(p[k], p[k + 1]);
      assert p[k + 1..] == [p[k + 1]] + p[k + 2..];
    }
  }

  /** Normalising a column does not change its daily returns. */
  lemma NormalizedReturnsUnchanged(c: seq<real>)
    requires |c| > 0 && c[0] != 0.0 && ChangesDefined(c)
    ensures ChangesDefined(NormalizeColumn(c))
    ensures DailyReturnColumn(NormalizeColumn(c)) == DailyReturnColumn(c)
  {
    var n := NormalizeColumn(c);
    forall i | 0 <= i < |n| - 1
      ensures n[i] != 0.0
    {
      assert n[i] * c[0] == c[i];
    }
    forall i | 0 < i < |c|
      ensures DailyReturnColumn(n)[i] == DailyReturnColumn(c)[i]
    {
      assert n[i] == c[i] / c[0] && n[i - 1] == c[i - 1] / c[0];
      assert n[i] / n[i - 1] == c[i] / c[i - 1];
    }
  }

  // ---------------------------------------------------------------------
  // calculate_beta
  // ---------------------------------------------------------------------

  /** A straight line y = slope * x + intercept. */
  datatype Line = Line(slope: real, intercept: real)

  /** `e` holds the vertical distances of the points (x, y) from the line f. */
  predicate AreResiduals(x: seq<real>, y: seq<real>, f: Line, e: seq<real>)
  {
    && |x| == |y| == |e|
    && forall i :: 0 <= i < |x| ==> e[i] == y[i] - (f.slope * x[i] + f.intercept)
  }

  function Residuals(x: seq<real>, y: seq<real>, f: Line): (e: seq<real>)
    requires |x| == |y|
    ensures |e| == |x|
    ensures AreResiduals(x, y, f, e)
  {
    seq(|x|, i requires 0 <= i < |x| => y[i] - (f.slope * x[i] + f.intercept))
  }

  /** The quantity a least-squares fit minimises. */
  function SquaredError(x: seq<real>, y: seq<real>, f: Line): real
    requires |x| == |y|
  {
    var e := Residuals(x, y, f);
    Dot(e, e)
  }

  /** The closed-form conditions on a fitted line: its slope solves
      slope * Sxx == Sxy (sums of products of deviations from the means),
      and the line passes through the point of means. */
  predicate ClosedForm(x: seq<real>, y: seq<real>, f: Line)
    requires |x| == |y| > 0
  {
    && SolvesSlope(f.slope, Deviations(x), Deviations(y))
    && f.slope * Mean(x) + f.intercept == Mean(y)
  }

  /** b * Sxx == Sxy for the deviations dx and dy. */
  predicate SolvesSlope(b: real, dx: seq<real>, dy: seq<real>)
    requires |dx| == |dy|
  {
    b * Dot(dx, dx) == Dot(dx, dy)
  }

  /** `np.polyfit(x, y, 1)` in closed form. */
  function Polyfit(x: seq<real>, y: seq<real>): (f: Line)
    requires |x| == |y| && NonConstant(x)
    ensures ClosedForm(x, y, f)
  {
    var sxx := Dot(Deviations(x), Deviations(x));
    NonConstantSpread(x);
    var b := Dot(Deviations(x), Deviations(y)) / sxx;
    Line(b, Mean(y) - b * Mean(x))
  }

  // The algebra below combines facts about sums and dot products of whole
  // sequences. Each combination is first gathered into one predicate over
  // the scalar values involved, then closed by a lemma over plain reals.

  /** The residuals of the fit sum to zero and are orthogonal to x: the
      normal equations of least squares. */
  lemma PolyfitNormalEquations(x: seq<real>, y: seq<real>)
    requires |x| == |y| && NonConstant(x)
    ensures Sum(Residuals(x, y, Polyfit(x, y))) == 0.0
    ensures Dot(x, Residuals(x, y, Polyfit(x, y))) == 0.0
  {
    ClosedFormSolvesNormalEquations(x, y, Polyfit(x, y));
  }

  /** Any line in closed form satisfies the normal equations. */
  lemma ClosedFormSolvesNormalEquations(x: seq<real>, y: seq<real>, f: Line)
    requires |x| == |y| > 0 && ClosedForm(x, y, f)
    ensures Sum(Residuals(x, y, f)) == 0.0
    ensures Dot(x, Residuals(x, y, f)) == 0.0
  {
    ResidualsSumToZero(x, y, f);
    ResidualsOrthogonalToDeviations(x, y, f);
    OrthogonalToShifted(x, Deviations(x), Residuals(x, y, f), Mean(x));
  }

  /** A sequence summing to zero and orthogonal to the shifted `dx` is
      orthogonal to `x` itself: dx . e == x . e - m * sum(e). */
  lemma OrthogonalToShifted(x: seq<real>, dx: seq<real>, e: seq<real>, m: real)
    requires Shifted(x, dx, m) && |e| == |x|
    requires Dot(dx, e) == 0.0 && Sum(e) == 0.0
    ensures Dot(x, e) == 0.0
  {
    DotShiftLeft(x, dx, e, m);
    ScaledZero(m, Sum(e));
  }

  lemma ScaledZero(m: real, z: real)
    requires z == 0.0
    ensures m * z == 0.0
  {
  }

  /** The residuals of a line through the point of means sum to zero. */
  lemma ResidualsSumToZero(x: seq<real>, y: seq<real>, f: Line)
    requires |x| == |y| > 0 && f.slope * Mean(x) + f.intercept == Mean(y)
    ensures Sum(Residuals(x, y, f)) == 0.0
  {
    var e, n := Residuals(x, y, f), |x| as real;
    assert MeanFacts(Sum(e), Sum(y), Sum(x), n, f.slope, f.intercept, Mean(x), Mean(y)) by {
      SumLineResidual(x, y, e, f.slope, f.intercept);
    }
    MeanBalance(Sum(e), Sum(y), Sum(x), n, f.slope, f.intercept, Mean(x), Mean(y));
  }

  /** The facts behind ResidualsSumToZero, over the scalars involved:
      sum(e) = sum(y) - b sum(x) - n a, and the line passes through the means. */
  predicate MeanFacts(se: real, sy: real, sx: real, n: real, b: real, a: real, mx: real, my: real)
  {
    && n > 0.0 && se == sy - b * sx - n * a
    && mx == sx / n && my == sy / n && b * mx + a == my
  }

  lemma MeanBalance(se: real, sy: real, sx: real, n: real, b: real, a: real, mx: real, my: real)
    requires MeanFacts(se, sy, sx, n, b, a, mx, my)
    ensures se == 0.0
  {
    assert sy == n * my && sx == n * mx;
  }

  /** The residuals of a line in closed form are orthogonal to the
      x-deviations. */
  lemma ResidualsOrthogonalToDeviations(x: seq<real>, y: seq<real>, f: Line)
    requires |x| == |y| > 0 && ClosedForm(x, y, f)
    ensures Dot(Deviations(x), Residuals(x, y, f)) == 0.0
  {
    OrthogonalToDeviations(x, y, Deviations(x), Deviations(y), Residuals(x, y, f), f, Mean(x), Mean(y));
  }

  /** Residuals `e` of the line (b, a) are orthogonal to the x-deviations
      `dx` when the slope solves b * Sxx == Sxy. */
  lemma OrthogonalToDeviations(x: seq<real>, y: seq<real>, dx: seq<real>, dy: seq<real>, e: seq<real>,
                               f: Line, mx: real, my: real)
    requires AreResiduals(x, y, f, e) && Shifted(x, dx, mx) && Shifted(y, dy, my)
    requires Sum(dx) == 0.0 && SolvesSlope(f.slope, dx, dy)
    ensures Dot(dx, e) == 0.0
  {
    CentredOrthogonality(x, y, dx, dy, e, f, mx, my);
  }

  lemma CentredOrthogonality(x: seq<real>, y: seq<real>, dx: seq<real>, dy: seq<real>, e: seq<real>,
                             f: Line, mx: real, my: real)
    requires |x| == |y| == |dx| == |dy| == |e|
    requires forall i :: 0 <= i < |e| ==> e[i] == y[i] - (f.slope * x[i] + f.intercept)
    requires forall i :: 0 <= i < |dx| ==> dx[i] == x[i] - mx
    requires forall i :: 0 <= i < |dy| ==> dy[i] == y[i] - my
    requires Sum(dx) == 0.0 && SolvesSlope(f.slope, dx, dy)
    ensures Dot(dx, e) == 0.0
  {
    var b, a := f.slope, f.intercept;
    assert SlopeFacts(Dot(dx, e), Dot(dx, y), Dot(dx, x), Dot(dx, dy), Dot(dx, dx), Sum(dx), b, a, mx, my) by {
      DotLineResidual(dx, x, y, e, b, a);
      DotShiftRight(dx, y, dy, my);
      DotShiftRight(dx, x, dx, mx);
    }
    SlopeBalance(Dot(dx, e), Dot(dx, y), Dot(dx, x), Dot(dx, dy), Dot(dx, dx), Sum(dx), b, a, mx, my);
  }

  /** The facts behind CentredOrthogonality, over the scalars involved:
      dx . e expanded, Sxy and Sxx shifted, sum(dx) = 0 and b Sxx = Sxy. */
  predicate SlopeFacts(de: real, uy: real, ux: real, sxy: real, sxx: real, sdx: real, b: real, a: real, mx: real, my: real)
  {
    && de == uy - b * ux - a * sdx
    && sxy == uy - my * sdx && sxx == ux - mx * sdx
    && sdx == 0.0 && b * sxx == sxy
  }

  lemma SlopeBalance(de: real, uy: real, ux: real, sxy: real, sxx: real, sdx: real, b: real, a: real, mx: real, my: real)
    requires SlopeFacts(de, uy, ux, sxy, sxx, sdx, b, a, mx, my)
    ensures de == 0.0
  {
  }

  /** polyfit minimises the squared error: no line fits the points better. */
  lemma PolyfitIsLeastSquares(x: seq<real>, y: seq<real>, g: Line)
    requires |x| == |y| && NonConstant(x)
    ensures SquaredError(x, y, Polyfit(x, y)) <= SquaredError(x, y, g)
  {
    ClosedFormIsLeastSquares(x, y, Polyfit(x, y), g);
  }

  /** A line in closed form has a squared error no larger than any other line. */
  lemma ClosedFormIsLeastSquares(x: seq<real>, y: seq<real>, f: Line, g: Line)
    requires |x| == |y| > 0 && ClosedForm(x, y, f)
    ensures SquaredError(x, y, f) <= SquaredError(x, y, g)
  {
    ClosedFormSolvesNormalEquations(x, y, f);
    var l := Line(g.slope - f.slope, g.intercept - f.intercept);
    var d := LineValues(x, l);
    ResidualsOfTwoLines(x, y, f, g, d);
    NoShiftFitsBetter(x, d, Residuals(x, y, f), Residuals(x, y, g), l.slope, l.intercept);
  }

  /** `d` holds the values p * x + q. */
  predicate AffineImage(x: seq<real>, d: seq<real>, p: real, q: real)
  {
    |x| == |d| && forall i :: 0 <= i < |x| ==> d[i] == p * x[i] + q
  }

  /** The heights of the line l above each x. */
  function LineValues(x: seq<real>, l: Line): (d: seq<real>)
    ensures AffineImage(x, d, l.slope, l.intercept)
  {
    seq(|x|, i requires 0 <= i < |x| => l.slope * x[i] + l.intercept)
  }

  /** `r` is `e - d` elementwise. */
  predicate Difference(e: seq<real>, d: seq<real>, r: seq<real>)
  {
    |e| == |d| == |r| && forall i :: 0 <= i < |r| ==> r[i] == e[i] - d[i]
  }

  /** The residuals of g are those of f minus the values of the line g - f. */
  lemma ResidualsOfTwoLines(x: seq<real>, y: seq<real>, f: Line, g: Line, d: seq<real>)
    requires |x| == |y| && AffineImage(x, d, g.slope - f.slope, g.intercept - f.intercept)
    ensures Difference(Residuals(x, y, f), d, Residuals(x, y, g))
  {
    var e, r := Residuals(x, y, f), Residuals(x, y, g);
    forall i | 0 <= i < |x|
      ensures r[i] == e[i] - d[i]
    {
      LineDifference(r[i], e[i], x[i], y[i], f, g);
    }
  }

  lemma LineDifference(ri: real, ei: real, xi: real, yi: real, f: Line, g: Line)
    requires ri == yi - (g.slope * xi + g.intercept)
    requires ei == yi - (f.slope * xi + f.intercept)
    ensures ri == ei - ((g.slope - f.slope) * xi + (g.intercept - f.intercept))
  {
  }

  /** Residuals `e` satisfying the normal equations are no larger than the
      residuals `r` of any line differing from theirs by the line (p, q). */
  lemma NoShiftFitsBetter(x: seq<real>, d: seq<real>, e: seq<real>, r: seq<real>, p: real, q: real)
    requires AffineImage(x, d, p, q) && Difference(e, d, r)
    requires Sum(e) == 0.0 && Dot(x, e) == 0.0
    ensures Dot(e, e) <= Dot(r, r)
  {
    assert SquareFacts(Dot(r, r), Dot(e, e), Dot(d, e), Dot(d, d), Dot(x, e), Sum(e), p, q) by {
      DotSquareDiff(e, d, r);
      DotAffineLeft(x, d, e, p, q);
      DotSelfNonNegative(d);
    }
    SquareBalance(Dot(r, r), Dot(e, e), Dot(d, e), Dot(d, d), Dot(x, e), Sum(e), p, q);
  }

  /** The facts behind NoShiftFitsBetter, over the scalars involved:
      |r|^2 expanded, d . e expanded, the normal equations and |d|^2 >= 0. */
  predicate SquareFacts(rr: real, ee: real, de: real, dd: real, xe: real, se: real, p: real, q: real)
  {
    && rr == ee - 2.0 * de + dd && de == p * xe + q * se
    && xe == 0.0 && se == 0.0 && dd >= 0.0
  }

  lemma SquareBalance(rr: real, ee: real, de: real, dd: real, xe: real, se: real, p: real, q: real)
    requires SquareFacts(rr, ee, de, dd, xe, se, p, q)
    ensures ee <= rr
  {
  }

  /** Every point (x[i], y[i]) lies on the line g. */
  predicate OnLine(x: seq<real>, y: seq<real>, g: Line)
  {
    |x| == |y| && forall i :: 0 <= i < |x| ==> y[i] == g.slope * x[i] + g.intercept
  }

  /** Points on the line g have their point of means on g. */
  lemma MeanOfLine(x: seq<real>, y: seq<real>, g: Line)
    requires |x| > 0 && OnLine(x, y, g)
    ensures Mean(y) == g.slope * Mean(x) + g.intercept
  {
    var n := |x| as real;
    SumAffine(x, y, g.slope, g.intercept);
    DivideAffine(Sum(y), Sum(x), n, g.slope, g.intercept);
  }

  lemma DivideAffine(sy: real, sx: real, n: real, b: real, a: real)
    requires n > 0.0 && sy == b * sx + n * a
    ensures sy / n == b * (sx / n) + a
  {
  }

  /** Points on the line g deviate from their means along g's slope. */
  lemma DeviationsOnLine(x: seq<real>, y: seq<real>, g: Line)
    requires |x| > 0 && OnLine(x, y, g)
    ensures forall i :: 0 <= i < |x| ==> Deviations(y)[i] == g.slope * Deviations(x)[i]
  {
    var dx, dy := Deviations(x), Deviations(y);
    MeanOfLine(x, y, g);
    forall i | 0 <= i < |x|
      ensures dy[i] == g.slope * dx[i]
    {
      DeviationOnLine(dy[i], y[i], x[i], dx[i], g, Mean(y), Mean(x));
    }
  }

  lemma DeviationOnLine(dyi: real, yi: real, xi: real, dxi: real, g: Line, my: real, mx: real)
    requires yi == g.slope * xi + g.intercept && my == g.slope * mx + g.intercept
    requires dyi == yi - my && dxi == xi - mx
    ensures dyi == g.slope * dxi
  {
  }

  /** Points on the line g have Sxy == slope * Sxx. */
  lemma SlopeOfLine(x: seq<real>, y: seq<real>, g: Line)
    requires |x| > 0 && OnLine(x, y, g)
    ensures Dot(Deviations(x), Deviations(y)) == g.slope * Dot(Deviations(x), Deviations(x))
  {
    DeviationsOnLine(x, y, g);
    DotScaled(Deviations(x), Deviations(x), Deviations(y), g.slope);
  }

  /** On points that lie exactly on a line, polyfit returns that line. */
  lemma PolyfitRecoversLine(x: seq<real>, y: seq<real>, g: Line)
    requires NonConstant(x) && OnLine(x, y, g)
    ensures Polyfit(x, y) == g
  {
    ClosedFormRecoversLine(x, y, Polyfit(x, y), g);
  }

  /** The closed form has one solution when x is not constant: on points
      that lie on g, it is g. */
  lemma ClosedFormRecoversLine(x: seq<real>, y: seq<real>, f: Line, g: Line)
    requires NonConstant(x) && OnLine(x, y, g) && |x| > 0 && ClosedForm(x, y, f)
    ensures f == g
  {
    var dx, dy := Deviations(x), Deviations(y);
    MeanOfLine(x, y, g);
    SlopeOfLine(x, y, g);
    NonConstantSpread(x);
    assert RecoveryFacts(f.slope, f.intercept, g.slope, g.intercept, Dot(dx, dx), Dot(dx, dy), Mean(x), Mean(y));
    RecoveryBalance(f.slope, f.intercept, g.slope, g.intercept, Dot(dx, dx), Dot(dx, dy), Mean(x), Mean(y));
  }

  /** The facts behind ClosedFormRecoversLine, over the scalars involved:
      both lines solve the same slope equation and pass through the means. */
  predicate RecoveryFacts(fb: real, fa: real, gb: real, ga: real, sxx: real, sxy: real, mx: real, my: real)
  {
    && sxx > 0.0 && fb * sxx == sxy && sxy == gb * sxx
    && fb * mx + fa == my && my == gb * mx + ga
  }

  lemma RecoveryBalance(fb: real, fa: real, gb: real, ga: real, sxx: real, sxy: real, mx: real, my: real)
    requires RecoveryFacts(fb, fa, gb, ga, sxx, sxy, mx, my)
    ensures fb == gb && fa == ga
  {
    assert (fb - gb) * sxx == 0.0;
  }

  /** `calculate_beta(stocks_daily_return, stock)`: (slope, intercept), in
      that order, of the degree-1 fit of the stock column against `sp500`. */
  function CalculateBeta(t: Table, stock: string): (r: (real, real))
    requires t.Valid() && MARKET in t.labels && stock in t.labels
    requires NonConstant(Column(t, MARKET))
    ensures r == (Polyfit(Column(t, MARKET), Column(t, stock)).slope,
                  Polyfit(Column(t, MARKET), Column(t, stock)).intercept)
  {
    var f := Polyfit(Column(t, MARKET), Column(t, stock));
    (f.slope, f.intercept)
  }

  /** The fitted line passes through the point of means: the intercept is
      mean(y) - slope * mean(x). */
  lemma PolyfitThroughMeans(x: seq<real>, y: seq<real>)
    requires |x| == |y| && NonConstant(x)
    ensures |x| > 0
    ensures Polyfit(x, y).intercept == Mean(y) - Polyfit(x, y).slope * Mean(x)
  {
  }

  /** On a table of daily returns, the first point of every fit is the
      origin: the zero that `fillna(0)` puts in row 0 of both columns. */
  lemma DailyReturnsFitOrigin(t: Table, stock: string)
    requires t.Valid() && AllChangesDefined(t) && |t.dates| > 0
    requires MARKET in t.labels && stock in t.labels
    ensures Column(DailyReturnTable(t), MARKET)[0] == 0.0
    ensures Column(DailyReturnTable(t), stock)[0] == 0.0
  {
  }

  /** What the pair `calculate_beta` returns means: as a line (slope,
      intercept) it is in closed form for the stock column against `sp500`,
      and no line has a smaller squared error there. */
  lemma CalculateBetaIsLeastSquares(t: Table, stock: string, g: Line)
    requires t.Valid() && MARKET in t.labels && stock in t.labels
    requires NonConstant(Column(t, MARKET))
    ensures |t.dates| > 0
    ensures ClosedForm(Column(t, MARKET), Column(t, stock), Line(CalculateBeta(t, stock).0, CalculateBeta(t, stock).1))
    ensures SquaredError(Column(t, MARKET), Column(t, stock), Line(CalculateBeta(t, stock).0, CalculateBeta(t, stock).1))
              <= SquaredError(Column(t, MARKET), Column(t, stock), g)
  {
    PolyfitIsLeastSquares(Column(t, MARKET), Column(t, stock), g);
  }
}

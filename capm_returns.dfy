/** The analysis `CAPM_Returns.py` runs once the prices are fetched: the
    lookback start date, the table of stock prices, its inner merge with the
    sp500 index on `Date`, the betas and alphas, the annualised market return
    and the expected returns. Every failure ends the whole run. */
module CapmReturns {
  import opened Outcomes
  import opened Calendar
  import opened Frames
  import opened Stats
  import opened CapmFunctions

  /** Trading days in a year, used to annualise the mean daily return. */
  const TRADING_DAYS := 252.0
  /** The risk-free rate `rf`. */
  const RISK_FREE := 0.0
  /** The bounds of the "number of years" input. */
  const MIN_LOOKBACK := 1
  const MAX_LOOKBACK := 10

  // ---------------------------------------------------------------------
  // Inputs
  // ---------------------------------------------------------------------

  /** What the page works from: today's date, the number of years chosen,
      the selected tickers, the closing prices downloaded for each of them
      and the sp500 series downloaded from FRED. */
  datatype Inputs = Inputs(today: Date, years: int, stocks: seq<string>, downloads: seq<Series>, index: Series)

  /** Tickers as the multiselect offers them: distinct, and none of them
      named like the key column or the index column. */
  predicate ValidSelection(stocks: seq<string>)
  {
    Distinct(stocks) && DATE !in stocks && MARKET !in stocks
  }

  /** One download per ticker, all on the first download's dates, which are
      distinct. */
  predicate AlignedDownloads(stocks: seq<string>, downloads: seq<Series>)
  {
    && |downloads| == |stocks|
    && (forall i :: 0 <= i < |downloads| ==> downloads[i].Valid() && downloads[i].dates == downloads[0].dates)
    && (|downloads| > 0 ==> Distinct(downloads[0].dates))
  }

  /** A price series on distinct dates with no zero price. */
  predicate PriceSeries(s: Series)
  {
    s.Valid() && Distinct(s.dates) && forall j :: 0 <= j < |s.values| ==> s.values[j] != 0.0
  }

  predicate WellFormed(inputs: Inputs)
  {
    && IsValid(inputs.today) && MIN_LOOKBACK <= inputs.years <= MAX_LOOKBACK
    && ValidSelection(inputs.stocks)
    && AlignedDownloads(inputs.stocks, inputs.downloads)
    && (forall i :: 0 <= i < |inputs.downloads| ==> PriceSeries(inputs.downloads[i]))
    && PriceSeries(inputs.index)
  }

  // ---------------------------------------------------------------------
  // Start date
  // ---------------------------------------------------------------------

  /** `datetime.date(end.year - year, end.month, end.day)`: today's month and
      day, `years` years back. There is no such date when today is 29
      February and the earlier year is not a leap year; Python raises then. */
  function StartDate(today: Date, years: int): (r: Result<Date>)
    requires IsValid(today) && MIN_LOOKBACK <= years <= MAX_LOOKBACK
    ensures r.Ok? <==> today.year - years >= MIN_YEAR
                       && !(today.month == 2 && today.day == 29 && !IsLeapYear(today.year - years))
    ensures r.Ok? ==> r.value == Date(today.year - years, today.month, today.day)
    ensures r.Ok? ==> IsValid(r.value) && Before(r.value, today)
    ensures r.Err? ==> r.error == InvalidDate
  {
    MakeDate(today.year - years, today.month, today.day)
  }

  // ---------------------------------------------------------------------
  // The stock frame and the index frame
  // ---------------------------------------------------------------------

  /** The frame the download loop builds: one column per selected ticker, in
      selection order, on the dates of the downloads. */
  function StockTable(stocks: seq<string>, downloads: seq<Series>): (t: Table)
    requires ValidSelection(stocks) && AlignedDownloads(stocks, downloads)
    ensures t.Valid() && t.labels == stocks && Distinct(t.dates)
    ensures forall k :: 0 <= k < |stocks| ==> t.dates == downloads[k].dates && t.cols[k] == downloads[k].values
  {
    if |stocks| == 0 then Table([], [], [])
    else Table(downloads[0].dates, stocks, seq(|downloads|, i requires 0 <= i < |downloads| => downloads[i].values))
  }

  /** `stocks_df[stock] = data['Close']` for each selected ticker, into a new
      empty frame. */
  method BuildStockFrame(stocks: seq<string>, downloads: seq<Series>) returns (df: Frame)
    requires ValidSelection(stocks) && AlignedDownloads(stocks, downloads)
    ensures fresh(df) && df.Valid() && df.Value() == StockTable(stocks, downloads)
  {
    df := new Frame.Empty();
    for i := 0 to |stocks|
      invariant fresh(df) && df.Valid()
      invariant df.labels == stocks[..i]
      invariant df.dates == if i == 0 then [] else downloads[0].dates
      invariant |df.cols| == i && forall j :: 0 <= j < i ==> df.cols[j] == downloads[j].values
    {
      df.Insert(stocks[i], downloads[i]);
    }
    assert df.labels == stocks;
  }

  /** The FRED frame after `reset_index` and the renaming of its columns to
      `Date` and `sp500`. */
  function IndexTable(index: Series): (t: Table)
    requires index.Valid()
    ensures t.Valid() && t.labels == [MARKET] && t.dates == index.dates && t.cols == [index.values]
  {
    Table(index.dates, [MARKET], [index.values])
  }

  // ---------------------------------------------------------------------
  // pd.merge(left, right, on='Date', how='inner')
  // ---------------------------------------------------------------------

  /** Positions in `l` of the dates that also occur in `r`, in increasing
      order. */
  function SharedRows(l: seq<Date>, r: seq<Date>): (m: seq<nat>)
    ensures forall n :: 0 <= n < |m| ==> m[n] < |l| && l[m[n]] in r
    ensures forall a, b :: 0 <= a < b < |m| ==> m[a] < m[b]
    ensures forall i :: 0 <= i < |l| && l[i] in r ==> i in m
  {
    if |l| == 0 then []
    else
      var rest := SharedRows(l[..|l| - 1], r);
      if l[|l| - 1] in r then rest + [|l| - 1] else rest
  }

  /** `rows` lists, in increasing order, exactly the positions in `l` of the
      dates that also occur in `r`. */
  predicate RowsShared(l: seq<Date>, r: seq<Date>, rows: seq<nat>)
  {
    && (forall n :: 0 <= n < |rows| ==> rows[n] < |l| && l[rows[n]] in r)
    && (forall a, b :: 0 <= a < b < |rows| ==> rows[a] < rows[b])
    && (forall i :: 0 <= i < |l| && l[i] in r ==> i in rows)
  }

  /** The inner join of two tables on `Date`: one row per date found in both,
      in the order of the left table, with the left table's columns followed
      by the right table's. */
  function InnerMerge(left: Table, right: Table): (m: Table)
    requires left.Valid() && right.Valid() && Distinct(left.dates) && Distinct(right.dates)
    requires forall s :: s in left.labels ==> s !in right.labels
    ensures m.Valid() && m.labels == left.labels + right.labels && Distinct(m.dates)
    ensures forall d :: d in m.dates <==> d in left.dates && d in right.dates
    ensures forall a, b :: 0 <= a < b < |m.dates| ==>
              IndexOf(left.dates, m.dates[a]) < IndexOf(left.dates, m.dates[b])
    ensures forall k, n :: 0 <= k < |left.cols| && 0 <= n < |m.dates| ==>
              m.cols[k][n] == left.cols[k][IndexOf(left.dates, m.dates[n])]
    ensures forall k, n :: 0 <= k < |right.cols| && 0 <= n < |m.dates| ==>
              m.cols[|left.cols| + k][n] == right.cols[k][IndexOf(right.dates, m.dates[n])]
  {
    var rows := SharedRows(left.dates, right.dates);
    assert RowsShared(left.dates, right.dates, rows);
    GatherShape(left, right, rows);
    GatherDates(left, right, rows);
    GatherValues(left, right, rows);
    Gather(left, right, rows)
  }

  /** The rows `rows` of the left table, each with the right table's row of
      the same date. */
  function Gather(left: Table, right: Table, rows: seq<nat>): Table
    requires left.Valid() && right.Valid()
    requires forall n :: 0 <= n < |rows| ==> rows[n] < |left.dates| && left.dates[rows[n]] in right.dates
  {
    var dates := seq(|rows|, n requires 0 <= n < |rows| => left.dates[rows[n]]);
    var lcols := seq(|left.cols|, k requires 0 <= k < |left.cols| =>
                   seq(|rows|, n requires 0 <= n < |rows| => left.cols[k][rows[n]]));
    var rcols := seq(|right.cols|, k requires 0 <= k < |right.cols| =>
                   seq(|rows|, n requires 0 <= n < |rows| => right.cols[k][IndexOf(right.dates, dates[n])]));
    Table(dates, left.labels + right.labels, lcols + rcols)
  }

  lemma GatherShape(left: Table, right: Table, rows: seq<nat>)
    requires left.Valid() && right.Valid() && RowsShared(left.dates, right.dates, rows)
    requires forall s :: s in left.labels ==> s !in right.labels
    ensures Gather(left, right, rows).Valid()
    ensures Gather(left, right, rows).labels == left.labels + right.labels
  {
    DistinctConcat(left.labels, right.labels);
  }

  lemma GatherDates(left: Table, right: Table, rows: seq<nat>)
    requires left.Valid() && right.Valid() && Distinct(left.dates) && RowsShared(left.dates, right.dates, rows)
    ensures var m := Gather(left, right, rows);
      && Distinct(m.dates)
      && (forall d :: d in m.dates <==> d in left.dates && d in right.dates)
      && (forall a, b :: 0 <= a < b < |m.dates| ==>
            IndexOf(left.dates, m.dates[a]) < IndexOf(left.dates, m.dates[b]))
  {
    var m := Gather(left, right, rows);
    IndexOfDistinct(left.dates);
    MergedRowsFacts(left.dates, right.dates, rows, m.dates);
  }

  lemma GatherValues(left: Table, right: Table, rows: seq<nat>)
    requires left.Valid() && right.Valid() && Distinct(left.dates) && RowsShared(left.dates, right.dates, rows)
    ensures var m := Gather(left, right, rows);
      && (forall k, n :: 0 <= k < |left.cols| && 0 <= n < |m.dates| ==>
            m.cols[k][n] == left.cols[k][IndexOf(left.dates, m.dates[n])])
      && (forall k, n :: 0 <= k < |right.cols| && 0 <= n < |m.dates| ==>
            m.cols[|left.cols| + k][n] == right.cols[k][IndexOf(right.dates, m.dates[n])])
  {
    IndexOfDistinct(left.dates);
  }

  lemma DistinctConcat(a: seq<string>, b: seq<string>)
    requires Distinct(a) && Distinct(b) && forall s :: s in a ==> s !in b
    ensures Distinct(a + b)
  {
    forall i, j | 0 <= i < j < |a + b|
      ensures (a + b)[i] != (a + b)[j]
    {
      if i < |a| && j >= |a| {
        assert (a + b)[i] in a && (a + b)[j] in b;
      }
    }
  }

  lemma IndexOfDistinct(s: seq<Date>)
    requires Distinct(s)
    ensures forall i :: 0 <= i < |s| ==> IndexOf(s, s[i]) == i
  {
  }

  lemma MergedRowsFacts(l: seq<Date>, r: seq<Date>, rows: seq<nat>, dates: seq<Date>)
    requires Distinct(l) && RowsShared(l, r, rows)
    requires |dates| == |rows| && forall n :: 0 <= n < |rows| ==> dates[n] == l[rows[n]]
    ensures Distinct(dates)
    ensures forall d :: d in dates <==> d in l && d in r
  {
    forall d | d in l && d in r
      ensures d in dates
    {
      var i :| 0 <= i < |l| && l[i] == d;
      var n :| 0 <= n < |rows| && rows[n] == i;
      assert dates[n] == d;
    }
  }

  /** Merging a left table with ascending dates gives ascending dates. */
  lemma MergeKeepsAscending(left: Table, right: Table)
    requires left.Valid() && right.Valid() && Distinct(left.dates) && Distinct(right.dates)
    requires forall s :: s in left.labels ==> s !in right.labels
    requires Ascending(left.dates)
    ensures Ascending(InnerMerge(left, right).dates)
  {
  }

  /** No value of a table is zero. */
  predicate NonZeroValues(t: Table)
  {
    forall k, i :: 0 <= k < |t.cols| && 0 <= i < |t.cols[k]| ==> t.cols[k][i] != 0.0
  }

  /** The merge takes every value from one of its inputs. */
  lemma MergeKeepsNonZero(left: Table, right: Table)
    requires left.Valid() && right.Valid() && Distinct(left.dates) && Distinct(right.dates)
    requires forall s :: s in left.labels ==> s !in right.labels
    requires NonZeroValues(left) && NonZeroValues(right)
    ensures NonZeroValues(InnerMerge(left, right))
  {
  }

  // ---------------------------------------------------------------------
  // Betas and alphas
  // ---------------------------------------------------------------------

  /** The `beta` and `alpha` dictionaries, keyed by ticker. */
  datatype Coefficients = Coefficients(beta: map<string, real>, alpha: map<string, real>)

  /** The loop over `stocks_daily_return.columns` that fits every column but
      `Date` and `sp500` against `sp500`. When the market returns are
      constant, numpy yields no usable line; the model reports
      `DegenerateFit` at the first such column instead. */
  method BetaAlpha(df: Frame) returns (r: Result<Coefficients>)
    requires df.Valid() && MARKET in df.labels
    ensures r.Err? <==> (exists s :: s in df.labels && s != MARKET) && !NonConstant(Column(df.Value(), MARKET))
    ensures r.Err? ==> r.error == DegenerateFit
    ensures r.Ok? ==> forall s :: s in r.value.beta <==> s in df.labels && s != MARKET
    ensures r.Ok? ==> forall s :: s in r.value.alpha <==> s in df.labels && s != MARKET
    ensures r.Ok? && NonConstant(Column(df.Value(), MARKET)) ==>
              r.value.beta == Betas(df.Value()) && r.value.alpha == Alphas(df.Value())
  {
    var t := df.Value();
    var columns := t.Columns();
    var fittable := NonConstant(Column(t, MARKET));
    var beta: map<string, real>, alpha: map<string, real> := map[], map[];
    for c := 0 to |columns|
      invariant forall j :: 0 <= j < c && columns[j] != DATE && columns[j] != MARKET ==> columns[j] in beta
      invariant forall s :: s in alpha <==> s in beta
      invariant forall s :: s in beta ==> s in t.labels && s != MARKET
      invariant !fittable ==> beta == map[]
      invariant fittable ==> forall s :: s in beta ==> beta[s] == CalculateBeta(t, s).0
      invariant fittable ==> forall s :: s in alpha ==> alpha[s] == CalculateBeta(t, s).1
    {
      var stock := columns[c];
      if stock != DATE && stock != MARKET {
        assert stock in t.labels by { assert c > 0 && stock == t.labels[c - 1]; }
        if !fittable {
          return Err(DegenerateFit);
        }
        var fit := CalculateBeta(t, stock);
        beta, alpha := beta[stock := fit.0], alpha[stock := fit.1];
      }
    }
    ColumnsCovered(t, beta);
    if fittable {
      BetasFilled(t, beta);
      AlphasFilled(t, alpha);
    }
    return Ok(Coefficients(beta, alpha));
  }

  /** A loop over `df.columns` that reaches every column but `Date` and
      `sp500` reaches every label but `sp500`. */
  lemma ColumnsCovered(t: Table, beta: map<string, real>)
    requires forall j :: 0 <= j < |t.Columns()| && t.Columns()[j] != DATE && t.Columns()[j] != MARKET ==> t.Columns()[j] in beta
    requires DATE !in t.labels
    ensures forall s :: s in t.labels && s != MARKET ==> s in beta
  {
    forall s | s in t.labels && s != MARKET
      ensures s in beta
    {
      var k :| 0 <= k < |t.labels| && t.labels[k] == s;
      assert t.Columns()[k + 1] == s;
    }
  }

  /** The betas of every column but `sp500`. */
  function Betas(t: Table): (m: map<string, real>)
    requires t.Valid() && MARKET in t.labels && NonConstant(Column(t, MARKET))
    ensures forall s :: s in m <==> s in t.labels && s != MARKET
    ensures forall s :: s in m ==> m[s] == Polyfit(Column(t, MARKET), Column(t, s)).slope
  {
    map s | s in t.labels && s != MARKET :: CalculateBeta(t, s).0
  }

  /** The alphas of every column but `sp500`. */
  function Alphas(t: Table): (m: map<string, real>)
    requires t.Valid() && MARKET in t.labels && NonConstant(Column(t, MARKET))
    ensures forall s :: s in m <==> s in t.labels && s != MARKET
    ensures forall s :: s in m ==> m[s] == Polyfit(Column(t, MARKET), Column(t, s)).intercept
  {
    map s | s in t.labels && s != MARKET :: CalculateBeta(t, s).1
  }

  /** The dictionary of betas the loop fills is the map of betas. */
  lemma BetasFilled(t: Table, beta: map<string, real>)
    requires t.Valid() && MARKET in t.labels && NonConstant(Column(t, MARKET))
    requires forall s :: s in beta <==> s in t.labels && s != MARKET
    requires forall s :: s in beta ==> beta[s] == CalculateBeta(t, s).0
    ensures beta == Betas(t)
  {
  }

  /** The dictionary of alphas the loop fills is the map of alphas. */
  lemma AlphasFilled(t: Table, alpha: map<string, real>)
    requires t.Valid() && MARKET in t.labels && NonConstant(Column(t, MARKET))
    requires forall s :: s in alpha <==> s in t.labels && s != MARKET
    requires forall s :: s in alpha ==> alpha[s] == CalculateBeta(t, s).1
    ensures alpha == Alphas(t)
  {
  }

  // ---------------------------------------------------------------------
  // Market return and expected returns
  // ---------------------------------------------------------------------

  /** `rm`: the mean daily return of the index, annualised. */
  function MarketReturn(r: seq<real>): real
    requires |r| > 0
  {
    Mean(r) * TRADING_DAYS
  }

  /** Annualising keeps the bounds of the daily returns, scaled. */
  lemma MarketReturnBounds(r: seq<real>, lo: real, hi: real)
    requires |r| > 0 && forall i :: 0 <= i < |r| ==> lo <= r[i] <= hi
    ensures TRADING_DAYS * lo <= MarketReturn(r) <= TRADING_DAYS * hi
  {
    SumBounds(r, lo, hi);
    MeanBetween(Sum(r), |r| as real, lo, hi);
  }

  lemma MeanBetween(s: real, n: real, lo: real, hi: real)
    requires n > 0.0 && n * lo <= s <= n * hi
    ensures lo <= s / n <= hi
  {
  }

  /** The zero that `fillna(0)` puts in row 0 is averaged in: the market
      return is the sum of the real changes over the number of rows,
      that zero included. */
  lemma MarketReturnWithSyntheticZero(r: seq<real>)
    requires |r| > 0 && r[0] == 0.0
    ensures MarketReturn(r) == TRADING_DAYS * (Sum(r[1..]) / |r| as real)
  {
  }

  /** `rf + beta * (rm - rf)`. */
  function ExpectedReturn(rf: real, beta: real, rm: real): real
  {
    rf + beta * (rm - rf)
  }

  /** An asset without market risk earns the risk-free rate. */
  lemma ExpectedReturnZeroBeta(rf: real, rm: real)
    ensures ExpectedReturn(rf, 0.0, rm) == rf
  {
  }

  /** An asset that moves with the market earns the market return. */
  lemma ExpectedReturnUnitBeta(rf: real, rm: real)
    ensures ExpectedReturn(rf, 1.0, rm) == rm
  {
  }

  /** When the market pays a premium, the beta can be read back from the
      expected return. */
  lemma ExpectedReturnRecoversBeta(rf: real, beta: real, rm: real)
    requires rm != rf
    ensures (ExpectedReturn(rf, beta, rm) - rf) / (rm - rf) == beta
  {
  }

  /** With a positive premium, more market risk means a higher expected
      return. */
  lemma ExpectedReturnMonotone(rf: real, b1: real, b2: real, rm: real)
    requires rm > rf && b1 <= b2
    ensures ExpectedReturn(rf, b1, rm) <= ExpectedReturn(rf, b2, rm)
  {
    assert b2 * (rm - rf) - b1 * (rm - rf) == (b2 - b1) * (rm - rf);
  }

  /** `e` holds, for each ticker in `stocks` in turn, its beta times `rm`:
      the CAPM line with a zero risk-free rate. */
  predicate PricedByBeta(stocks: seq<string>, beta: map<string, real>, rm: real, e: seq<real>)
  {
    && |e| == |stocks|
    && forall i :: 0 <= i < |stocks| ==> stocks[i] in beta && e[i] == beta[stocks[i]] * rm
  }

  /** The expected-return list: one value per selected ticker, in selection
      order. */
  function ExpectedReturns(stocks: seq<string>, beta: map<string, real>, rm: real): (e: seq<real>)
    requires forall i :: 0 <= i < |stocks| ==> stocks[i] in beta
    ensures PricedByBeta(stocks, beta, rm, e)
  {
    seq(|stocks|, i requires 0 <= i < |stocks| => ExpectedReturn(RISK_FREE, beta[stocks[i]], rm))
  }

  // ---------------------------------------------------------------------
  // The whole run
  // ---------------------------------------------------------------------

  /** What the page shows after a successful run. */
  datatype Report = Report(
    merged: Table,
    normalized: Table,
    dailyReturns: Table,
    beta: map<string, real>,
    alpha: map<string, real>,
    marketReturn: real,
    expected: seq<real>)

  /** The stock frame merged with the index frame. */
  function Merged(inputs: Inputs): (m: Table)
    requires WellFormed(inputs)
    ensures m.Valid() && m.labels == inputs.stocks + [MARKET] && Distinct(m.dates)
    ensures NonZeroValues(m) && FirstRowNonZero(m) && AllChangesDefined(m)
    ensures |inputs.stocks| > 0 ==>
              forall d :: d in m.dates <==> d in inputs.downloads[0].dates && d in inputs.index.dates
  {
    var left := StockTable(inputs.stocks, inputs.downloads);
    var right := IndexTable(inputs.index);
    StockValuesNonZero(inputs);
    MergeKeepsNonZero(left, right);
    NonZeroTableDefined(InnerMerge(left, right));
    InnerMerge(left, right)
  }

  lemma StockValuesNonZero(inputs: Inputs)
    requires WellFormed(inputs)
    ensures NonZeroValues(StockTable(inputs.stocks, inputs.downloads))
    ensures NonZeroValues(IndexTable(inputs.index))
  {
    var t := StockTable(inputs.stocks, inputs.downloads);
    forall k, i | 0 <= k < |t.cols| && 0 <= i < |t.cols[k]|
      ensures t.cols[k][i] != 0.0
    {
      assert PriceSeries(inputs.downloads[k]);
    }
  }

  /** A table without zero values can be normalised and has daily returns. */
  lemma NonZeroTableDefined(t: Table)
    requires NonZeroValues(t)
    ensures FirstRowNonZero(t) && AllChangesDefined(t)
  {
  }

  /** The stock frame never takes a download's `Date` index: no ticker is
      selected, or the downloads are empty (what yfinance returns for a
      ticker it cannot fetch). Assigning an empty series to an empty frame
      leaves the frame's unnamed index in place, so `reset_index` names the
      new column "index" and the lookup of `Date` raises KeyError. */
  predicate NoDateIndex(downloads: seq<Series>)
  {
    |downloads| == 0 || |downloads[0].dates| == 0
  }

  /** The result of the run, or the failure that ends it. The single error
      boundary reports an impossible start date, a stock frame without a
      `Date` index (`NoDateIndex`) and no shared date (`normalize` finds no
      row 0). Constant market returns, where numpy yields no usable line,
      end the model's run with `DegenerateFit`. */
  function Analysis(inputs: Inputs): Result<Report>
    requires WellFormed(inputs)
  {
    var start := StartDate(inputs.today, inputs.years);
    if start.Err? then Err(start.error)
    else if NoDateIndex(inputs.downloads) then Err(MissingDateColumn)
    else AnalyseMerged(inputs.stocks, Merged(inputs))
  }

  /** The run from the merged frame on. */
  function AnalyseMerged(stocks: seq<string>, merged: Table): Result<Report>
    requires MARKET !in stocks
    requires merged.Valid() && merged.labels == stocks + [MARKET] && NonZeroValues(merged)
  {
    if |merged.dates| == 0 then Err(MissingFirstRow)
    else
      NonZeroTableDefined(merged);
      var daily := DailyReturnTable(merged);
      if !NonConstant(Column(daily, MARKET)) then Err(DegenerateFit)
      else Ok(Summary(stocks, merged, daily))
  }

  /** The tables, coefficients and returns a successful run shows. */
  function Summary(stocks: seq<string>, merged: Table, daily: Table): Report
    requires merged.Valid() && FirstRowNonZero(merged) && |merged.dates| > 0
    requires MARKET !in stocks
    requires daily.Valid() && daily.labels == stocks + [MARKET] && NonConstant(Column(daily, MARKET))
  {
    var beta := Betas(daily);
    var rm := MarketReturn(Column(daily, MARKET));
    Report(merged, NormalizeTable(merged), daily, beta, Alphas(daily), rm, ExpectedReturns(stocks, beta, rm))
  }

  /** The body of the `try` block once the prices are fetched. */
  method Run(inputs: Inputs) returns (res: Result<Report>)
    requires WellFormed(inputs)
    ensures res == Analysis(inputs)
  {
    var start := StartDate(inputs.today, inputs.years);
    if start.Err? {
      return Err(start.error);
    }
    var stocksDf := BuildStockFrame(inputs.stocks, inputs.downloads);
    // A frame without columns, or whose columns came from empty downloads,
    // still has its unnamed index: `reset_index` names the new column
    // "index", so the lookup of `Date` raises KeyError.
    if |stocksDf.labels| == 0 || |stocksDf.dates| == 0 {
      return Err(MissingDateColumn);
    }
    StockValuesNonZero(inputs);
    var merged := new Frame.Of(InnerMerge(stocksDf.Value(), IndexTable(inputs.index)));
    assert merged.Value() == Merged(inputs);
    res := RunMerged(inputs.stocks, merged);
  }

  /** The rest of the `try` block, from the merged frame on: `normalize`,
      `daily_return`, the beta loop, `rm` and the expected returns. */
  method RunMerged(stocks: seq<string>, merged: Frame) returns (res: Result<Report>)
    requires MARKET !in stocks && |stocks| > 0
    requires merged.Valid() && merged.labels == stocks + [MARKET] && NonZeroValues(merged.Value())
    ensures res == AnalyseMerged(stocks, merged.Value())
  {
    NonZeroTableDefined(merged.Value());
    var normalized := Normalize(merged);
    if normalized.Err? {
      return Err(normalized.error);
    }
    var daily := DailyReturn(merged);
    var fit := BetaAlpha(daily);
    if fit.Err? {
      return Err(fit.error);
    }
    var t := daily.Value();
    assert t.labels == stocks + [MARKET];
    assert stocks[0] in t.labels;
    assert NonConstant(Column(t, MARKET));
    assert forall i :: 0 <= i < |stocks| ==> stocks[i] in t.labels && stocks[i] != MARKET;
    var rm := MarketReturn(Column(t, MARKET));
    var expected := ExpectedReturns(stocks, fit.value.beta, rm);
    return Ok(Report(merged.Value(), normalized.value.Value(), t, fit.value.beta, fit.value.alpha, rm, expected));
  }

  /** When the run fails, and with which failure. */
  lemma AnalysisErrors(inputs: Inputs)
    requires WellFormed(inputs)
    ensures Analysis(inputs) == Err(InvalidDate) <==> StartDate(inputs.today, inputs.years).Err?
    ensures Analysis(inputs) == Err(MissingDateColumn) <==>
              StartDate(inputs.today, inputs.years).Ok? && (|inputs.stocks| == 0 || |inputs.downloads[0].dates| == 0)
    ensures Analysis(inputs) == Err(MissingFirstRow) <==>
              && StartDate(inputs.today, inputs.years).Ok? && |inputs.stocks| > 0
              && |inputs.downloads[0].dates| > 0
              && forall d :: d in inputs.downloads[0].dates ==> d !in inputs.index.dates
  {
    if StartDate(inputs.today, inputs.years).Ok? && |inputs.stocks| > 0 {
      var m := Merged(inputs);
      if |m.dates| > 0 {
        assert m.dates[0] in m.dates;
      }
    }
  }

  /** The run stops at the fit exactly when the shared rows leave the
      market's daily returns constant. */
  lemma AnalysisDegenerateFit(inputs: Inputs)
    requires WellFormed(inputs)
    ensures Analysis(inputs) == Err(DegenerateFit) <==>
              && StartDate(inputs.today, inputs.years).Ok? && |inputs.stocks| > 0
              && |Merged(inputs).dates| > 0
              && !NonConstant(Column(DailyReturnTable(Merged(inputs)), MARKET))
  {
    assert MARKET in Merged(inputs).labels;
    if |inputs.stocks| > 0 && |inputs.downloads[0].dates| == 0 {
      EmptyDownloadsShareNoDate(inputs);
    }
  }

  /** The run succeeds exactly when none of the failures above occurs. */
  lemma AnalysisSucceeds(inputs: Inputs)
    requires WellFormed(inputs)
    ensures Analysis(inputs).Ok? <==>
              && StartDate(inputs.today, inputs.years).Ok? && |inputs.stocks| > 0
              && |Merged(inputs).dates| > 0
              && NonConstant(Column(DailyReturnTable(Merged(inputs)), MARKET))
  {
    assert MARKET in Merged(inputs).labels;
    if |inputs.stocks| > 0 && |inputs.downloads[0].dates| == 0 {
      EmptyDownloadsShareNoDate(inputs);
    }
  }

  /** Empty downloads share no date with the index. */
  lemma EmptyDownloadsShareNoDate(inputs: Inputs)
    requires WellFormed(inputs) && |inputs.stocks| > 0 && |inputs.downloads[0].dates| == 0
    ensures |Merged(inputs).dates| == 0
  {
  }

  /** A successful run reports the summary of the merged table and its
      daily returns. */
  lemma AnalysisSummary(inputs: Inputs)
    requires WellFormed(inputs) && Analysis(inputs).Ok?
    ensures |inputs.stocks| > 0 && |Merged(inputs).dates| > 0
    ensures FirstRowNonZero(Merged(inputs)) && AllChangesDefined(Merged(inputs))
    ensures NonConstant(Column(DailyReturnTable(Merged(inputs)), MARKET))
    ensures Analysis(inputs).value == Summary(inputs.stocks, Merged(inputs), DailyReturnTable(Merged(inputs)))
  {
    NonZeroTableDefined(Merged(inputs));
  }

  /** A successful run shows the merged table, its normalisation and its
      daily returns. */
  lemma AnalysisTables(inputs: Inputs, r: Report)
    requires WellFormed(inputs) && Analysis(inputs) == Ok(r)
    ensures
      && r.merged.labels == inputs.stocks + [MARKET]
      && (forall d :: d in r.merged.dates <==> d in inputs.downloads[0].dates && d in inputs.index.dates)
      && r.dailyReturns == DailyReturnTable(r.merged)
      && r.normalized == NormalizeTable(r.merged)
  {
    AnalysisSummary(inputs);
  }

  /** A successful run fits every selected ticker, and only those, against
      the market's daily returns. */
  lemma AnalysisCoefficients(inputs: Inputs, r: Report)
    requires WellFormed(inputs) && Analysis(inputs) == Ok(r)
    ensures
      && r.dailyReturns.Valid() && r.dailyReturns.labels == inputs.stocks + [MARKET]
      && (forall s :: s in r.beta <==> s in inputs.stocks)
      && (forall s :: s in r.alpha <==> s in inputs.stocks)
      && (forall s :: s in inputs.stocks ==>
            r.beta[s] == Polyfit(Column(r.dailyReturns, MARKET), Column(r.dailyReturns, s)).slope)
      && (forall s :: s in inputs.stocks ==>
            r.alpha[s] == Polyfit(Column(r.dailyReturns, MARKET), Column(r.dailyReturns, s)).intercept)
  {
    AnalysisSummary(inputs);
    var m := Merged(inputs);
    SummaryCoefficients(inputs.stocks, m, DailyReturnTable(m));
  }

  lemma SummaryCoefficients(stocks: seq<string>, merged: Table, daily: Table)
    requires merged.Valid() && FirstRowNonZero(merged) && |merged.dates| > 0
    requires MARKET !in stocks
    requires daily.Valid() && daily.labels == stocks + [MARKET] && NonConstant(Column(daily, MARKET))
    ensures var r := Summary(stocks, merged, daily);
      && (forall s :: s in r.beta <==> s in stocks)
      && (forall s :: s in r.alpha <==> s in stocks)
      && (forall s :: s in stocks ==> r.beta[s] == Polyfit(Column(daily, MARKET), Column(daily, s)).slope)
      && (forall s :: s in stocks ==> r.alpha[s] == Polyfit(Column(daily, MARKET), Column(daily, s)).intercept)
  {
  }

  lemma SummaryExpectedReturns(stocks: seq<string>, merged: Table, daily: Table, r: Report)
    requires merged.Valid() && FirstRowNonZero(merged) && |merged.dates| > 0
    requires MARKET !in stocks
    requires daily.Valid() && daily.labels == stocks + [MARKET] && NonConstant(Column(daily, MARKET))
    requires r == Summary(stocks, merged, daily)
    ensures
      && r.dailyReturns == daily
      && r.marketReturn == Mean(Column(daily, MARKET)) * TRADING_DAYS
      && PricedByBeta(stocks, r.beta, r.marketReturn, r.expected)
  {
    assert r.beta == Betas(daily) && r.marketReturn == MarketReturn(Column(daily, MARKET));
    assert r.expected == ExpectedReturns(stocks, r.beta, r.marketReturn);
  }

  /** A successful run gives one expected return per selected ticker, in
      selection order: its beta times the annualised market return. */
  lemma AnalysisExpectedReturns(inputs: Inputs, r: Report)
    requires WellFormed(inputs) && Analysis(inputs) == Ok(r)
    ensures
      && r.dailyReturns.Valid() && MARKET in r.dailyReturns.labels
      && r.marketReturn == Mean(Column(r.dailyReturns, MARKET)) * TRADING_DAYS
      && PricedByBeta(inputs.stocks, r.beta, r.marketReturn, r.expected)
  {
    AnalysisSummary(inputs);
    var m := Merged(inputs);
    var daily := DailyReturnTable(m);
    assert r == Summary(inputs.stocks, m, daily);
    SummaryExpectedReturns(inputs.stocks, m, daily, r);
    assert daily.labels == inputs.stocks + [MARKET];
  }
}

# CAPM analysis: a verified model of the transform core

This project models the arithmetic core of a Streamlit page for Capital Asset Pricing Model (CAPM) analysis. The page:

- fetches closing prices for the selected tickers, plus the sp500 index;
- joins them on `Date`;
- normalises them and computes percentage daily returns;
- fits each ticker's returns against the market's (beta and alpha);
- annualises the mean market return;
- reports each ticker's CAPM expected return `rf + beta * (rm - rf)`, with `rf = 0`.

All values are exact `real`s. Once the prices are given, the model covers everything the page does with them, except what "## Left out" lists.

Modules, one concern per file:

- `outcomes.dfy` (`Outcomes`): the failures that end a run, and `Result`.
  - Three are exceptions that reach the page's single `try`/`except` boundary.
  - The fourth, `DegenerateFit`, is reported by the model where numpy yields no usable line (see "## Left out").
- `calendar.dfy` (`Calendar`): proleptic Gregorian dates. `MakeDate` fails exactly where Python's `datetime.date` raises `ValueError`.
- `frames.dfy` (`Frames`): the DataFrame pieces the analysis relies on.
  - `Table` is a value: a `Date` column plus named value columns.
  - `Frame` is a class whose columns are assigned in place. It has `Copy`, `Insert` for a new column and `Replace` for an existing one.
- `stats.dfy` (`Stats`): sums, means, dot products and deviations, with the summation lemmas that the least-squares proofs use.
- `capm_functions.dfy` (`CapmFunctions`):
  - `normalize` and `daily_return` are methods. Each copies the frame and overwrites the copy's columns in a loop, and each is proved equal to a table function.
  - `calculate_beta` is the closed-form least-squares line. It is proved to satisfy the normal equations, to minimise the squared error and to recover exact lines.
- `capm_returns.dfy` (`CapmReturns`): the page's run.
  - Steps: start date, stock frame, inner merge, beta/alpha loop, market return and expected returns.
  - `Run` is the imperative run. It is proved equal to the function `Analysis`.
  - Lemmas say when the run fails, with which failure, and what a successful run reports.

## Model

| member | source | states |
|---|---|---|
| Calendar.MakeDate | CAPM_Returns.py:42 | a date is built exactly when it exists in the calendar (month 1-12, day within the month, 29 February only in leap years, year 1-9999); otherwise the result is the `ValueError` failure |
| Frames.Column | capm_functions.py:50-51 | `df[name]` is the column stored under that label and has one value per date |
| Frames.Frame.Copy | capm_functions.py:34 | `copy()` gives a new frame with the same contents |
| Frames.Frame.Insert | CAPM_Returns.py:50 | assigning a new column appends the label and its values; an empty frame takes the series' dates as its index |
| Frames.Frame.Replace | capm_functions.py:36 | assigning an existing column changes that column only; dates and labels stay |
| CapmFunctions.NormalizeColumn | capm_functions.py:36 | the column has the same length, starts at exactly 1, and each value times the first price gives back the original price |
| CapmFunctions.NormalizeTable | capm_functions.py:33-37 | `Date` column and column names unchanged; every value column starts at 1 and is the original column over its first value |
| CapmFunctions.Normalize | capm_functions.py:33-37 | the input frame is unchanged; the result is a new frame equal to `NormalizeTable` of the input; it fails (KeyError on row 0) exactly when there is a value column but no row |
| CapmFunctions.DailyReturnColumn | capm_functions.py:43 | same length; row 0 is 0 (`fillna(0)`); row i is the percentage change `(p[i] - p[i-1]) / p[i-1] * 100` |
| CapmFunctions.DailyReturnTable | capm_functions.py:40-44 | `Date` column and names unchanged; every value column is its daily return column, computed from the original prices |
| CapmFunctions.DailyReturn | capm_functions.py:40-44 | the input frame is unchanged; the result is a new frame equal to `DailyReturnTable` of the input |
| CapmFunctions.CompoundRecoversPrices | capm_functions.py:43 | the daily returns lose only the first price: compounding them from any row's price gives back every later price |
| CapmFunctions.NormalizedReturnsUnchanged | capm_functions.py:33-44 | normalising a column does not change its daily returns |
| CapmFunctions.Polyfit | capm_functions.py:52 | the fitted line is in closed form: slope * Sxx = Sxy, and the line passes through the point of means |
| CapmFunctions.PolyfitNormalEquations | capm_functions.py:52 | the residuals of the fit sum to zero and are orthogonal to x |
| CapmFunctions.PolyfitIsLeastSquares | capm_functions.py:52 | no line has a smaller sum of squared residuals than the fitted one |
| CapmFunctions.PolyfitRecoversLine | capm_functions.py:50-53 | on points lying on a line, with x not constant, the fit returns exactly that line |
| CapmFunctions.PolyfitThroughMeans | capm_functions.py:52 | intercept = mean(y) - slope * mean(x) |
| CapmFunctions.CalculateBeta | capm_functions.py:48-53 | returns (slope, intercept), in that order, of the fit of the stock column (y) against the `sp500` column (x) |
| CapmFunctions.CalculateBetaIsLeastSquares | capm_functions.py:48-53 | the returned pair, read as the line (slope, intercept), is in closed form for the stock column against `sp500`, and no line has a smaller squared error on those points |
| CapmFunctions.DailyReturnsFitOrigin | capm_functions.py:43 | on daily returns, the first point of every fit is (0, 0), the zero `fillna(0)` puts in row 0 |
| CapmReturns.StartDate | CAPM_Returns.py:42 | today's month and day, `years` years back. It succeeds exactly when that year is at least 1 and the date is not 29 February of a non-leap year. The result is a valid date before today |
| CapmReturns.StockTable | CAPM_Returns.py:47-50 | one column per selected ticker, in selection order, holding that ticker's download, on the downloads' dates |
| CapmReturns.BuildStockFrame | CAPM_Returns.py:47-50 | the loop that assigns each download into a new empty frame builds `StockTable` |
| CapmReturns.IndexTable | CAPM_Returns.py:53-55 | the index frame after `reset_index` and renaming has the single column `sp500` on the index's dates |
| CapmReturns.SharedRows | CAPM_Returns.py:58 | lists, in increasing order, exactly the positions of left dates that occur on the right |
| CapmReturns.InnerMerge | CAPM_Returns.py:58 | dates are exactly those in both tables, in the left table's order, without repeats. Columns are the left's then the right's. Each value is taken from its table's row of that date |
| CapmReturns.MergeKeepsAscending | CAPM_Returns.py:58 | a left table with ascending dates merges into ascending dates |
| CapmReturns.MergeKeepsNonZero | CAPM_Returns.py:58 | the merge introduces no value: non-zero inputs give a non-zero table |
| CapmReturns.Merged | CAPM_Returns.py:47-58 | merged labels are the tickers in selection order, then `sp500`. With a ticker selected, the dates are exactly those in both the downloads and the index |
| CapmReturns.BetaAlpha | CAPM_Returns.py:82-87 | the loop over the columns fits every column but `Date` and `sp500`, and only those. Each beta and alpha is the slope and intercept of that column's fit. It reports `DegenerateFit` (where numpy yields no usable line) exactly when there is such a column and the market column is constant |
| CapmReturns.Betas | CAPM_Returns.py:82-87 | one beta per column other than `sp500`: the slope of its fit against `sp500` |
| CapmReturns.Alphas | CAPM_Returns.py:82-87 | one alpha per column other than `sp500`: the intercept of its fit against `sp500` |
| CapmReturns.MarketReturnBounds | CAPM_Returns.py:100 | daily returns within [lo, hi] give an annualised market return within [252 lo, 252 hi] |
| CapmReturns.MarketReturnWithSyntheticZero | CAPM_Returns.py:100 | the row-0 zero counts in the mean: rm is 252 times the sum of the real changes over the number of rows, that zero included |
| CapmReturns.ExpectedReturnZeroBeta | CAPM_Returns.py:102 | beta 0 earns exactly the risk-free rate |
| CapmReturns.ExpectedReturnUnitBeta | CAPM_Returns.py:102 | beta 1 earns exactly the market return |
| CapmReturns.ExpectedReturnRecoversBeta | CAPM_Returns.py:102 | with rm != rf, beta is recovered as (E - rf) / (rm - rf) |
| CapmReturns.ExpectedReturnMonotone | CAPM_Returns.py:102 | with rm > rf, a larger beta never gives a smaller expected return |
| CapmReturns.ExpectedReturns | CAPM_Returns.py:99-106 | one value per selected ticker, in selection order: its beta times rm (rf = 0) |
| CapmReturns.Run | CAPM_Returns.py:39-114 | the imperative run (start date, stock frame loop, merge, `normalize`, `daily_return`, beta loop, rm, expected returns) ends exactly as `Analysis` says: one failure, or the full report |
| CapmReturns.RunMerged | CAPM_Returns.py:76-106 | from the merged frame on, the run matches `AnalyseMerged` |
| CapmReturns.AnalysisErrors | CAPM_Returns.py:39-114 | the failures. `InvalidDate` iff the start date does not exist. `MissingDateColumn` iff no ticker is selected or the downloads are empty (the stock frame then has no `Date` index to reset). `MissingFirstRow` iff the downloads have rows but share no date with the index |
| CapmReturns.AnalysisDegenerateFit | CAPM_Returns.py:80-87 | the run stops at the fit exactly when the merged rows exist but the market's daily returns are constant |
| CapmReturns.AnalysisSucceeds | CAPM_Returns.py:39-114 | the run reports results exactly when the start date exists, a ticker is selected, a date is shared and the market returns vary |
| CapmReturns.AnalysisTables | CAPM_Returns.py:58-80 | a successful run's merged table has the tickers then `sp500`, on exactly the shared dates. Its normalised and daily-return tables are those of the merged table |
| CapmReturns.AnalysisCoefficients | CAPM_Returns.py:80-87 | a successful run has a beta and an alpha for exactly the selected tickers. Each is the slope or intercept of that ticker's daily returns fitted against the market's |
| CapmReturns.AnalysisExpectedReturns | CAPM_Returns.py:99-106 | a successful run's rm is the mean market daily return times 252. Its expected returns are, per selected ticker in order, beta times rm |

## Left out

- Streamlit page setup, widgets, layout and the display of tables: user interface only.
- `interactive_plot`: charting only.
- The `yf.download` and `web.DataReader` fetches: network I/O.
  - The downloaded series are inputs of the run.
  - The start date only bounds the index fetch, so the model checks that it exists and nothing more.
  - `today` is an input rather than a clock read.
- Floating point:
  - prices, returns and fits are exact reals;
  - `round(..., 2)` on the displayed betas and expected returns is not modelled;
  - inf and NaN from a zero price, and NaN rows in the index series, are excluded: prices are required to be non-zero.
- Pandas alignment:
  - assigning a download whose dates differ from the frame's index (reindexing with NaN) is not modelled, so the downloads are required to share one set of dates;
  - duplicate dates, which make `pd.merge` emit every pairing, are excluded by requiring distinct dates on both sides.
- `reset_index`, `pd.to_datetime` and the renaming of the index columns are folded into `Table`, which always carries a `Date` column of dates.
- Tickers are taken as the multiselect offers them: distinct, and neither `Date` nor `sp500`.
- The year input is taken as the widget bounds it: an integer from 1 to 10.
- The order in which a Python dict lists its keys is not modelled; betas and alphas are maps.
- CapmFunctions.Polyfit: specified by the closed form of the degree-1 least-squares fit, not by the SVD-based algorithm numpy runs.
- CapmReturns.BetaAlpha: where x is constant (for example a single merged row), numpy yields no usable line: in this run a constant market column is all zeros, because of the row-0 zero, and the fit's coefficients come out NaN or the solver raises. The model reports the `DegenerateFit` failure there instead, because a constant x has no unique least-squares line.
- CapmReturns.AnalysisErrors: a failure of the fetches (network errors) also reaches the error boundary; it is not modelled because the fetches are inputs.

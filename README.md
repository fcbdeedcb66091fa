# Momentum backtest core, modelled in Dafny

This project models the core of a monthly equity-momentum backtest. Each step is modelled from its own script:

- **Benchmark returns.** The first price column is the benchmark. Its levels are cleaned of stray characters, coerced to numbers and turned into monthly returns.
- **Momentum scores.** They come from lagged price ratios (`P[t-1] / P[t-1-L] - 1`). The result is melted to a long table. Missing scores are dropped, and a `(-2, 2)` sanity band is applied where the script applies one.
- **Large-cap universe.** The fundamentals table is searched for its id and market-cap columns, case-insensitively. The universe is the ids whose cap exceeds 10 billion.
- **Top-N portfolios.** At every formation month the cross-section is ranked by score and the best `N` names are taken. Their next-month returns are averaged with equal weights.
- **Performance metrics.** These are CAGR, annualised volatility, Sharpe, Sortino and maximum drawdown. Series are aligned to a common start, and a p-value against the benchmark earns significance stars.
- **Report tables.** Metric matrices are built per horizon × Top-N, with the best Top-N per horizon and the formatted summary table. A dataset summary counts valid and above-10-billion market caps.

Modelling choices:

- **Floats.**
  - A pandas float cell is `Common.Float`: a real, `+inf`, `-inf` or NaN, with NaN standing for a missing value.
  - Returns known to be finite or missing are `Option<real>`.
  - Dates are month numbers; an unparsed date (NaT) is `None`.
- **Exceptions.** A raised exception is `Err(e)` of `Common.Result`, with `e` one of `ValueError`, `KeyError`, `IndexError`, `FileNotFound` and `TypeError`. Each function raises exactly where the script raises, and its contract says which error.
- **Tables.** A table is a value: `Universe.Table` for raw text tables, `Reports.Frame` for labelled frames and `Portfolio.Panel` for the pivoted return panel.
- **Parameters instead of I/O.** File reads, file existence, float parsing (`float()`, `to_numeric`), float rendering and the transcendental functions (power, square root, the t-test) are parameters of the members that use them:
  - `parse: string -> Option<real>`;
  - `isFile`, `read`, `show`, `fmt`;
  - the `Metrics.Numerics` record.

  So every contract holds for every behaviour of these collaborators.
- **Loops.** Each loop of the scripts is a `method` proved equal to a specification function. That function's own properties are proved as lemmas:
  - the formation loop of `build_portfolio_returns`;
  - the row loop of `metrics_table`;
  - the per-column cleaning of `compute_momentum`;
  - the benchmark derivation;
  - the loading and ratio loops of `compute_metrics` and `relative_performance`;
  - the column search of `_find_column`;
  - the formatting loops of `pretty_table`;
  - the horizon loops of `wide_metric` and `bestN_table`.

Modules follow the scripts:

| module | file | models |
|---|---|---|
| `Common` | common.dfy | floats, errors, results, `dropna`, `TOPNS`, `HORIZONS`, "Top N" labels |
| `Text` | text.dfy | `str.replace` of non-numeric characters, `strip`, `lower`, `split`, `int()` |
| `Sorting` | sorting.dfy | stable sort by key, `sorted(unique())` |
| `Columns` | columns.dfy | `_find_column` |
| `Universe` | universe.dfy | the large-cap universe of `build_momentum.py` and `build_features.py` |
| `Series` | series.dfy | date-indexed series, `sort_index`, `dropna`, inner alignment, the three `cum_index` variants |
| `Metrics` | metrics.dfy | `src/momentum/metrics.py` |
| `Features` | features.dfy | `build_momentum_multi.py`, `build_momentum.py`, `build_features.py` |
| `Portfolio` | portfolio.dfy | `build_portfolio.py` |
| `Benchmark` | benchmark.dfy | `build_benchmark.py`, `compute_metrics.py`, `relative_performance.py` |
| `Reports` | reports.dfy | header normalisation and frame lookup shared by the report scripts |
| `PrettyTable` | prettytable.dfy | `pretty_table.py` |
| `SummarizeResults` | summarize.dfy | `summarize_results.py` |
| `DataSummary` | datasummary.dfy | the counting part of `data_summary.py` |

## Model

| member | source | states |
|---|---|---|
| Common.Quotient | scripts/build_benchmark.py:35 | Float division: a finite quotient for a non-zero divisor. Zero over zero is NaN, and a non-zero number over zero is an infinity of the numerator's sign. |
| Common.RelChange | scripts/build_features.py:107 | `a / b - 1`: NaN when either side is missing. The exact ratio minus one for a non-zero base. NaN or a signed infinity for a zero base. |
| Common.Present | src/momentum/metrics.py:16 | `dropna` keeps exactly the defined values and never grows the list |
| Common.PresentAppend | src/momentum/metrics.py:16 | `dropna` distributes over concatenation |
| Common.SampleVarianceNonNegative | src/momentum/metrics.py:24 | the ddof=1 variance of two or more values is never negative |
| Common.NatToString | src/momentum/metrics.py:97 | a size renders as a non-empty string of decimal digits |
| Common.TopLabel | scripts/compute_metrics.py:33 | the label `f"Top {n}"` starts with "Top " followed by at least one character |
| Text.StripNonNumeric | scripts/build_benchmark.py:29 | the cleaner never lengthens a string and leaves only digits, '.', '-', 'e' and 'E' |
| Text.StripIsSubsequence | scripts/build_benchmark.py:29 | the cleaned string is a subsequence of the input: order kept, nothing invented |
| Text.StripCounts | scripts/build_benchmark.py:29 | each kept character survives as often as in the input, and every other character is gone |
| Text.StripKeepsNumeric | scripts/build_benchmark.py:29 | a string of kept characters passes through unchanged |
| Text.StripIdempotent | scripts/build_benchmark.py:29 | cleaning twice is cleaning once |
| Text.ToFloatCell | scripts/build_momentum.py:43-50 | A cell that cleans to empty becomes missing. A cleaned text that `float()` rejects raises. Otherwise the cell becomes the parsed value of the cleaned text. |
| Text.ToFloatSeries | scripts/build_momentum.py:43-50 | `astype(float)` succeeds exactly when every cell does, and then holds each cell's value in order |
| Text.CoerceStripped | scripts/build_momentum_multi.py:41-44 | `to_numeric(errors="coerce")` of the cleaned text: missing for an empty cleaned text, else its parse |
| Text.CoerceRaw | scripts/build_momentum.py:86 | `to_numeric(errors="coerce")` of uncleaned text: missing for the empty string, else its parse |
| Text.TrimLeft | scripts/build_momentum.py:75 | drops exactly the leading whitespace (every character `str.isspace()` accepts, Unicode spaces included) and returns a suffix of the input |
| Text.TrimRight | scripts/build_momentum.py:75 | drops exactly the trailing whitespace (the `str.isspace()` set) and returns a prefix of the input |
| Text.Trim | scripts/build_momentum.py:75 | `strip()` is a slice whose cut-off ends are all whitespace in the `str.isspace()` sense, and the result neither starts nor ends with whitespace |
| Text.TrimNoSpace | scripts/build_momentum.py:75 | a string without surrounding whitespace is its own strip |
| Text.TrimIdempotent | scripts/build_momentum.py:75 | stripping twice is stripping once |
| Text.LowerChar | scripts/data_summary.py:50 | upper-case ASCII letters move to lower case, and every other character is unchanged |
| Text.Lower | scripts/data_summary.py:50 | `lower()` maps every character by `LowerChar` and keeps the length |
| Text.LeadingWord | scripts/summarize_results.py:86 | the first word is the longest whitespace-free prefix |
| Text.LeadingWordWhole | scripts/summarize_results.py:86 | the first word of a space-free string followed by whitespace or nothing is that string |
| Text.WordsOfWord | scripts/summarize_results.py:86 | a non-empty whitespace-free string splits into itself alone |
| Text.ParseInt | scripts/summarize_results.py:86 | `int()` of a digit string is its decimal value, and the empty string is rejected |
| Text.DigitsRoundTrip | scripts/summarize_results.py:86 | reading back the decimal rendering of a count gives the count |
| Text.ParseIntRoundTrip | scripts/summarize_results.py:86 | `int(str(n)) == n` for every size |
| Sorting.Keys | src/momentum/metrics.py:9 | the sort keys of a sequence, position by position |
| Sorting.Insert | src/momentum/metrics.py:9 | insertion lengthens the sequence by exactly one |
| Sorting.InsertPerm | src/momentum/metrics.py:9 | insertion adds exactly one element and loses none |
| Sorting.SortBy | src/momentum/metrics.py:9 | sorting keeps the length |
| Sorting.SortByPerm | src/momentum/metrics.py:9 | sorting is a permutation of its input |
| Sorting.SortBySorted | src/momentum/metrics.py:9 | under a total preorder the result is sorted by the key |
| Sorting.InsertSorted | src/momentum/metrics.py:9 | inserting into a sorted sequence keeps it sorted |
| Sorting.SortByOfSorted | src/momentum/metrics.py:9 | an already sorted input is returned unchanged, so the sort is stable on sorted data |
| Sorting.SortByKeys | src/momentum/metrics.py:9 | the sorted keys depend only on the keys of the input |
| Sorting.SortByDistinct | src/momentum/metrics.py:9 | distinct keys stay distinct after sorting |
| Sorting.InsertDistinct | src/momentum/metrics.py:9 | inserting an element with a new key keeps keys distinct |
| Sorting.InsertKeys | src/momentum/metrics.py:9 | inserting equal keys into equal key sequences gives equal key sequences |
| Sorting.IntLeTotal | scripts/build_portfolio.py:94 | integer order is a total preorder, so dates sort |
| Sorting.DedupSorted | scripts/build_portfolio.py:94 | Dropping adjacent repeats keeps the same members. A sorted input comes out strictly increasing, with its first element kept. |
| Sorting.SortedUnique | scripts/build_portfolio.py:94 | `sorted(unique())` holds exactly the input's values in strictly increasing order |
| Columns.NormToOrig | scripts/data_summary.py:50 | the keys of `norm2orig` are exactly the stripped, lower-cased headers |
| Columns.IndexBy | scripts/data_summary.py:50 | a dictionary built from a comprehension has one key per key of some column |
| Columns.IndexByLastWins | scripts/data_summary.py:50 | a key maps to the LAST column with that key (later entries overwrite earlier ones) |
| Columns.NormToOrigLastWins | scripts/data_summary.py:50 | a normalised header maps to the last original header that normalises to it |
| Columns.FirstMatch | scripts/data_summary.py:51-55 | Returns None exactly when no candidate's key is present. Otherwise it returns the column of the first candidate whose key is present. |
| Columns.FindColumnSpec | scripts/data_summary.py:45-55 | a found column is one of the table's headers |
| Columns.FirstMatchIsColumn | scripts/data_summary.py:45-55 | whatever the key function, a match is a header of the table |
| Columns.FindColumn | scripts/data_summary.py:45-55 | the loop over candidates returns what `FindColumnSpec` defines |
| Columns.FirstMatchIndexByNone | scripts/data_summary.py:51-55 | nothing is found exactly when no candidate's key equals any header's key |
| Columns.FirstMatchIndexBySome | scripts/data_summary.py:51-55 | a match comes from a candidate whose key is present, and no earlier candidate's key equals any header's key |
| Columns.FindColumnFirstCandidate | scripts/data_summary.py:45-55 | `_find_column` returns None exactly when no candidate matches any header case-insensitively. Otherwise it returns the header of the first matching candidate. |
| Universe.IndexOf | scripts/summarize_results.py:85 | the position of the first occurrence of a header, or None exactly when it is absent |
| Universe.Cells | scripts/build_momentum.py:76 | column `j` has one cell per row |
| Universe.Ids | scripts/build_momentum.py:75 | the stripped id column has one id per row |
| Universe.CapText | scripts/build_momentum.py:76 | the market-cap text column has one cell per row |
| Universe.EligibleIds | scripts/build_momentum.py:77 | exactly the ids of rows whose parsed cap exceeds 10 billion |
| Universe.KeepStockColumns | scripts/build_momentum.py:78 | exactly the price columns whose id is eligible, in column order |
| Universe.KeepStockColumnsAppend | scripts/build_momentum.py:78 | the filter distributes over concatenation, so the column order is kept |
| Universe.SelectLargeCaps | scripts/build_features.py:85-97 | A cap that `float()` rejects raises ValueError. Otherwise it succeeds exactly when some price column is eligible, and keeps exactly the eligible columns in order. |
| Universe.FeaturesUniverse | scripts/build_features.py:63-97 | A missing id or cap column raises ValueError. A result is a non-empty list of price columns. |
| Universe.ResolveAndSelect | scripts/build_features.py:63-97 | Column resolution through `_find_column` with the script's candidates. A missing column raises ValueError. A result is non-empty and made of price columns. |
| Universe.MomentumUniverse | scripts/build_momentum.py:65-81 | The fixed headers "NR" and " Company Market Capitalization " are looked up exactly. A missing one raises KeyError, and every other failure is ValueError. A result is non-empty and made of price columns. |
| Series.SortObs | src/momentum/metrics.py:9 | `sort_index()` is a permutation of the entries |
| Series.SortObsSorted | src/momentum/metrics.py:9 | `sort_index()` orders entries by date |
| Series.SortPoints | src/momentum/metrics.py:64 | `sort_index()` of a series without missing values is a permutation |
| Series.SortPointsSorted | src/momentum/metrics.py:64 | and it is ordered by date |
| Series.DropNa | src/momentum/metrics.py:16 | `dropna()` keeps exactly the defined entries |
| Series.CountDefined | src/momentum/metrics.py:16 | the number of defined entries is at most the length |
| Series.DropNaLength | src/momentum/metrics.py:16 | `dropna()` keeps as many entries as are defined |
| Series.Clean | src/momentum/metrics.py:68 | `dropna().sort_index()` holds exactly the defined entries |
| Series.Values | src/momentum/metrics.py:68 | the values of a series, in order |
| Series.Dates | src/momentum/metrics.py:79 | the dates of a series, in order |
| Series.Filled | src/momentum/metrics.py:10 | `fillna(0)` replaces exactly the missing values by 0 |
| Series.Since | src/momentum/metrics.py:50 | `v[v.index >= c]` keeps exactly the entries dated `c` or later |
| Series.MinDate | src/momentum/metrics.py:47 | `index.min()` is a date of the series and no date is earlier |
| Series.ValueAt | src/momentum/metrics.py:79 | the benchmark value at a date is that of its first entry with the date |
| Series.Overlap | src/momentum/metrics.py:79 | the inner join keeps exactly the portfolio entries whose date the benchmark also has |
| Series.InnerAlign | src/momentum/metrics.py:79 | `s.align(bench, join="inner")` pairs each shared date's portfolio value with the benchmark value at that date |
| Series.AnchoredGrowth | src/momentum/metrics.py:10-12 | the anchored index has one value per return and starts at `start` |
| Series.AnchoredGrowthStep | src/momentum/metrics.py:10-12 | each anchored value is the previous one grown by the PREVIOUS return |
| Series.RunningGrowth | scripts/build_portfolio.py:126 | the running index has one value per return |
| Series.RunningGrowthStep | scripts/build_portfolio.py:126 | each running value is the previous one grown by the CURRENT return, the first being `start * (1 + r0)` |
| Series.AnchoredIsShiftedRunning | src/momentum/metrics.py:11 | the anchored index is the running index shifted by one place |
| Series.WithDates | src/momentum/metrics.py:12 | pairs a date index with values position by position |
| Series.ObsDates | src/momentum/metrics.py:12 | the dates of a series with missing values, in order |
| Series.CumIndexAnchored | src/momentum/metrics.py:7-12 | `cum_index` is dated like the sorted returns and starts exactly at `start` |
| Series.CumIndexAnchoredStep | src/momentum/metrics.py:7-12 | entry `k + 1` is entry `k` times `1 +` the `k`-th sorted return, with a missing return counted as 0 |
| Series.CumIndexAnchoredSorted | src/momentum/metrics.py:9 | the anchored index runs forward in time |
| Series.CumIndexUnanchored | scripts/build_portfolio.py:124-126 | the portfolio script's `cum_index` keeps the input's dates and order (it does not sort) |
| Series.CumIndexUnanchoredStep | scripts/build_portfolio.py:124-126 | its entry `k` is entry `k - 1` times `1 +` the `k`-th return (missing counted as 0), the first being `start * (1 + r0)` |
| Series.AnchoredIsShiftedUnanchored | scripts/build_portfolio.py:126 | On date-sorted returns the two scripts' indices differ by exactly one place of shift. The library's entry `k + 1` is the portfolio script's entry `k`. |
| Series.PointsIndex | scripts/relative_performance.py:14-17 | the ratio script's index is dated like its input and starts at `start` |
| Series.PointsIndexStep | scripts/relative_performance.py:14-17 | each entry is the previous one grown by the previous return |
| Series.DroppedIndexLength | scripts/relative_performance.py:15 | dropping missing returns first leaves one index entry per defined return |
| Series.DroppedIndexDates | scripts/relative_performance.py:15 | every entry of that index sits on the date of a defined return |
| Metrics.CagrOf | src/momentum/metrics.py:15-20 | the CAGR of no observations is NaN |
| Metrics.Cagr | src/momentum/metrics.py:15-20 | `cagr` is NaN when nothing is left after `dropna` |
| Metrics.CagrIgnoresMissing | src/momentum/metrics.py:16 | inserting a missing month anywhere does not change the CAGR |
| Metrics.AnnVolOf | src/momentum/metrics.py:24 | the annualised volatility is finite from two observations on, and NaN exactly below two |
| Metrics.AnnVol | src/momentum/metrics.py:22-24 | `ann_vol` is NaN exactly when fewer than two defined returns remain |
| Metrics.Ratio | src/momentum/metrics.py:28 | `ret / vol if vol and vol > 0 else nan`: NaN unless the volatility is a positive number. Then it is the quotient of a finite return, and an infinite or NaN return passes through. |
| Metrics.SharpeOf | src/momentum/metrics.py:26-28 | the Sharpe ratio of fewer than two observations is NaN |
| Metrics.Sharpe | src/momentum/metrics.py:26-28 | `sharpe` is NaN with fewer than two defined returns, or whenever the volatility is not positive |
| Metrics.Negatives | src/momentum/metrics.py:39 | `r[r < 0]` keeps exactly the negative returns |
| Metrics.SortinoOf | src/momentum/metrics.py:36-43 | `sortino` on the non-missing values is NaN when there are none, and `+inf` when there are some and none is negative |
| Metrics.SortinoCases | src/momentum/metrics.py:36-43 | `sortino` is NaN for no data, `+inf` when no return is negative and NaN with a single negative return. It is `+inf` only in those cases or when the CAGR is itself `+inf`. |
| Metrics.MaxReal | src/momentum/metrics.py:32 | `max()` is a member no smaller than any value |
| Metrics.CumMax | src/momentum/metrics.py:32 | `cummax()`: entry `k` is a value among the first `k + 1` and bounds them all |
| Metrics.MinOf | src/momentum/metrics.py:34 | `min()` is a member no larger than any value |
| Metrics.Drawdown | src/momentum/metrics.py:33 | `x / peak - 1` is at most 0 below the peak, 0 at the peak and at least -1 for a non-negative value |
| Metrics.Drawdowns | src/momentum/metrics.py:31-33 | the drawdown series starts at 0, is never positive and is at least -1 where the index is non-negative |
| Metrics.MaxDrawdown | src/momentum/metrics.py:30-34 | `max_drawdown` is NaN for an empty series and otherwise a number that is at most 0 |
| Metrics.GrossProdNonNegative | src/momentum/metrics.py:10 | compounding returns of at least -100% never turns the index negative |
| Metrics.FilledAtLeastMinusOne | src/momentum/metrics.py:10 | `fillna(0)` keeps returns of at least -100% at least -100% |
| Metrics.MaxDrawdownAtLeastMinusOne | src/momentum/metrics.py:30-34 | with no return below -100%, the maximum drawdown is at least -100% |
| Metrics.Starts | src/momentum/metrics.py:47-48 | the list of starts holds exactly the earliest dates of the non-empty series and of a non-empty benchmark |
| Metrics.MaxOf | src/momentum/metrics.py:49 | `max(starts)` is a member no smaller than any start |
| Metrics.TrimAll | src/momentum/metrics.py:50 | every series is trimmed to the common start under its own name |
| Metrics.AlignCommonStart | src/momentum/metrics.py:45-52 | `max([])` raises ValueError exactly when every series and the benchmark are empty. Otherwise every name is kept in order. |
| Metrics.CommonStartIsLatestFirst | src/momentum/metrics.py:47-49 | the common start is the latest of the first dates: no non-empty input starts after it, and one starts exactly on it |
| Metrics.AlignKeepsExactlyFromStart | src/momentum/metrics.py:50-51 | each aligned series and the aligned benchmark keep exactly the entries dated on or after the common start |
| Metrics.Stars | src/momentum/metrics.py:86-95 | three stars exactly below 0.001, two in [0.001, 0.01), one in [0.01, 0.05), none from 0.05 |
| Metrics.StarsMonotone | src/momentum/metrics.py:86-95 | a smaller p-value never earns fewer stars |
| Metrics.PLabelOf | src/momentum/metrics.py:78-95 | "NaN" with fewer than three shared months, never the benchmark's dash, and a p-value's stars are those of `Stars` |
| Metrics.FindNamed | src/momentum/metrics.py:61-64 | the position of the first series with the name, or None exactly when no series has it |
| Metrics.RowOf | src/momentum/metrics.py:67-97 | a row carries its series' name, the dash for the benchmark and the p-label against the cleaned benchmark otherwise |
| Metrics.RowMaker | src/momentum/metrics.py:67-97 | the row maker of one table builds `RowOf` for every series |
| Metrics.MetricsTableSpec | src/momentum/metrics.py:54-111 | ValueError exactly when no series carries the benchmark's name. Otherwise one row per series in order, under the series' names. |
| Metrics.MetricsTable | src/momentum/metrics.py:66-97 | the row loop computes exactly `MetricsTableSpec` |
| Metrics.MetricsTableLabels | src/momentum/metrics.py:75-82 | a row shows the dash exactly for the benchmark, and "NaN" for a portfolio sharing fewer than three months with it |
| Metrics.MetricsTableStatistics | src/momentum/metrics.py:68-74 | each row's four statistics are those of its own `dropna().sort_index()` values, and volatility and Sharpe are NaN below two values |
| Portfolio.Pivot | scripts/build_portfolio.py:46-49 | `pivot` raises ValueError exactly when two rows share a (date, id) pair |
| Portfolio.PivotLabels | scripts/build_portfolio.py:46-49 | the pivot's columns are exactly the ids, and its dates exactly the parsed dates of the rows |
| Portfolio.PivotKeepsRows | scripts/build_portfolio.py:46-49 | every row with a date and a return becomes the cell at its (date, id) |
| Portfolio.PivotCellsFromRows | scripts/build_portfolio.py:46-49 | every cell comes from such a row |
| Portfolio.Universe | scripts/build_portfolio.py:52 | the universe is exactly the ids of the momentum file |
| Portfolio.LoadReturnsColumns | scripts/build_portfolio.py:52-56 | after the reindex, the return columns are exactly the ids in both files |
| Portfolio.LoadReturnsCells | scripts/build_portfolio.py:52-56 | every remaining cell is a return row of an id of the momentum file |
| Portfolio.DatedOnly | scripts/build_portfolio.py:94 | the parsed formation dates, with repeats |
| Portfolio.FormationDatesMembers | scripts/build_portfolio.py:94 | the formation dates are exactly the parsed dates of the momentum file |
| Portfolio.FormationDatesSorted | scripts/build_portfolio.py:94 | they are strictly increasing |
| Portfolio.Cross | scripts/build_portfolio.py:100 | the cross-section never has more rows than the file |
| Portfolio.CrossMembers | scripts/build_portfolio.py:100 | the cross-section holds exactly the rows dated `t` with a defined score, as a sub-multiset of the file |
| Portfolio.ScoreGeTotal | scripts/build_portfolio.py:104 | descending score order is a total preorder (NaN last) |
| Portfolio.RankedOrder | scripts/build_portfolio.py:104 | the ranking is a reordering of the cross-section with scores descending |
| Portfolio.HeadPrefix | scripts/build_portfolio.py:104 | `head(n)` is a prefix of length `min(n, len)` for `n >= 0`, and all but the last `-n` rows for negative `n` |
| Portfolio.SelectionRule | scripts/build_portfolio.py:100-105 | The pick is the top of the ranking. No left-out row scores above a picked one. Every picked row is dated `t` with a score. |
| Portfolio.SelectedDefined | scripts/build_portfolio.py:100 | every picked row is dated `t` and has a score |
| Portfolio.SelectedFromMom | scripts/build_portfolio.py:104 | every picked row is a row of the momentum file |
| Portfolio.Tickers | scripts/build_portfolio.py:105 | the ids of the picked rows, in rank order |
| Portfolio.Realised | scripts/build_portfolio.py:110 | one realised return (or missing) per picked id |
| Portfolio.Average | scripts/build_portfolio.py:111-114 | A period emits exactly when some return is defined. It then emits their mean, which lies between their minimum and maximum. |
| Portfolio.PeriodCases | scripts/build_portfolio.py:97-114 | An empty cross-section or an absent holding date skips the period. A picked id without a return column raises KeyError. Otherwise the period emits the equal-weight mean of the defined returns when there is one, and is skipped when there is none. |
| Portfolio.SumWithin | scripts/build_portfolio.py:114 | a sum of values in `[lo, hi]` lies between `n * lo` and `n * hi` |
| Portfolio.QuotientWithin | scripts/build_portfolio.py:114 | dividing such a sum by `n` lands in `[lo, hi]` |
| Portfolio.MeanWithin | scripts/build_portfolio.py:114 | an equal-weight mean lies between the smallest and largest return |
| Portfolio.MeanBounds | scripts/build_portfolio.py:114 | a mean of values in `[lo, hi]` lies in `[lo, hi]` |
| Portfolio.Periods | scripts/build_portfolio.py:96 | one period per formation date |
| Portfolio.PeriodFnAt | scripts/build_portfolio.py:97-98 | the period function of fixed inputs is `PeriodAt` |
| Portfolio.PeriodsWith | scripts/build_portfolio.py:96 | one period per date up to `k` |
| Portfolio.PeriodsWithAt | scripts/build_portfolio.py:97-98 | period `j` is formed at date `j - 1` and held at date `j` |
| Portfolio.PeriodsAt | scripts/build_portfolio.py:97-98 | period `j` of the list is formed at `ds[j - 1]` and held at `ds[j]` |
| Portfolio.PeriodsMatch | scripts/build_portfolio.py:96-98 | every period of the list is the one formed at the previous date |
| Portfolio.CollectNext | scripts/build_portfolio.py:114 | a period that does not fail appends its point, if it has one |
| Portfolio.CollectErrorSticks | scripts/build_portfolio.py:110 | once a period has raised, the loop's result is that error |
| Portfolio.CollectSources | scripts/build_portfolio.py:114 | every collected point is the mean of an emitting period on its holding date, and no more points than periods |
| Portfolio.CollectComplete | scripts/build_portfolio.py:114 | every emitting period has its point |
| Portfolio.CollectOrdered | scripts/build_portfolio.py:114 | over increasing dates the points come out at strictly increasing dates |
| Portfolio.CollectError | scripts/build_portfolio.py:110 | the loop raises exactly when some period raises, and then with that period's error |
| Portfolio.BuildPortfolioReturns | scripts/build_portfolio.py:83-121 | the method computes exactly `PortfolioReturns`: the sorted formation dates, then the loop |
| Portfolio.HoldPeriods | scripts/build_portfolio.py:96-114 | the formation loop computes exactly `Holdings` |
| Portfolio.HoldOnce | scripts/build_portfolio.py:97-114 | one iteration computes period `t + 1` |
| Portfolio.PeriodError | scripts/build_portfolio.py:110 | a period can only raise KeyError, and cannot raise when every momentum id has a return column |
| Portfolio.HoldingsError | scripts/build_portfolio.py:110 | the loop can only raise KeyError, and never does when every momentum id has a return column |
| Portfolio.HoldingsOrdered | scripts/build_portfolio.py:114 | over increasing dates the holding dates strictly increase |
| Portfolio.HoldingsSources | scripts/build_portfolio.py:114-121 | every returned point is the mean of the period held on its date, and there are fewer points than formation dates |
| Portfolio.HoldingsComplete | scripts/build_portfolio.py:114-121 | no emitted return is lost |
| Portfolio.PortfolioReturnsError | scripts/build_portfolio.py:83-121 | `build_portfolio_returns` raises only KeyError, and never when every momentum id has a return column |
| Portfolio.PortfolioReturnsOrdered | scripts/build_portfolio.py:83-121 | its holding dates strictly increase |
| Portfolio.PresentSingle | scripts/build_portfolio.py:111 | `dropna` of one value is that value, or nothing |
| Portfolio.MeanSingle | scripts/build_portfolio.py:114 | the mean of one value is the value |
| Portfolio.TopOneRealisesLeader | scripts/build_portfolio.py:104-114 | a Top-1 portfolio earns exactly the realised return of the highest-ranked id |
| Portfolio.AnnualizedMetrics | scripts/build_portfolio.py:129-140 | The three statistics are those of the metrics library. All are NaN for no data, and volatility and Sharpe are NaN for one observation. |
| Features.DateLeTotal | scripts/build_momentum_multi.py:33 | date order with NaT last is a total preorder |
| Features.ByDate | scripts/build_momentum_multi.py:33 | `sort_values("date")` keeps the rows and their widths |
| Features.ByDateSorted | scripts/build_momentum_multi.py:33 | and orders them by date, NaT last |
| Features.CleanColumn | scripts/build_momentum_multi.py:40-44 | one coerced price per row |
| Features.RawColumn | scripts/build_momentum.py:86 | one coerced price per row, without cleaning |
| Features.Shift | scripts/build_momentum_multi.py:48 | `shift(k)` keeps the length |
| Features.ShiftAt | scripts/build_momentum_multi.py:48 | `shift(k)` is missing in the first `k` places and the value `k` places up elsewhere |
| Features.Lagged | scripts/build_momentum_multi.py:48 | the lagged ratio keeps the length |
| Features.LaggedAt | scripts/build_momentum_multi.py:48 | The lagged ratio is NaN in the first `far` rows. After them it is the relative change from the price `far` rows back to the price `near` rows back. |
| Features.LaggedWide | scripts/build_momentum_multi.py:48 | the lagged ratio of every column keeps the table's shape |
| Features.MeltColumn | scripts/build_momentum_multi.py:50 | one column melts into one (date, id, value) row per date, in order |
| Features.MeltMembers | scripts/build_momentum_multi.py:50 | `melt` holds exactly one row per (date, column) cell |
| Features.Filter | scripts/build_momentum_multi.py:51 | a row mask never adds rows |
| Features.FilterMembers | scripts/build_momentum_multi.py:51 | the mask keeps exactly the rows whose value it accepts |
| Features.FilterDistinct | scripts/build_momentum_multi.py:51 | masking keeps (date, id) pairs distinct |
| Features.ConsDistinct | scripts/build_momentum_multi.py:50 | a row with a new pair keeps the pairs distinct |
| Features.MeltDistinct | scripts/build_momentum_multi.py:50 | with distinct dates and headers, the melt has one row per (date, id) |
| Features.MeltTickers | scripts/build_momentum_multi.py:50 | every melted row carries a column name |
| Features.LaggedLongMembers | scripts/build_momentum_multi.py:48-51 | a masked long row is exactly an accepted lagged ratio of some column at some row from `far` on |
| Features.LaggedLongDefined | scripts/build_momentum_multi.py:51 | `dropna` keeps such a row exactly when its ratio is not NaN |
| Features.StockPrices | scripts/build_momentum_multi.py:36-44 | one cleaned price column per header after the benchmark |
| Features.MomentumSpec | scripts/build_momentum_multi.py:17-54 | `compute_momentum` raises IndexError exactly when the table has no price column after the date |
| Features.ComputeMomentum | scripts/build_momentum_multi.py:17-54 | the per-column cleaning loop followed by the ratio computes exactly `MomentumSpec` |
| Features.MomentumRowsSound | scripts/build_momentum_multi.py:48-51 | every output row is a defined score `P[t-1] / P[t-1-L] - 1` of some stock at some row from `L + 1` on |
| Features.MomentumRowsComplete | scripts/build_momentum_multi.py:48-51 | every such score is in the output exactly when it is not NaN |
| Features.MomentumTickers | scripts/build_momentum_multi.py:36 | every row carries a stock column, never the benchmark when headers are distinct |
| Features.MomentumOnePerPair | scripts/build_momentum_multi.py:50 | with distinct dates and headers, at most one score per (date, id) |
| Features.MomentumKeepsInfinity | scripts/build_momentum_multi.py:48-51 | a positive price over a zero price gives `+inf`, which `dropna` keeps |
| Features.StockIndex | scripts/build_momentum.py:78 | a kept stock column's position among the headers |
| Features.KeptPrices | scripts/build_momentum.py:86 | one uncleaned, coerced price column per kept stock |
| Features.BandedLong | scripts/build_momentum.py:99-102 | every row of the banded long table is inside `(-2, 2)` and carries a kept stock |
| Features.BandedRowsSound | scripts/build_momentum.py:99-102 | every such row is a lagged ratio of a kept stock at a row from `far` on |
| Features.BandedRowsComplete | scripts/build_momentum.py:99-102 | every lagged ratio of a kept stock is in the table exactly when it is inside the band |
| Features.Momentum6m | scripts/build_momentum.py:53-102 | IndexError without price columns, otherwise the universe's errors. Every output row is inside the band and carries a stock column. |
| Features.Momentum6mRows | scripts/build_momentum.py:92 | the score at row `i >= 7` is `P[i-1] / P[i-7] - 1`, and the first seven rows have none |
| Features.FeatureReturns | scripts/build_features.py:51-116 | IndexError without price columns, otherwise the universe's errors. Every output row is inside the band and carries a stock column. |
| Features.ReturnsWideAt | scripts/build_features.py:107 | The first row's return is NaN. A later return is the relative change from the previous price, and NaN when either price is missing. |
| Features.FeatureReturnsSkipBenchmark | scripts/build_features.py:59-60 | the benchmark column never yields a return row when headers are distinct |
| Benchmark.LevelOf | scripts/build_benchmark.py:27-32 | a cell that cleans to nothing has no level |
| Benchmark.ValidLevels | scripts/build_benchmark.py:34 | `dropna(subset=[bench_col])` keeps exactly the rows whose level parsed |
| Benchmark.Change | scripts/build_benchmark.py:35 | `pct_change` is the ratio minus one for a non-zero base, and NaN exactly for zero over zero |
| Benchmark.Returns | scripts/build_benchmark.py:35-36 | Dropping NaN returns leaves at most one return per consecutive pair, and none of them is NaN. |
| Benchmark.ReturnsAt | scripts/build_benchmark.py:35-36 | with no zero-over-zero step, return `j` is the change from level `j` to level `j + 1`, on the later date |
| Benchmark.ReturnsSources | scripts/build_benchmark.py:35-36 | every return is the change between two consecutive valid levels |
| Benchmark.ReturnsFinite | scripts/build_benchmark.py:35 | with no zero level every return is finite |
| Benchmark.BenchmarkReturns | scripts/build_benchmark.py:22-37 | IndexError exactly when there is no column after the date. Otherwise there are fewer returns than rows, or no rows at all. |
| Benchmark.BuildBenchmark | scripts/build_benchmark.py:22-37 | the imperative derivation computes exactly `BenchmarkReturns` |
| Benchmark.CleanLevels | scripts/build_benchmark.py:27-32 | the cleaned column holds each row's parsed level |
| Benchmark.DropMissing | scripts/build_benchmark.py:34 | the loop keeps exactly `ValidLevels` |
| Benchmark.PctChange | scripts/build_benchmark.py:35-36 | the loop computes exactly `Returns` |
| Benchmark.BenchmarkReturnsSources | scripts/build_benchmark.py:34-36 | every benchmark return is the change between two valid levels of the date-sorted file |
| Benchmark.RetValues | scripts/build_benchmark.py:45 | the values of a finite return series |
| Benchmark.FrozenRow | scripts/build_benchmark.py:44-54 | The frozen row is named "Benchmark" and shows the dash. Its four statistics are `cagr`, `ann_vol`, `sharpe` and `sortino` of src/momentum/metrics.py on the saved returns. All are NaN for no returns. Volatility and Sharpe are NaN below two returns, and the volatility is a number from two on. Sortino is +inf when no return is negative. |
| Benchmark.FileSeries | scripts/compute_metrics.py:30-32 | one coerced return per file row |
| Benchmark.Loaded | scripts/compute_metrics.py:26-34 | portfolio `n` is named "Top n" and keeps every row |
| Benchmark.PortfoliosUpTo | scripts/compute_metrics.py:26-34 | the first `i` entries of `named`, each named by its size |
| Benchmark.LoadPortfolios | scripts/compute_metrics.py:23-35 | the loading loop computes exactly `Portfolios` |
| Benchmark.PortfoliosUpToAt | scripts/compute_metrics.py:26-34 | entry `k` is the loaded file of size `TOPNS[k]` |
| Benchmark.PortfolioSeries | scripts/compute_metrics.py:30-34 | each loaded series is a date-sorted permutation of its file's coerced returns, under "Top n" |
| Benchmark.BenchObs | scripts/compute_metrics.py:40-58 | the benchmark series holds exactly the dated returns, each with its value |
| Benchmark.Assemble | scripts/compute_metrics.py:71-74 | the table of the aligned portfolios plus the benchmark has one more row than there are portfolios |
| Benchmark.AssembleRows | scripts/compute_metrics.py:71-74 | the portfolios come first under their "Top n" names with p-labels, and the benchmark comes last with the dash |
| Benchmark.ComputeMetrics | scripts/compute_metrics.py:61-74 | IndexError without a benchmark column. It fails exactly when the benchmark and every portfolio are empty; a benchmark whose dates are all NaT beside empty portfolios gives a table, as `max([NaT])` is NaT. Otherwise it gives one row per size plus the benchmark. |
| Benchmark.ComputeMetricsRows | scripts/compute_metrics.py:71-74 | the rows are the five "Top n" portfolios with p-labels followed by the benchmark with the dash |
| Benchmark.DatedRows | scripts/relative_performance.py:33 | keeps exactly the rows whose date parsed |
| Benchmark.RelativeBench | scripts/relative_performance.py:25-36 | `load_bench` raises IndexError exactly when there is no column after the date |
| Benchmark.RelativeBenchDated | scripts/relative_performance.py:33-34 | every return of `load_bench` carries a parsed date |
| Benchmark.DatedRowsAll | scripts/relative_performance.py:33 | when every date parsed, nothing is dropped |
| Benchmark.RelativeBenchAgrees | scripts/relative_performance.py:25-36 | when every date parses, `load_bench` gives the same returns as the other scripts' derivation |
| Benchmark.LoadPort | scripts/relative_performance.py:19-23 | `load_port` keeps exactly the defined returns of the file |
| Benchmark.BenchSide | scripts/relative_performance.py:45 | the benchmark side of the inner alignment has the benchmark value at each shared date |
| Benchmark.Shared | scripts/relative_performance.py:45 | the shared months are portfolio entries whose date the benchmark has |
| Benchmark.Relative | scripts/relative_performance.py:44-48 | There is one ratio per shared month. The first ratio is exactly 1. Every ratio is dated on a month both series have. |
| Benchmark.RelDates | scripts/relative_performance.py:46-47 | both cumulative indices carry the same sorted dates |
| Benchmark.RelativeSorted | scripts/relative_performance.py:46-48 | the ratio series is in date order |
| Benchmark.BenchPoints | scripts/relative_performance.py:34 | the dated returns as points, never more than the returns; with every date parsed, exactly the returns in order |
| Benchmark.BenchPointsMembers | src/momentum/metrics.py:47-52 | a point survives exactly when some return carries its parsed date and its value: NaT-dated returns are the ones `index.min()` skips and `index >= common_start` drops |
| Benchmark.RelativesUpTo | scripts/relative_performance.py:43-48 | one ratio series per size considered so far |
| Benchmark.RelativesUpToAt | scripts/relative_performance.py:43-48 | entry `k` is the ratio series of size `TOPNS[k]` |
| Benchmark.RelativeAll | scripts/relative_performance.py:38-48 | IndexError exactly without a benchmark column. Otherwise it gives the ratio series of every size against the benchmark. |
| Reports.RowLabels | scripts/summarize_results.py:73 | `label in df.index` for text labels |
| Reports.ColumnSet | scripts/summarize_results.py:65 | `set(df.columns)` |
| Reports.AtFirst | scripts/summarize_results.py:77 | `df.loc[row, col]` is the cell of the first row and first column with those labels |
| Reports.Rename | scripts/summarize_results.py:41 | `rename(columns=...)` maps a known header to its target and passes every other header through |
| Reports.RenameTargets | scripts/summarize_results.py:25-40 | every target is one of the five normalised names |
| Reports.NotRenamed | scripts/summarize_results.py:25-40 | no header of 5 or 10 characters, and not "Ann.Vol", is a key of the rename map |
| Reports.ReturnFixed | scripts/summarize_results.py:25-40 | "Ann.Return" survives strip and rename unchanged |
| Reports.VolFixed | scripts/summarize_results.py:25-40 | "Ann.Vol" survives strip and rename unchanged |
| Reports.SharpeFixed | scripts/summarize_results.py:37 | "Sharpe" survives strip and rename unchanged |
| Reports.SortinoFixed | scripts/summarize_results.py:38 | "Sortino" survives strip and rename unchanged |
| Reports.PHacFixed | scripts/summarize_results.py:39 | "p_HAC" survives strip and rename unchanged |
| Reports.NormalizeHeaderIdempotent | scripts/summarize_results.py:23-41 | normalising a header twice is normalising once |
| Reports.Without | scripts/summarize_results.py:21 | `set_index` removes the index column from each row, shifting the later cells left |
| Reports.Headers | scripts/summarize_results.py:23 | every header is stripped and renamed |
| Reports.NormalizeCols | scripts/summarize_results.py:15-41 | Without a "Portfolio" column, rows are indexed by position and the cells are kept. With one, the first such column's rendered text becomes the index and that column leaves the headers and every row. The identical `_normalize_cols` of scripts/pretty_table.py:15-35 is covered by the same member. |
| Reports.PresentIn | scripts/summarize_results.py:73 | the filter keeps exactly the wanted names that are present, in wanted order |
| Reports.PresentInAppend | scripts/summarize_results.py:73 | the filter distributes over concatenation |
| Reports.PresentInDistinct | scripts/summarize_results.py:73 | a list without repeats keeps none |
| Reports.TopLabels | scripts/summarize_results.py:72 | one label per size of TOPNS |
| Reports.ParseTopLabel | scripts/summarize_results.py:86 | `int(x.split()[1])`: IndexError with fewer than two words, else `int()` of the second word |
| Reports.ParseTopLabelRoundTrip | scripts/summarize_results.py:86 | reading back `f"Top {n}"` gives `n` |
| Reports.TopLabelInjective | scripts/summarize_results.py:72 | distinct sizes give distinct labels |
| Reports.TopLabelsDistinct | scripts/summarize_results.py:72 | the labels of TOPNS are pairwise distinct |
| PrettyTable.SigStars | scripts/pretty_table.py:37-43 | Three stars below 0.01, two in [0.01, 0.05), one in [0.05, 0.10) and none from 0.10. NaN and `+inf` get none, and `-inf` gets three. |
| PrettyTable.SigStarsMonotone | scripts/pretty_table.py:37-43 | a smaller p-value never earns fewer stars |
| PrettyTable.SigStarsAtLeastMetrics | scripts/pretty_table.py:37-43 | the table's thresholds are looser than the library's: never fewer stars, and strictly more in [0.001, 0.10) |
| PrettyTable.StarText | scripts/pretty_table.py:40-42 | `k` stars |
| PrettyTable.SummaryCandidates | scripts/pretty_table.py:47-57 | Two candidate files, performance before metrics. For 6 months the generic names are added, making four. |
| PrettyTable.FindSummaryPath | scripts/pretty_table.py:45-66 | It returns the first candidate that exists. It raises FileNotFoundError exactly when none exists. |
| PrettyTable.KeepRows | scripts/pretty_table.py:75-77 | The kept rows are exactly the present "Top n" labels and "Benchmark". The benchmark comes last exactly when present, and there are no repeats. |
| PrettyTable.KeptColumns | scripts/pretty_table.py:79-95 | The kept columns are the present metric columns, then "p_HAC" if present. The shown columns swap "p_HAC" for its heading. |
| PrettyTable.NumericValue | scripts/pretty_table.py:86 | `to_numeric(errors="coerce")` keeps numbers and is NaN exactly for unparsable text |
| PrettyTable.PText | scripts/pretty_table.py:88-93 | A number is formatted with its stars. A missing value becomes the empty string. Unparsable text is shown as it is. |
| PrettyTable.FormatColumn | scripts/pretty_table.py:104-106 | Formatting raises ValueError exactly when some cell holds text. Otherwise each number is formatted and each NaN becomes the empty string. |
| PrettyTable.Column | scripts/pretty_table.py:81 | `df.loc[rows, c]` holds each kept row's cell |
| PrettyTable.FormatPValues | scripts/pretty_table.py:84-95 | the p-value loop formats every cell by `PText` |
| PrettyTable.FormatAll | scripts/pretty_table.py:98-106 | the numeric formats can only raise ValueError |
| PrettyTable.FormatAllSpec | scripts/pretty_table.py:98-106 | The numeric formats fail exactly when a present column holds text. Otherwise they format the present columns in order. |
| PrettyTable.ThenAssoc | scripts/pretty_table.py:104 | appending formatted columns is associative, with the empty pair as unit |
| PrettyTable.FormatMetrics | scripts/pretty_table.py:104-106 | the formatting loop computes exactly `FormatAll` |
| PrettyTable.FormatForPlot | scripts/pretty_table.py:73-109 | `_format_for_plot` raises ValueError exactly when a kept metric column holds text. Otherwise it keeps the rows and columns above, with every metric and p-value cell formatted as described. |
| DataSummary.IdSet | scripts/data_summary.py:122 | `nunique` counts exactly the distinct ids |
| DataSummary.ValidIds | scripts/data_summary.py:121-123 | the valid ids are exactly those of rows with a positive parsed cap |
| DataSummary.LargeIds | scripts/data_summary.py:135-136 | the large ids are exactly those of valid rows with a cap above 10 billion |
| DataSummary.SubsetCard | scripts/data_summary.py:136 | a subset has no more elements |
| DataSummary.CountsOrdered | scripts/data_summary.py:122-136 | large ⊆ valid ⊆ all ids, so the counts are ordered |
| DataSummary.LargeIdsAreEligible | scripts/data_summary.py:135 | the report's large-cap ids are the universe's eligible ids |
| DataSummary.Pct | scripts/data_summary.py:137 | the share is 0 for no stocks, and otherwise `over / total * 100` |
| DataSummary.PctBounds | scripts/data_summary.py:137 | the share of a part is between 0 and 100 |
| DataSummary.Tally | scripts/data_summary.py:119-137 | The three counts are ordered, and there are no stocks exactly when there are no rows. The share lies in [0, 100] and equals `over / total * 100`. |
| DataSummary.Counts | scripts/data_summary.py:111-137 | It raises ValueError exactly when a cap fails `float()`. Otherwise it tallies the parsed caps. |
| DataSummary.Summarize | scripts/data_summary.py:83-137 | A missing id or cap column raises ValueError, and no other error is raised. The counts are ordered, zero exactly without rows, and the share is in [0, 100]. |
| DataSummary.PickLabelCol | scripts/data_summary.py:68-78 | The name column wins when present on a non-empty table, then the symbol column. The id column is used otherwise. |
| DataSummary.Labels | scripts/data_summary.py:68-78 | one label per row |
| DataSummary.StrippedCells | scripts/data_summary.py:71 | one stripped cell per row |
| DataSummary.LabelsOfIds | scripts/data_summary.py:78 | falling back to the id column gives the ids |
| SummarizeResults.Pick | scripts/summarize_results.py:77 | `df.loc[present, needed]` has the three metric columns and one row per present label |
| SummarizeResults.LoadPerf | scripts/summarize_results.py:44-77 | FileNotFoundError exactly when neither file exists. ValueError is the only other error. A result has the three metric columns and at least one row. |
| SummarizeResults.TopLabelsAt | scripts/summarize_results.py:72 | label `i` is `f"Top {TOPNS[i]}"` |
| SummarizeResults.LoadPerfErrors | scripts/summarize_results.py:50-75 | The performance file is preferred to the metrics file. ValueError is raised exactly when a metric column is missing or no "Top n" row exists. |
| SummarizeResults.AnyTopRowPresent | scripts/summarize_results.py:73-74 | `present` is empty exactly when no "Top n" label of TOPNS labels a row |
| SummarizeResults.LoadPerfFrame | scripts/summarize_results.py:72-77 | The result has one row per present label in TOPNS order. Each row holds the file's three metric cells. |
| SummarizeResults.LoadPerfLoaded | scripts/summarize_results.py:72-77 | the result has the three columns and distinct "Top n" labels |
| SummarizeResults.GatherOk | scripts/summarize_results.py:83-87 | A loop that appends one result per horizon succeeds exactly when every step does. It then holds the steps' results in order. |
| SummarizeResults.GatherAll | scripts/summarize_results.py:83-87 | steps that all succeed with known values gather exactly those values |
| SummarizeResults.GatherFirstError | scripts/summarize_results.py:83-87 | the first failing step decides the exception |
| SummarizeResults.GatherErrorSticks | scripts/summarize_results.py:83-87 | once a step has failed, later steps do not run |
| SummarizeResults.LabelledCells | scripts/summarize_results.py:85 | each cell of the metric column with its row label |
| SummarizeResults.TopLabelsParse | scripts/summarize_results.py:86 | every "Top n" label of TOPNS reads back as its size |
| SummarizeResults.MetricSeriesLoaded | scripts/summarize_results.py:85-86 | `df[metric]` raises KeyError exactly for a metric other than the three. Otherwise it pairs every row's size with its cell. |
| SummarizeResults.HorizonLabels | scripts/summarize_results.py:89 | one column name per horizon |
| SummarizeResults.LoadSeries | scripts/summarize_results.py:84-87 | one iteration of `wide_metric`'s loop: load, then select and relabel |
| SummarizeResults.WideMetric | scripts/summarize_results.py:80-90 | the loop and the join compute exactly `WideSpec` |
| SummarizeResults.CellOfFirst | scripts/summarize_results.py:88 | the join takes the first pair of the size |
| SummarizeResults.CellOfMissing | scripts/summarize_results.py:88 | a size absent from a series joins as NaN |
| SummarizeResults.SeriesCell | scripts/summarize_results.py:85-88 | A size is in a frame's series exactly when its "Top n" label is a row. The joined cell is then that row's metric, and NaN otherwise. |
| SummarizeResults.SeriesPositions | scripts/summarize_results.py:85-86 | the series has one pair per row, of that row's size and metric cell |
| SummarizeResults.SeriesForOk | scripts/summarize_results.py:84-85 | A horizon's step succeeds exactly when the file loads and the metric is known. A load error passes through, and an unknown metric raises KeyError. |
| SummarizeResults.HorizonFrame | scripts/summarize_results.py:84 | a loaded horizon's frame has the three columns and distinct "Top n" labels |
| SummarizeResults.ReindexCells | scripts/summarize_results.py:88 | `.loc[sizes]` raises KeyError exactly when some size is in no series. Otherwise each cell is the join of the size and the horizon. |
| SummarizeResults.SeriesCols | scripts/summarize_results.py:88 | one series per loaded frame |
| SummarizeResults.AbsentMissing | scripts/summarize_results.py:88 | a size is in no series exactly when it labels no row of any frame |
| SummarizeResults.ReindexLoaded | scripts/summarize_results.py:88-89 | The join of loaded frames raises KeyError exactly when some size labels no row in any frame. Otherwise it holds each frame's metric cell of row "Top n", NaN where a frame lacks the row. |
| SummarizeResults.HorizonFrames | scripts/summarize_results.py:83-84 | the four loaded frames, one per horizon |
| SummarizeResults.WideFrames | scripts/summarize_results.py:83-88 | when every file loads and the metric is known, `wide_metric` is the join of the four frames' series |
| SummarizeResults.SeriesOfFrame | scripts/summarize_results.py:84-86 | a loaded horizon's step yields its frame's series |
| SummarizeResults.WideCells | scripts/summarize_results.py:80-90 | A result means every file loaded and the metric is one of the three. Its rows are TOPNS and its columns the horizon labels. Each cell is that horizon's metric for "Top n", NaN where the file lacks the row. |
| SummarizeResults.WideOkLoads | scripts/summarize_results.py:84-85 | a result means every file loaded and the metric is known |
| SummarizeResults.WideLoadError | scripts/summarize_results.py:84 | the first file that fails to load decides the exception |
| SummarizeResults.WideMissingMetric | scripts/summarize_results.py:85 | an unknown metric raises KeyError once the first file loads |
| SummarizeResults.WideJoinError | scripts/summarize_results.py:88 | with every file loaded and a known metric, `.loc[TOPNS]` raises KeyError exactly when some size labels a row in no file |
| SummarizeResults.FirstMax | scripts/summarize_results.py:114 | a found position holds a number |
| SummarizeResults.FloatLeOrder | scripts/summarize_results.py:114 | the order of non-NaN floats is total and transitive |
| SummarizeResults.FirstMaxSpec | scripts/summarize_results.py:114 | `idxmax` finds nothing exactly when every value is NaN. Otherwise it finds exactly the first position of the largest value. |
| SummarizeResults.FirstMaxUnique | scripts/summarize_results.py:114 | at most one position holds the first largest value |
| SummarizeResults.ColumnOf | scripts/summarize_results.py:113 | `df[metric]` top to bottom |
| SummarizeResults.Floats | scripts/summarize_results.py:113 | the floats of a numeric column |
| SummarizeResults.IdxMax | scripts/summarize_results.py:114 | `idxmax` raises TypeError on a text column and ValueError on an all-NaN one. Otherwise it returns the first position of the largest value. |
| SummarizeResults.BestOfErrors | scripts/summarize_results.py:113-115 | One horizon raises KeyError for an unknown metric, TypeError for text and ValueError for all-NaN, and nothing else. |
| SummarizeResults.BestOfFound | scripts/summarize_results.py:113-116 | the best size is that of the row holding the first largest value, and the reported value is that largest value |
| SummarizeResults.LoadBest | scripts/summarize_results.py:112-116 | one iteration of `bestN_table`'s loop: load, pick, build the row |
| SummarizeResults.BestNTable | scripts/summarize_results.py:108-119 | the loop computes exactly `BestNSpec` |
| SummarizeResults.BestNRows | scripts/summarize_results.py:110-117 | A table means every file loaded, with one row per horizon in order. Each row holds the horizon's label and the best size and value of its frame. |
| SummarizeResults.BestForOk | scripts/summarize_results.py:112-116 | a horizon's row comes from its loaded frame |
| SummarizeResults.BestNFirstError | scripts/summarize_results.py:111-116 | the first horizon whose row fails decides the exception |

## Left out

- **Reading and writing files.** `read_csv`, `to_csv`, `Path.exists`, the `load_monthly_data` and `load_basic_data` loaders, and `print` are not modelled. File contents and file existence are parameters (`read`, `isFile`). The CSV writes of every script, including the best-N table's `to_csv`, are not modelled.
- **Plots and the PDF.** Plotting (matplotlib), the PNG tables and the PDF report are not modelled. This covers `lineplot_by_horizon`, `_render_table_png`, the plots of `relative_performance` and `build_portfolio`, and the chart and PDF of `data_summary`.
- **Command line and `main`.** Argument parsing and the `main` drivers are modelled only through the functions they call. `build_portfolio.py`'s `main` summary table and its `reindex(method="nearest")` plot alignment are not modelled.
- **`data_summary.py` statistics.** Only the counts and the share above 10 billion are modelled. Total, mean and median market cap, the largest and smallest company and their shares, the date coverage, the country count and the top-5 sectors are not, because they are report text over float sums.
- **Float arithmetic.** Real arithmetic stands in for float arithmetic, so rounding is not modelled.
  - Power, square root and the t-test p-value are fields of the `Metrics.Numerics` parameter.
  - `float()` and `to_numeric` parsing is the `parse` parameter, which yields a finite real or nothing. The text that pandas reads as an infinity is listed below, member by member.
  - The `{:.4f}` rendering and `astype(str)` of floats are the `fmt` and `show` parameters.
- **Ties and duplicates.**
  - Sorting is a stable insertion sort. pandas' default quicksort may order equal scores differently; the model fixes the original row order for ties.
  - Frame lookups take the first row or column with a label; pandas returns all of them for duplicate labels.
- **Missing dates.** `to_datetime(errors="coerce")` dates are given as parsed; the model receives month numbers or NaT (`None`). `Portfolio.Pivot` drops rows with NaT dates, where pandas would keep a NaT row in the index.
- **Return values.** Returns after `to_numeric(errors="coerce")` are real or missing; an infinite return in a portfolio file is not modelled.
- Text.CoerceRaw: `to_numeric(errors="coerce")` reads "inf", "-inf", "Infinity" and an overflowing exponent such as "1e999" as a signed infinity, and `parse` cannot express that: the model reads such text as missing or as a finite real. This affects the uncleaned stock prices of build_momentum.py and build_features.py, where an "inf" price before a finite one gives a return or momentum of -1, which passes their (-2, 2) band, and the portfolio-file returns of compute_metrics.py.
- Text.CoerceStripped: the cleaning removes the letters of "inf", but an overflowing exponent such as "1e999" survives it and becomes inf in pandas, which the model cannot express. This affects market caps and benchmark levels.
- Text.ToFloatCell: `astype(float)` of an overflowing exponent gives inf instead of raising, which the model cannot express.
- Text.ToFloatSeries: built on `Text.ToFloatCell`, so the same gap applies.
- PrettyTable.NumericValue: p-value text "inf" or "-inf" becomes a signed infinity in pandas (so "-inf" would earn three stars); the model gives such text a finite value or NaN.
- Benchmark.ComputeMetrics: requires the benchmark returns to be finite. A zero level in the benchmark column would give an infinite return, which the real-valued metrics do not take. Benchmark returns with a NaT date are allowed and are dropped at the alignment, as in the script.
- Benchmark.FrozenRow: requires finite benchmark returns, for the same reason.
- Benchmark.RelativeAll: requires finite benchmark returns, for the same reason.
- Benchmark.FileSeries: a portfolio file's dates are month numbers, so a date that `to_datetime(errors="coerce")` turns into NaT cannot be expressed. These files are written by the backtest with a date on every line.
- Text.LowerChar: folds only the ASCII letters A-Z. Python's `str.lower()` also folds the other Unicode upper-case letters (and a few to several characters), which the model does not tabulate.
- Text.Lower: maps by `Text.LowerChar`, so the same ASCII-only folding applies.
- Text.StripNonNumeric: keeps the ASCII digits 0-9. Python's `\d` on text also matches every other Unicode decimal digit (Arabic-Indic, Devanagari, fullwidth and others), which the model removes.
- **SummarizeResults.IdxMax**: an all-NaN metric column raises ValueError, as recent pandas does. Older pandas returns NaN and then fails on `NaN.split()`. A column holding text raises TypeError.
- **Metrics.SortinoCases**: states the cases of `sortino` without a closed form for the downside ratio, which depends on the square root in `Numerics`.
- **Metrics.CagrOf**: states only the empty case. The value `prod ** (12 / n) - 1` is the `pow` field of `Numerics`.
- **Metrics.PLabelOf**: the p-value comes from the t-test in `Numerics`. When there are at least three shared months, the model states only that the label's stars match its p-value.
- **Significance test.** The report column is headed "p-HAC", but the code runs a paired t-test (`ttest_rel`) with a guard of three shared months, and the model follows the code. No HAC estimator is modelled.
- **`cum_index` conventions.** The library's `cum_index` anchors entry `k` at the product of the returns BEFORE `k`. `build_portfolio.py`'s `cum_index` includes return `k`. The model follows each script's code and proves that the two differ by one place of shift (`Series.AnchoredIsShiftedUnanchored`).
- **Zero-over-zero changes.** `pct_change` of a zero level after a zero level is NaN and is dropped. A non-zero level after a zero level gives a signed infinity, which is kept.

# Aktienscreener: a verified model of the screening rule

The Aktienscreener is a Streamlit app that screens the stocks of up to four
indices (DAX, Dow Jones, S&P 500, Nikkei). It fetches about four months of
daily prices and some fundamentals for each stock and drops the stocks that
fail the momentum, valuation, dividend and distance-from-high filters. It
scores the rest with a weighted sum and shows them ranked by score. This
project models the screening rule of `app.py` in Dafny and proves its
properties:

- `presets.dfy` (module `Presets`): the configuration, the four beginner
  strategy presets and how beginner or pro mode resolves to a configuration.
- `universe.dfy` (module `Universe`): the ticker map, built by one dictionary
  update per selected index in the fixed order DAX, Dow Jones, S&P 500,
  Nikkei.
- `evaluation.dfy` (module `Evaluation`): the decision for one ticker. It
  covers the 30-bar guard, the 3-week performance, the distance from the
  window's high, the filter chain and the score.
- `ranking.dfy` (module `Ranking`): the descending sort by score.
- `screener.dfy` (module `Screener`): the loop over the universe that
  collects rows and survives per-ticker failures, and a whole run.
- `wrappers.dfy` (module `Wrappers`): `Option`, for absent fundamentals and
  failed fetches.

Prices and ratios are exact `real`s. The data provider is a parameter
`market: string -> Quote`. A `Quote` holds the price history and the
fundamentals, and each is `None` when fetching it raised an exception. The
index constituent lists are parameters too (`Constituents`).

Facts about `app.py` that the model keeps:
- Each ticker is screened in a single pass: metrics, fundamentals, filters and score.
- Indices are merged in the fixed order DAX, Dow Jones, S&P 500, Nikkei, not in selection order.
- P/E is bounded only from above.
- A missing dividend excludes the ticker when the dividend filter is on, and counts as 0% only
  when the filter is off.
- The sort is pandas' default `sort_values`, which is not stable. The model therefore promises
  only the score order, not the order among ties.
- The "52-week high" is the highest high of the fetched 120-day window.
- The 3-week performance compares the last close with the 15th-last close (`iloc[-15]`), which
  is 14 sessions earlier.

## Model

| member | source | states |
|---|---|---|
| `Presets.Preset` | app.py:71-89 | each beginner preset's four weights sum to 1; every threshold and weight lies within the pro-mode slider ranges; the dividend filter is on exactly for the balanced and dividend strategies and the distance filter is off only for growth |
| `Presets.Resolve` | app.py:69-89 | beginner mode yields a preset (weights sum to 1, within slider ranges); pro mode uses the user's configuration unchanged |
| `Presets.PresetEmphasis` | app.py:71-89 | each strategy puts its largest weight on what its name promises (growth: momentum, dividend: yield, turnaround: distance; balanced: momentum, the rest equal) |
| `Presets.PresetsDistinct` | app.py:71-89 | different strategies give different presets; the dividend strategy has the lowest P/E cap |
| `Universe.LastListing` | app.py:95-102 | the index it returns comes from the merge order, is selected and lists the symbol |
| `Universe.LastListingIsLast` | app.py:95-102 | the search finds an index exactly when some index of the order is selected and lists the symbol, and the one it finds has no such index after it |
| `Universe.MergedKeys` | app.py:94-102 | a symbol is in the merged map iff some selected index in the merge order lists it |
| `Universe.MergedLastWins` | app.py:94-102 | a merged symbol's name is the one given by the last selected index, in merge order, that lists it |
| `Universe.SelectionOrderIrrelevant` | app.py:95-102 | the merged map depends only on which indices are selected, not on the order the user picked them in |
| `Universe.UniverseKeys` | app.py:94-102 | the universe's key set is the union of the selected indices' key sets; with no index selected it is empty |
| `Universe.UniverseLastWins` | app.py:95-102 | in the universe, a symbol listed by several selected indices carries the name from the index `LastListing` finds, which is selected, lists the symbol and has no such index after it in the order DAX, Dow Jones, S&P 500, Nikkei |
| `Universe.BuildUniverse` | app.py:94-102 | the ticker map built by the four conditional updates is the fold of the merge order, with the key-set union and last-write-wins naming; empty when nothing is selected |
| `Evaluation.MaxHigh` | app.py:128 | the result is at least every bar's high and equals one of them |
| `Evaluation.ComputeMetrics` | app.py:124-129 | the current price is the last close; the 15th-last close grown by `perf` percent is the current price; the high is the window's maximum; the high grown by `dist` percent is the current price; `perf >= 0` iff the price did not fall |
| `Evaluation.Evaluate` | app.py:117-162 | a ticker is included iff its history was fetched, has at least 30 bars, its fundamentals were fetched and all filters pass (P/E present and at most the cap, performance at least the minimum, dividend present and high enough when that filter is on, distance far enough below the high when that filter is on); a failed fetch is a caught failure; a short history is skipped; an included row carries the ticker, name, metrics, yield, P/E and the weighted score |
| `Evaluation.IncludedHonoursThresholds` | app.py:135-144 | every included row has P/E at most the cap and performance at least the minimum, a yield at least the minimum if the dividend filter is on, and a distance at most minus the minimum if the distance filter is on |
| `Evaluation.ValuationTermNonNegative` | app.py:143-151 | for an included row the valuation term `maxPe - pe` is non-negative, so with a non-negative P/E weight the score is at least the other three terms |
| `Evaluation.DisabledDividendFilter` | app.py:137-159 | with the dividend filter off, a missing yield gives the same outcome as a 0% yield, and an included row reports 0% |
| `Evaluation.ShortHistoryIgnoresFundamentals` | app.py:121-133 | a history of fewer than 30 bars is skipped whatever the fundamentals are, and they are not read |
| `Evaluation.DistanceRange` | app.py:128-129 | when every bar's high is at least its close, the distance from the high lies in (-100%, 0%] |
| `Ranking.Insert` | app.py:173 | inserting into a score-ordered table keeps it score-ordered and adds exactly the one row |
| `Ranking.Rank` | app.py:173 | the ranked table is a permutation of its input with non-increasing scores |
| `Ranking.SortedPermutationsShareScores` | app.py:173 | two score-ordered permutations of the same rows have the same score column |
| `Ranking.RankDeterminesScores` | app.py:173 | every score-ordered permutation of the rows has the score column that `Rank` produces, whatever order ties come in |
| `Screener.AcceptedAmong` | app.py:116-162 | every accepted row's ticker is a key of the universe |
| `Screener.Screen` | app.py:113-165 | the loop's rows are exactly the accepted rows, each once (as a multiset); every row's ticker is in the universe; an empty universe gives no rows |
| `Screener.AcceptedIff` | app.py:116-162 | a universe ticker has a row iff its own decision includes it |
| `Screener.FailureIsolation` | app.py:117-165 | whatever fetching one ticker returns instead (a failed history fetch, a failed fundamentals fetch or other data), every other ticker keeps exactly its rows; when that ticker's new decision includes nothing, the accepted rows are the old ones minus its row |
| `Screener.Run` | app.py:69-173 | a run's table is a permutation of the accepted rows of the merged universe under the resolved configuration, sorted by score descending; every row's ticker is listed by a selected index; with no index selected the table is empty |

## Left out

- The Streamlit interface (form, radio, sliders, check boxes, `st.stop`, spinner, warnings, the result table and the download button): presentation owned by the framework. Pro mode is modelled as a given `Config`.
- The yfinance calls (`yf.Ticker`, `.history`, `.info`): network I/O. Their results are the `market` parameter. An exception from either call is a `None` field of `Quote`.
- Exceptions raised after the fetches, for example from a non-numeric P/E value: `Info` holds reals, so the model has none.
- The date window `datetime.today()` minus 120 days: it depends on the clock and only feeds the fetch.
- `round(..., 2)` on the output fields and IEEE floating point: values are exact reals. The table is sorted on the rounded score, so two rows whose scores round to the same two decimals (they can be almost 0.01 apart) may come in either order; the model sorts by the exact score, which gives one of those orders, because rounding never reverses an order.
- Zero or non-positive prices: the `Price` type excludes them, because the data provider's prices are positive. The source divides without a guard, and with a zero price numpy would yield infinities or NaN.
- The insertion order of the Python dict: the screening loop takes any remaining key. The order only matters before the final sort, which is not stable anyway.
- The pandas DataFrame and the CSV export.
- The warning written for a failed ticker (`st.write`): the model drops the ticker silently.
- The contents of the `tickers` module (the constituent lists): they are not part of this model and stay abstract, as `Constituents`.
- The two-phase "hybrid" screening variant: it is not part of this model.
- The skip reasons in `Outcome.Skipped` label the source's `continue` statements. Nothing downstream depends on them.

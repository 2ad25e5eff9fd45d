# Buffett value screen — a verified model

This project models the decision logic of a value-stock screener in its two
variants:

- the **global screener** (`global_buffett_screener.py`) builds a ticker
  universe from five index pages and a manual list, then evaluates up to
  2500 tickers. It computes ROE, gross margin and debt-to-equity from the
  financial statements and keeps the securities that pass four strict
  Buffett filters. It ranks them by P/E with a stable sort and counts them.
- the **safety screener** (`screener.py`) walks a fixed list of 45 large
  companies and reads every metric from the provider's precomputed `info`
  record. It appends the matches in list order.

The market-data provider is a parameter. For the global screener it is a
function from a ticker to a `Stock` value: the `info` record, the last price
and the two statement tables, each `None` where the fetch raises. For the
safety screener it is a function from a ticker to `Option<Info>`. The
scraped index columns are an `IndexPages` value.

Modules:

- `Fundamentals` holds the provider's loosely typed values (`Val`), the
  `info` record and `get_safe_float`. The two source files define
  `get_safe_float` with the same outcome on every value the model
  represents.
- `Criteria` holds the four filter predicates, the match record, the report
  and two-decimal rounding.
- `BuffettRatios` holds the three statement-based ratio calculators.
- `WikiUniverse` holds symbol normalisation and the deduplicated universe.
- `PeSort` holds the stable P/E sort as a function and as an in-place
  insertion sort on an array proved equal to it.
- `GlobalAnalysis` covers `process_ticker` and `run_global_analysis`. It
  ends with the three-ticker end-to-end scenario.
- `SafetyScreener` covers `run_analysis`: a loop with early skips that
  appends to a list.

A match in a debt-exempted sector gets the annotated tag whenever its sector
is exempted, even when its D/E is below 1.0 (global_buffett_screener.py:157-158).

## Model

| member | source | states |
|---|---|---|
| Fundamentals.SafeFloat | global_buffett_screener.py:24-30 | An absent key or a value that is not a number gives the caller's sentinel. A numeric value gives that number. The function is total. |
| Fundamentals.SafeFloatSentinel | screener.py:32-37 | The sentinel comes back exactly when the record holds no number under the key, or holds the sentinel itself. Any other result is the stored number. |
| Criteria.Round2 | global_buffett_screener.py:164-168 | The rounded value is a whole number of hundredths, within 0.005 of the input. |
| Criteria.Round2Monotone | global_buffett_screener.py:195 | Rounding preserves order, so the report never lists a record before one whose raw P/E rounds lower. Raw values that round to the same hundredth keep scan order. |
| Criteria.Round2OfCents | global_buffett_screener.py:164 | A value already in hundredths is unchanged. |
| Criteria.Round2Ties | global_buffett_screener.py:164 | An exact tie goes to the even hundredth: 0.125 → 0.12, 0.375 → 0.38, 14.875 → 14.88. |
| BuffettRatios.LatestValue | global_buffett_screener.py:36-37 | `.loc[item].iloc[0]` succeeds exactly when the table, the row and one period exist, and then gives the first period. |
| BuffettRatios.GuardedRatio | global_buffett_screener.py:38-40 | With a positive denominator the result times the denominator is the numerator. Otherwise the result is the failure value. |
| BuffettRatios.CalculateRoe | global_buffett_screener.py:32-42 | With net income and a positive equity, ROE × equity = net income. On any lookup failure or a non-positive equity the result is -1.0. |
| BuffettRatios.CalculateGpm | global_buffett_screener.py:44-53 | With gross profit and a positive revenue, GPM × revenue = gross profit. Otherwise the result is -1.0. |
| BuffettRatios.CalculateDeRatio | global_buffett_screener.py:55-71 | When both balance-sheet items exist, D/E is debt/equity if equity > 0, else 9999.0. Otherwise it uses the info record, where missing debt reads as 0.0 and missing equity as -1.0, with the same guard. |
| BuffettRatios.RoeDividesByPositiveEquity | global_buffett_screener.py:38-39 | Any ROE other than -1.0 came from dividing by a positive balance-sheet equity. |
| BuffettRatios.DeMissingEquityFails | global_buffett_screener.py:66-71 | Equity missing from both sources always gives 9999.0, whatever the debt. |
| BuffettRatios.DeMissingDebtIsZero | global_buffett_screener.py:67-70 | On the fallback path, a missing debt with a positive equity gives D/E 0.0. |
| BuffettRatios.DeNegativeEquityNoFallback | global_buffett_screener.py:62-64 | A non-positive balance-sheet equity gives 9999.0 whatever the info record holds. |
| WikiUniverse.ReplaceDots | global_buffett_screener.py:81 | The length is unchanged. Each '.' becomes '-' and every other character stays. |
| WikiUniverse.TickersFromWiki | global_buffett_screener.py:76-83 | An unreadable column, or one holding a non-string cell, contributes nothing. Otherwise the column gives one ticker per cell. |
| WikiUniverse.TickersFromWikiCells | global_buffett_screener.py:81 | Each ticker is its cell with dots rewritten, followed by the exchange suffix. |
| WikiUniverse.Contributions | global_buffett_screener.py:87-107 | `all_tickers` after the six extends: the five page contributions in fetch order, then the manual list. |
| WikiUniverse.Universe | global_buffett_screener.py:110 | The set of non-empty contributed tickers. UniverseMembership states it source by source. |
| WikiUniverse.Deduplicate | global_buffett_screener.py:110 | The result has no duplicates. It holds exactly the non-empty strings of the input. |
| WikiUniverse.GetAllGlobalTickers | global_buffett_screener.py:85-112 | The returned list has no duplicates. Its elements are exactly the non-empty tickers of the five pages and the manual list. |
| WikiUniverse.UniverseMembership | global_buffett_screener.py:87-110 | A ticker is in the universe exactly when it is non-empty and comes from one of the six sources. |
| WikiUniverse.ManualTickersAlwaysIncluded | global_buffett_screener.py:101-107 | Every manual ticker is in the universe, as written, whichever pages fail. |
| WikiUniverse.AllPagesDown | global_buffett_screener.py:82-83 | With every page unreadable, the universe is exactly the manual list. |
| WikiUniverse.DotDashVariantsMerge | global_buffett_screener.py:81 | Two symbols that differ only in '.' against '-' normalise to the same ticker. |
| WikiUniverse.ReplaceDotsNormalises | global_buffett_screener.py:81 | A normalised symbol contains no '.'. Normalising it again changes nothing. |
| WikiUniverse.BrkVariantsMerge | global_buffett_screener.py:81 | "BRK.B" and "BRK-B" each contribute the single ticker "BRK-B". |
| PeSort.SortByPe | global_buffett_screener.py:195 | The stable sort by P/E, inserting each record after every earlier one whose P/E is not larger. It is sorted, a permutation and stable by the three lemmas below. |
| PeSort.ShiftLarger | global_buffett_screener.py:195 | One insertion step's shifting loop. The run of records at the end of the prefix whose P/E exceeds the new record's moves one place right. Everything else stays, leaving a gap at the returned index, after the last record whose P/E is not larger. |
| PeSort.InsertInPlace | global_buffett_screener.py:195 | One insertion step in place: the prefix becomes InsertByPe of the old prefix and the new record, and the rest of the array is unchanged. |
| PeSort.SortByPeSortedPermutation | global_buffett_screener.py:195 | The sorted list is non-decreasing in P/E and is a permutation of its input. |
| PeSort.SortByPeStable | global_buffett_screener.py:195 | For every P/E value, the records carrying it keep their relative order. |
| PeSort.SortByPeSortedUnchanged | global_buffett_screener.py:195 | Sorting a list already in P/E order leaves it unchanged. |
| PeSort.SortInPlace | global_buffett_screener.py:195 | The in-place insertion sort leaves the array holding the stable sort of its old contents. |
| GlobalAnalysis.ProcessTicker | global_buffett_screener.py:116-176 | A record comes back exactly when the security qualifies: info and price are readable, the sector is not excluded, and the four filters pass, D/E waived for an exempted sector. The record carries the ticker and the sector. |
| GlobalAnalysis.ExcludedSectorRejected | global_buffett_screener.py:126-128 | An excluded sector gives None whatever the ratios. |
| GlobalAnalysis.ExemptSectorIgnoresDebt | global_buffett_screener.py:147-158 | In an exempted sector the verdict rests on P/E, ROE and margin alone, and a match is tagged with its sector. |
| GlobalAnalysis.NonExemptNeedsLowDebt | global_buffett_screener.py:148-154 | Outside the exempted sectors, a match has D/E < 1 and the plain tag. |
| GlobalAnalysis.BoundariesRejected | global_buffett_screener.py:139-148 | P/E = 15, ROE = 0.15, margin = 0.20, and D/E = 1.0 outside an exempted sector each give None. |
| GlobalAnalysis.MissingDataRejected | global_buffett_screener.py:131-145 | A missing P/E, net income, revenue or price gives None. So does equity missing from both sources outside an exempted sector. |
| GlobalAnalysis.MatchRecordValues | global_buffett_screener.py:152-171 | The reported P/E lies in [0, 15]. ROE and margin are percentages of at least 15 and 20. D/E is at most 1 outside the exempted sectors. P/E, ROE, margin and D/E are each within 0.005 of the computed value, and the price is the rounded last price. Name and currency fall back to the ticker and "USD". |
| GlobalAnalysis.TickersToScan | global_buffett_screener.py:183 | The scan list is the prefix of the universe of length min(2500, universe size). |
| GlobalAnalysis.ScanResults | global_buffett_screener.py:188-189 | There is one result per scanned ticker, in input order. |
| GlobalAnalysis.Present | global_buffett_screener.py:192 | A record is kept exactly when it is a non-None result. |
| GlobalAnalysis.PresentAppend | global_buffett_screener.py:192 | Filtering keeps the order of the results. |
| GlobalAnalysis.ScanResultsMembers | global_buffett_screener.py:188-189 | A record is a result exactly when it is the verdict on the scanned ticker it names. |
| GlobalAnalysis.GlobalReportRanked | global_buffett_screener.py:192-201 | The count equals the data length, at most 2500. The data is non-decreasing in P/E, a permutation of the matches, with ties in scan order. |
| GlobalAnalysis.GlobalReportMembers | global_buffett_screener.py:183-192 | The report holds exactly the matches among the scanned tickers. |
| GlobalAnalysis.ScanAndRank | global_buffett_screener.py:183-201 | Cap, map, filter, in-place sort and count give exactly the specified report: counted and sorted. |
| GlobalAnalysis.RunGlobalAnalysis | global_buffett_screener.py:178-201 | The universe list returned beside the report is duplicate-free and holds exactly the universe. The report is GlobalReport of that list: every match among its first 2500 tickers, counted, sorted by P/E with ties in scan order. Every record is the match of a universe ticker it names. |
| GlobalAnalysis.GlobalReport | global_buffett_screener.py:197-201 | The report of a universe list: the P/E sort of the non-None verdicts on its first 2500 tickers, with their count. Its properties are GlobalReportRanked and GlobalReportMembers. |
| GlobalAnalysis.OnlyFirstOfThree | global_buffett_screener.py:188-199 | Three tickers of which only the first matches give a report of that one record. |
| GlobalAnalysis.ThreeTickerScenario | global_buffett_screener.py:126-171 | A (financial, P/E 10, ROE 0.2, margin 0.25, D/E 2) is the only match and carries the exemption tag. B (technology) and C (P/E 20) are rejected. |
| SafetyScreener.InfoDeRatio | screener.py:66-68 | With a positive equity, D/E × equity = debt. Otherwise D/E is 9999.0. Missing debt reads as 0.0, missing equity as 1.0. |
| SafetyScreener.ScreenTicker | screener.py:49-98 | A record comes back exactly when info is readable, the sector is not excluded, and the four filters pass, D/E waived for an exempted sector. The record carries the ticker and the sector. Its other fields are stated by SafetyScreener.MatchRecordValues and SafetyScreener.MatchTag. |
| SafetyScreener.MatchRecordValues | screener.py:77-98 | The reported P/E lies in [0, 15]. ROE and margin are percentages of at least 15 and 20. D/E is at most 1 outside the exempted sectors. P/E, ROE, margin and D/E are each within 0.005 of the computed value. The record carries the sector and the rounded price. Name and currency fall back to the ticker and "USD". |
| SafetyScreener.ScreenOne | screener.py:44-98 | The loop body, with its two early skips, returns exactly the verdict of ScreenTicker. |
| SafetyScreener.ScreenAll | screener.py:41-102 | The loop appends exactly the matches, in input order. |
| SafetyScreener.RunAnalysis | screener.py:39-109 | The report's data is the matches of the fixed list in order. Its count is the data length, at most 45. |
| SafetyScreener.Collect | screener.py:43-98 | The records a per-ticker verdict keeps, in list order, at most one per ticker. Membership, order and symbol bounds are proved for any verdict that names its ticker. |
| SafetyScreener.Matches | screener.py:43-98 | `undervalued_stocks` after the loop: Collect with the safety verdict, never longer than the list. |
| SafetyScreener.MatchesAppend | screener.py:43-44 | The output for two lists in a row is the output for the first followed by the output for the second. |
| SafetyScreener.MatchesMembers | screener.py:43-98 | A record is in the output exactly when it is the verdict on one of the tickers, the one it names. |
| SafetyScreener.MatchesAtMostOnePerTicker | screener.py:87-98 | The symbols of the output form a sub-multiset of the inputs: at most one record per ticker occurrence. |
| SafetyScreener.MatchesDistinctSymbols | screener.py:87-88 | For distinct tickers, no two records share a symbol. |
| SafetyScreener.MissingDataRejected | screener.py:49-73 | An unreadable info record, an excluded sector, or a missing P/E, ROE or margin adds nothing. |
| SafetyScreener.MissingEquityDeIsDebt | screener.py:66-68 | A missing equity makes D/E equal to the debt, or 0.0 when the debt is missing too. |
| SafetyScreener.MatchTag | screener.py:79-83 | An exempted sector gets the sector-free annotated tag and any other sector the plain tag. A missing price is reported as 0.0. |
| SafetyScreener.BoundariesRejected | screener.py:71-76 | P/E = 15, ROE = 0.15, margin = 0.20, and D/E = 1.0 outside an exempted sector each add nothing. |

## Left out

- The data provider (`yf.Ticker`, `.info`, `.fast_info`, `.financials`, `.balance_sheet`) is foreign I/O. Its answers are parameters, and every exception it raises is modelled as `None`.
- `stock.info` is read once per ticker. The D/E fallback sees the same record that `process_ticker` read.
- `pd.read_html`, the index URLs and the table indices are left out as network and library calls. Each page is given as its scraped symbol column, `None` when it cannot be read.
- The ten-thread `ThreadPoolExecutor` is modelled as a sequential map. `executor.map` returns results in input order, so concurrency does not change the report.
- The JSON file written, the `last_updated` UTC time stamp and all printed messages are left out as output with no effect on the report, as long as stdout accepts the text. At screener.py:84 the message is printed before the append at line 86; if stdout cannot encode it, the `except` drops the match, and the model does not capture that.
- IEEE floating point is left out; values are exact reals. NaN, infinities and an integer too large for `float()` are not modelled.
- Criteria.Round2: rounds the exact value, ties to even. Python's `round` rounds the nearest double, so a value such as 14.995 can round to 14.99 there and to 15.0 here.
- Python's `float()` on the provider's values is abstracted as `Val`: `VNum` is any value it accepts. Parsing numeric strings is not modelled.
- WikiUniverse.Deduplicate: `list(set(...))` has an unspecified order, so the result is proved to hold the right elements, each once, in some order.
- SafetyScreener.RunAnalysis: the 45 fixed tickers are not proved pairwise distinct. The output is bounded to one record per ticker occurrence, and MatchesDistinctSymbols gives distinct symbols for any distinct input list.
- The outer `try`/`except` of the safety loop catches failures only of the provider's calls. The arithmetic on exact reals cannot fail, so the model has no other failure path.

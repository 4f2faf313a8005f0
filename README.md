# Wallet and Monte Carlo Value-at-Risk, modelled in Dafny

The system is a personal wallet application with four parts:

- a SQLite table of holdings, handled by `db.py`;
- the wallet operations of the Streamlit front end, in `app.py`:
  - buying at a weighted-average cost;
  - selling with a recorded profit/loss;
  - valuing the wallet at the bid rates;
  - handing TL values to the risk analysis;
- a small market data service, in `api.py`:
  - the latest USD, EUR and gram-gold rates;
  - daily bid series assembled into weekly, monthly and yearly dicts;
- a Monte Carlo Value-at-Risk pipeline, in `riskanaliz.py`:
  - log returns;
  - distribution fitting;
  - GARCH or sample volatility;
  - correlation, covariance and a Cholesky factor;
  - correlated geometric Brownian motion paths;
  - VaR and CVaR at 95 %;
  - a volatility ranking with buy/sell suggestions.

The model keeps the deterministic skeleton of all of these: every branch, early exit, index rule, ordering and clamping rule. It abstracts the numerics and the randomness:

- `ln`, `sqrt`, `exp`, the scipy fits and tests, the GARCH fit, Pearson's coefficient, `np.linalg.cholesky` and `round(x, 2)` are function-typed parameters (oracles).
- A NaN and a Python `None` are both `Option.None`.
- The random draws are an input indexed by trial, day and asset.

Modules, one per concern:

- `Common` (`common.dfy`): sums, `Option`, Python truthiness of numbers, dict helpers.
- `Fitting` (`fitting.dfy`): `en_iyi_dagilimi_bul`, the running-best selection of a distribution family.
- `Returns` (`returns.dfy`):
  - the log-return DataFrame;
  - drift and sample volatility;
  - GARCH volatility and the all-or-nothing choice between GARCH and sample volatility.
- `Correlation` (`correlation.dfy`): `korelasyon_hesapla` and `kovaryans_hesapla`.
- `MonteCarlo` (`montecarlo.dfy`): `mcs_yap`.
  - It is a function `Simulate` of its inputs.
  - It is implemented by methods that work on an `array` copy of the asset values, as the source works on a copy of the dict.
- `Metrics` (`metrics.dfy`): the sort, VaR, CVaR, the stable descending volatility ranking and the suggestions.
- `Pipeline` (`pipeline.dfy`): `risk_analiz_yap` as a cascade of stages, each a specification function implemented by a method.
- `Ledger` (`ledger.dfy`): the `wallet` table as a class.
  - The rows are a `map` keyed by the primary key.
  - The insertion order is kept, because it is the order of a full scan.
- `Market` (`market.dfy`): `get_market_data`, `get_gecmis_veri`, `haftalik_veri`, `aylik_veri` and `yillik_veri`.
- `Wallet` (`wallet.dfy`): `add_to_wallet`, `remove_wallet`, `calculate_asset`, `kar_zarar_anlik` and the risk-input mapping loop of `main`.

The source has three defects. Each one is modelled as written: as an outcome of the model, not as a precondition.

- **Unbound `L`.** When the Cholesky factorization fails, the handler reads a variable `L` that was never bound. The `UnboundLocalError` escapes `risk_analiz_yap`, and the diagonal fallback `D` is never returned. This is `Escaped(UnboundFactor)`.
- **No family chosen.** When every candidate family fails on an asset, its fit records the family `None`. The simulation then calls `getattr(stats, None)`, which raises, instead of falling back to a normal draw. This is `SimRaised(NoFamily)`.
- **VaR index.** `var_hesapla` indexes `sorted_values[int((1 - c) * N)]`, which Python's negative indexing accepts exactly for 0 < c < 2 + 1/N. Outside that range, and in particular for c ≤ 0, it raises. This is `Escaped(IndexOutOfRange)`. It is a defect of `var_hesapla` called on its own: `risk_analiz_yap` always passes c = 0.95 with a non-empty list, and `Pipeline.IndexOutOfRangeUnreachable` proves that the analysis never escapes with it.

`mcs_yap` on its own also raises when a row of its factor has the wrong length (`np.dot(L, Z)`). This is `SimRaised(ShapeMismatch)`. The analysis never reaches it: its factor comes from `np.linalg.cholesky` applied to an n×n matrix over the log-return columns, and those columns are exactly the wallet's assets. The factorization oracle's type leaves the factor's shape open. `Correlation.ShapePreserving` states numpy's promise that the factor of an n×n matrix is n×n, and under it `Pipeline.ShapeMismatchUnreachable` proves that the analysis never escapes with `ShapeMismatch`.

The analysis iterates the wallet's key set (`set(initial_asset_values.keys())`), and Python does not fix the order of that iteration. The model therefore takes that order as an input, `order`:

- `order` orders the log-return columns, and so the rows of the factor.
- The simulation walks the assets in the wallet dict's own order.
- The source never checks that the two orders agree, and neither does the model.

Where the code and its design notes disagree, the model follows the code:

- Log returns keep the length of the price series, with a NaN first entry; they are not one shorter.
- A failed factorization escapes instead of falling back to the diagonal matrix.
- An asset whose fit failed raises in the simulation instead of falling back to normal draws.

## Model

| member | source | states |
|---|---|---|
| Fitting.ChiTerm | riskanaliz.py:47-48 | one chi-square term `(observed - expected)^2 / (expected + 1e-8)` is +inf exactly when the denominator is zero, and finite and non-negative whenever the expected frequency is non-negative |
| Fitting.ChiSquareInfinite | riskanaliz.py:47-48 | `nansum` keeps +inf, so the chi-square statistic is +inf exactly when some bin's denominator is zero |
| Fitting.ChiSquareNonNegative | riskanaliz.py:44-48 | with a non-decreasing CDF at the bin edges the chi-square statistic is finite and non-negative |
| Fitting.Score | riskanaliz.py:30-58 | a candidate whose fit or test raised has no score; a candidate evaluated with one CDF value per bin edge has a finite score exactly when no bin's denominator is zero, and always when its CDF is non-decreasing |
| Fitting.ScoreOf | riskanaliz.py:50-53 | the mean of the scores is finite exactly when the chi-square statistic is |
| Fitting.RunningBestIsEarliestMinimum | riskanaliz.py:24-57 | the running best is None exactly when no candidate has a score; otherwise its score is at most every other score and strictly below every earlier one, so the earliest of equal scores wins |
| Fitting.FindBestDistribution | riskanaliz.py:22-61 | the selection loop returns (None, None) exactly when no candidate has a finite score; otherwise the family chosen is a candidate at the earliest-minimum position, with its parameters |
| Returns.LogReturnSeries | riskanaliz.py:92-94 | the series of an asset has the length of its prices, a NaN first entry, and entry i is `ln(p[i]/p[i-1])` of the two prices (NaN when either is missing) |
| Returns.LogReturns | riskanaliz.py:88-99 | assets with fewer than two prices are absent; every other asset has a series of its own length with a NaN first entry and the log ratio of consecutive prices after it |
| Returns.LogReturnsOfShape | riskanaliz.py:91-97 | the same facts about the log-return dict as a function of the prices |
| Returns.PresentEmpty | riskanaliz.py:136 | `dropna()` leaves nothing exactly when every entry is NaN |
| Returns.ColumnStatistics | riskanaliz.py:104-121 | the drift and sample volatility dicts are empty for an empty DataFrame and otherwise have one entry per column; a mean is NaN exactly when the column is all NaN, a standard deviation exactly when fewer than two values are present |
| Returns.GarchOfDefaults | riskanaliz.py:126-157 | no GARCH values when `arch` is missing or the DataFrame is empty; otherwise one per column, and 0.0 for every column with at most 30 present returns or a failed fit |
| Returns.GarchVolatility | riskanaliz.py:135-157 | the loop over the columns computes exactly the GARCH dict specified |
| Returns.ChooseVolatility | riskanaliz.py:379-388 | the volatility used is the sample volatility, unless GARCH is available and every GARCH value is positive, in which case every GARCH asset keeps its GARCH value |
| Returns.OneBadGarchValueSwitchesAll | riskanaliz.py:383-385 | a single non-positive GARCH value makes every asset use the sample volatility |
| Returns.ShortHistoryUsesSampleVolatility | riskanaliz.py:137-155 | when one column has at most 30 present returns, the sample volatility is used for all assets |
| Correlation.CompleteRows | riskanaliz.py:164 | `len(df.dropna())` is at most the number of rows |
| Correlation.MinPeriods | riskanaliz.py:165 | the minimum overlap is `max(2, int(0.8 m))`: at least 2, at most m when m ≥ 2, and otherwise the floor of 0.8 m |
| Correlation.Overlap | riskanaliz.py:166 | the pairwise-complete window holds equally many values of both series, no more than either has |
| Correlation.OverlapSwap | riskanaliz.py:166 | the window of a pair does not depend on the order of the two series |
| Correlation.CorrelationMatrix | riskanaliz.py:162-170 | an empty DataFrame gives an empty matrix; otherwise the matrix is square with one row and column per DataFrame column |
| Correlation.CorrelationSymmetric | riskanaliz.py:166 | with a symmetric coefficient the correlation matrix is symmetric |
| Correlation.Stdevs | riskanaliz.py:183 | one volatility per column, 0.0 for a column without one |
| Correlation.Covariance | riskanaliz.py:184-188 | `D @ Rho @ D` is square of the size of the volatility vector |
| Correlation.CovarianceEntries | riskanaliz.py:184-188 | a covariance entry is `s_i * rho_ij * s_j` when everything is known; one NaN coefficient makes every entry NaN, and a NaN volatility makes its row and column NaN |
| Correlation.CovarianceSymmetric | riskanaliz.py:188 | a symmetric correlation matrix gives a symmetric covariance matrix |
| Correlation.CovarianceFactor | riskanaliz.py:175-197 | an empty DataFrame gives the empty factor |
| Correlation.FactorIsSquare | riskanaliz.py:183-189 | with a shape-preserving factorization, the factor of a non-empty DataFrame is n×n for its n columns |
| Correlation.FactorizationFailureRaises | riskanaliz.py:193-197 | a failed factorization of a non-empty DataFrame is the escaping `UnboundLocalError`, never the diagonal fallback |
| MonteCarlo.Shocks | riskanaliz.py:221-232 | one independent shock per asset |
| MonteCarlo.MatVec | riskanaliz.py:234 | `L @ Z` has one entry per row of L |
| MonteCarlo.GbmStep | riskanaliz.py:238-253 | a step never gives a negative value; a value at or below zero becomes 0; a NaN drift or volatility gives 0 |
| MonteCarlo.GbmStepKeepsPositive | riskanaliz.py:247-250 | with a positive `exp`, a positive value with known drift and volatility stays positive |
| MonteCarlo.GbmStepKeepsValueOnError | riskanaliz.py:251-253 | when the step raises, the asset keeps its previous value |
| MonteCarlo.DayValues | riskanaliz.py:237-253 | a day's step gives one value per asset |
| MonteCarlo.Path | riskanaliz.py:218-253 | a trial's path holds one value per asset on every day |
| MonteCarlo.Simulate | riskanaliz.py:202-259 | no trial when there are no assets or the factor's row count differs; an exception only when there are trials and days; otherwise exactly `num_simulations` values |
| MonteCarlo.DrawShocks | riskanaliz.py:221-232 | the draw succeeds exactly when every asset has a family, and then gives `Shocks` |
| MonteCarlo.StepDay | riskanaliz.py:237-253 | the asset array afterwards holds the next day's values |
| MonteCarlo.AdvanceDay | riskanaliz.py:220-253 | one day either advances the path to the next day or raises `NoFamily` when an asset has no family, or `ShapeMismatch` when the factor does not conform |
| MonteCarlo.RunTrial | riskanaliz.py:218-256 | a trial either gives the sum of the final asset values of its path or raises, with the same causes, and only when there are days |
| MonteCarlo.RunSimulation | riskanaliz.py:202-259 | the simulation loop computes `Simulate` |
| MonteCarlo.ZeroIsAbsorbing | riskanaliz.py:239-241 | once an asset's value is zero it stays zero for the rest of the trial |
| MonteCarlo.TrialOutcomeNonNegative | riskanaliz.py:250-255 | a trial's final portfolio value is never negative |
| MonteCarlo.SimulatedValuesNonNegative | riskanaliz.py:255-256 | no simulated portfolio value is negative |
| MonteCarlo.NoDaysGivesInitialValue | riskanaliz.py:218-256 | with zero days every trial gives the initial portfolio value: each trial starts from a fresh copy of the wallet's values |
| MonteCarlo.UnfittedAssetRaises | riskanaliz.py:223-226 | an asset whose fit found no family makes the simulation raise instead of falling back to normal draws |
| Metrics.InsertAscendingSorted | riskanaliz.py:268 | inserting into an ascending sequence keeps it ascending |
| Metrics.InsertAscendingPermutes | riskanaliz.py:268 | insertion adds exactly the inserted value |
| Metrics.SortCorrect | riskanaliz.py:268 | `np.sort` gives an ascending permutation of its input |
| Metrics.Trunc | riskanaliz.py:269 | `int()` rounds toward zero |
| Metrics.PyIndex | riskanaliz.py:270 | Python indexing: defined exactly for `-N <= i < N`, negative indices counting from the end |
| Metrics.PyPrefix | riskanaliz.py:283 | the Python slice `[:i]`, clamped, negative indices counting from the end |
| Metrics.TailIndexInRange | riskanaliz.py:269 | for a confidence strictly between 0 and 1 the index `int((1-c)N)` lies in [0, N-1] |
| Metrics.ValueAtRisk | riskanaliz.py:264-272 | no values give VaR 0; a VaR is never negative |
| Metrics.ValueAtRiskDefined | riskanaliz.py:268-272 | for 0 < c ≤ 1 the VaR is defined and is `max(0, initial - sorted[index])` |
| Metrics.ValueAtRiskDefinedExactly | riskanaliz.py:269-270 | for N values, VaR is defined exactly when 0 < c and c·N < 2N + 1, that is for 0 < c < 2 + 1/N |
| Metrics.TailIndexInPythonRange | riskanaliz.py:269-270 | `int((1-c)N)` lies in Python's index range [-N, N) exactly when 0 < c and c·N < 2N + 1 |
| Metrics.TruncRange | riskanaliz.py:269 | `int(x)` lies in [-N, N) exactly when -N-1 < x < N |
| Metrics.ValueAtRiskRaisesAtZeroConfidence | riskanaliz.py:269-270 | at confidence 0 the index is N and `sorted_values[index]` raises |
| Metrics.ValueAtRiskMonotone | riskanaliz.py:269-272 | VaR does not decrease as the confidence level rises |
| Metrics.TailIndexAntitone | riskanaliz.py:269 | the tail index does not increase with the confidence |
| Metrics.LossAntitone | riskanaliz.py:271-272 | in an ascending sequence a later value gives no larger loss |
| Metrics.ConditionalValueAtRisk | riskanaliz.py:277-288 | no values give CVaR 0; CVaR is never negative |
| Metrics.ConditionalValueAtRiskAtLeastValueAtRisk | riskanaliz.py:264-288 | when the tail index is at least 1, CVaR is at least VaR |
| Metrics.ConditionalValueAtRiskWithoutTail | riskanaliz.py:283-288 | when the tail index is 0 the tail is empty and CVaR is 0 |
| Metrics.TailMeanAtMost | riskanaliz.py:283-285 | the mean of an ascending sequence's prefix is at most the next value |
| Metrics.RiskMetrics | riskanaliz.py:293-303 | no values give both figures 0; both figures are never negative; the figures exist exactly when VaR does |
| Metrics.InsertDescendingSorted | riskanaliz.py:429 | inserting into a descending ranking keeps it descending |
| Metrics.InsertDescendingPermutes | riskanaliz.py:429 | insertion adds exactly the inserted entry |
| Metrics.InsertDescendingStable | riskanaliz.py:429 | the inserted entry goes after every entry of equal volatility |
| Metrics.WithKeyAppend | riskanaliz.py:429 | selecting entries of one volatility distributes over concatenation |
| Metrics.RankByVolatilityCorrect | riskanaliz.py:428-430 | `sorted(..., reverse=True)` gives a descending permutation that keeps the input order among equal volatilities |
| Metrics.Suggest | riskanaliz.py:433-437 | there is one asset to increase when the ranking is non-empty, and one to reduce only when it has at least two assets |
| Metrics.RankedPosition | riskanaliz.py:429 | every ranked asset has a position in the ranking |
| Metrics.IncreaseIsLeastVolatile | riskanaliz.py:435 | the asset to increase is the last ranked, an asset of the wallet with the lowest volatility |
| Metrics.DecreaseIsMostVolatile | riskanaliz.py:436-437 | with at least two assets the asset to reduce is the first ranked, one with the highest volatility |
| Pipeline.SetOf | riskanaliz.py:313 | `set(xs)` holds exactly the elements of xs |
| Pipeline.PricesOf | riskanaliz.py:325-328 | the price dict has exactly the wallet's assets |
| Pipeline.ValidAssets | riskanaliz.py:331 | the valid assets are exactly the wallet assets with more than one price |
| Pipeline.MinLength | riskanaliz.py:339 | the common length is the shortest valid series, at least 2 |
| Pipeline.Aligned | riskanaliz.py:340 | after alignment every valid series is its own prefix of the common length |
| Pipeline.WalletVolatility | riskanaliz.py:428 | one ranking entry per wallet asset |
| Pipeline.FromPrices | riskanaliz.py:331-449 | after the prices are gathered, no earlier error can occur |
| Pipeline.FromAligned | riskanaliz.py:345-449 | after alignment only the log-return and later errors can occur |
| Pipeline.FromFrame | riskanaliz.py:372-449 | from the log-return DataFrame on, only the drift, volatility, covariance and simulation errors can occur |
| Pipeline.FromFactor | riskanaliz.py:398-419 | from the factor on, only the empty-factor and empty-simulation errors can occur |
| Pipeline.FromValues | riskanaliz.py:422-449 | the last stage either reports or raises the VaR index error |
| Pipeline.RunRiskAnalysis | riskanaliz.py:307-449 | the analysis of a wallet computes `RiskAnalysis` |
| Pipeline.RunFromPrices | riskanaliz.py:331-349 | the validity filter, alignment and log returns compute `FromPrices` |
| Pipeline.FitAll | riskanaliz.py:355-360 | the fitting loop records the best fit of every column's present returns |
| Pipeline.RunFromFrame | riskanaliz.py:363-401 | the drift, volatility and factor stages compute `FromFrame` |
| Pipeline.RunFromFactor | riskanaliz.py:404-449 | the simulation and report stages compute `FromFactor` |
| Pipeline.EmptyWalletUnreachable | riskanaliz.py:308-315 | an empty wallet already fails the total-value check, so the empty-wallet error never occurs |
| Pipeline.AlignedLogReturnsCover | riskanaliz.py:339-349 | after alignment every asset has at least two prices, so the log-return check always passes |
| Pipeline.FetchedContinuesWithPrices | riskanaliz.py:319-328 | with a positive total, fetched yearly data continues with the price dict |
| Pipeline.FromPricesStopsForPrices | riskanaliz.py:331-336 | the no-valid-prices error occurs exactly when no asset has more than one price, and then names every wallet asset |
| Pipeline.NoValidPricesExactly | riskanaliz.py:308-336 | for a wallet of positive value, the no-valid-prices error occurs exactly when no asset has more than one yearly price, and it names every wallet asset |
| Pipeline.SameSet | riskanaliz.py:334 | two lists with the same elements have the same set |
| Pipeline.PricesCounted | riskanaliz.py:328 | an asset's price series is its yearly series, or empty |
| Pipeline.FromPricesAligns | riskanaliz.py:331-345 | with some valid asset, the analysis continues with the aligned prices |
| Pipeline.FromPricesNoLogReturnFailure | riskanaliz.py:345-349 | the log-return error never occurs after alignment |
| Pipeline.LogReturnFailureUnreachable | riskanaliz.py:307-349 | the log-return error never occurs at all |
| Pipeline.FromAlignedKeyMismatch | riskanaliz.py:347-367 | given complete log returns, the key-mismatch error occurs exactly when the aligned assets are not the wallet's |
| Pipeline.AlignedCoversOrder | riskanaliz.py:331-340 | the aligned dict covers the wallet exactly when every wallet asset has more than one price |
| Pipeline.FromPricesKeyMismatch | riskanaliz.py:331-367 | the key-mismatch error occurs exactly when some wallet asset has enough prices and some other does not |
| Pipeline.KeyMismatchExactly | riskanaliz.py:308-367 | for a wallet of positive value, the key-mismatch error occurs exactly when some asset has more than one yearly price and some asset has at most one |
| Pipeline.FromFrameGuards | riskanaliz.py:372-391 | the drift error occurs exactly when no mean is NaN or non-zero; the volatility error exactly when some mean is and no chosen volatility is NaN or non-zero |
| Pipeline.UnfittedAssetEscapes | riskanaliz.py:223-226 | an unfitted asset reaching the simulation makes the analysis raise |
| Pipeline.PipelineTailIndex | riskanaliz.py:404-424 | with 10000 trials at 95 % the tail index is 500 |
| Pipeline.SteppableSetupReachesReport | riskanaliz.py:398-449 | a non-empty factor that conforms, with every asset fitted, reaches the report; its VaR is non-negative, its CVaR at least its VaR, and its initial value the wallet's total |
| Pipeline.ReportNeedsFittedAssets | riskanaliz.py:398-449 | a report is reached only with a non-empty wallet whose assets are all fitted and a conforming factor |
| Pipeline.ConformingFactorNoShapeMismatch | riskanaliz.py:398-424 | a factor whose rows all have one entry per asset never makes the simulation raise `ShapeMismatch` |
| Pipeline.FromFrameNoShapeMismatch | riskanaliz.py:372-424 | with one log-return column per asset and a shape-preserving factorization, the stages from the drift on never raise `ShapeMismatch` |
| Pipeline.ShapeMismatchUnreachable | riskanaliz.py:307-424 | with a shape-preserving factorization the analysis never escapes with `ShapeMismatch`: the columns that pass the key check are exactly the wallet's assets |
| Pipeline.FromValuesReports | riskanaliz.py:422-449 | at confidence 0.95 a non-empty list of simulated values always gives a report |
| Pipeline.FromFactorNoIndexError | riskanaliz.py:398-449 | from the factor on, the VaR index error never occurs |
| Pipeline.FromFrameNoIndexError | riskanaliz.py:372-449 | from the drift on, the VaR index error never occurs |
| Pipeline.IndexOutOfRangeUnreachable | riskanaliz.py:307-449 | the analysis never escapes with the VaR index error |
| Ledger.Upserted | db.py:43-53 | an existing row gets the four new values and keeps its profit/loss; a new row is added with profit/loss NULL; no other row changes |
| Ledger.Updated | db.py:104-105 | only the quantity and profit/loss of the given row change; an absent key changes nothing |
| Ledger.Without | db.py:123 | the scan order without the deleted key keeps every other key and no duplicates |
| Ledger.LoadSelects | db.py:66-92 | a non-empty key loads that row alone, or nothing when it is absent; no key loads every row in scan order; keys never repeat |
| Ledger.LoadFindsRow | db.py:66-71 | an asset appears in what is loaded for it exactly when it has a row |
| Ledger.LoadAfterSave | db.py:43-84 | reading back a saved asset gives the values just written with NULL read as 0, and the earlier profit/loss, or 0 for a new row |
| Ledger.LoadAfterUpdate | db.py:80-105 | reading back an updated asset gives the new quantity and profit/loss and the old cost and prices |
| Ledger.LoadAfterRemove | db.py:123 | after a delete the asset loads as nothing and every other asset loads as before |
| Ledger.WalletTable.constructor | db.py:20-29 | a fresh table has no rows |
| Ledger.WalletTable.Save | db.py:37-56 | the rows become `Upserted(...)`; a new key is appended to the scan order |
| Ledger.WalletTable.Load | db.py:61-92 | the loaded dict is `LoadOf` of the table |
| Ledger.WalletTable.Update | db.py:98-111 | the rows become `Updated(...)`; the scan order is unchanged |
| Ledger.WalletTable.Remove | db.py:116-128 | only the given row is deleted, and it leaves the scan order |
| Ledger.WalletTable.Clear | db.py:132-145 | every row is deleted and the call reports success |
| Market.MarketData | api.py:12-47 | a status other than 200 is an error naming it; with status 200 the rates exist exactly when the six quotes do; each of the four currency rates is its own rounded quote (`USDs` and `EURs` the asks, `USDa` and `EURa` the bids), and both gram-gold prices are computed from the rounded ounce price and the rounded USD rate |
| Market.BidsOf | api.py:62-87 | a failed request, an answer that is not a list, or a bid that raises `TypeError` gives the empty list |
| Market.HistoricalBids | api.py:70-80 | the loop over the answer computes `BidsOf` |
| Market.ParsedBidsAppend | api.py:71-78 | the kept bids of two runs of items are the kept bids of each, in order |
| Market.ParsedBidsAt | api.py:73-75 | an item with a parseable bid contributes that bid at its place |
| Market.ParsedBidsSkips | api.py:73-78 | an item without a bid, or with one that does not parse, is skipped |
| Market.ParsedBidsSingle | api.py:73-78 | one item contributes its bid when it parses and nothing otherwise |
| Market.ParsedBidsBound | api.py:71-78 | no more bids are kept than there are items |
| Market.MatchedGoldOf | api.py:109-114 | the weekly and monthly gold series is non-empty exactly when the USD and XAU series are both non-empty and of one length |
| Market.YearlyGoldOf | api.py:173-182 | the yearly gold series is empty when either series is; otherwise it has the USD series' length |
| Market.YearlyGoldAgreesWithMatched | api.py:174-182 | for equal lengths the yearly series equals the weekly one; otherwise entry i is `round(xau[i] * usd[i] / 31.1035, 2)` where the XAU series has an entry, and None past its end |
| Market.MatchedGold | api.py:109-117 | the weekly loop computes `MatchedGoldOf` |
| Market.YearlyGold | api.py:173-182 | the yearly loop computes `YearlyGoldOf` |
| Market.SeriesDict | api.py:98-121 | a series dict has the three keys with the period's suffix |
| Market.Weekly | api.py:98-121 | `haftalik_veri` computes `WeeklyOf` |
| Market.Monthly | api.py:130-154 | `aylik_veri` computes `MonthlyOf` |
| Market.Yearly | api.py:162-186 | `yillik_veri` computes `YearlyOf` |
| Market.YearlyServesRiskAssets | api.py:162-186 | the yearly dict has the three keys the risk analysis looks up, and the gold series has the USD series' length when both series are non-empty |
| Wallet.Lookup | app.py:87 | an asset is found in a loaded dict exactly when it is one of its keys |
| Wallet.LookupAll | db.py:77-92 | looking an asset up in the full load gives its reported row, or nothing |
| Wallet.LookupLoaded | app.py:135-137 | looking an asset up in what is loaded for it gives its reported row, or nothing when it has none |
| Wallet.PurchaseKeepsTotalCost | app.py:87-98 | a purchase adds the quantities and keeps the total cost: quantity times unit cost afterwards is the old total plus what was paid; a first purchase costs its price |
| Wallet.PurchaseCostBetween | app.py:92-94 | when buying more, the new unit cost lies between the old cost and the price |
| Wallet.AddToWallet | app.py:79-104 | nothing is saved when the quantity is falsy, the purchase price is None or a sale price is given; a combined quantity of 0 raises; otherwise the row is upserted with the combined quantity and weighted-average cost |
| Wallet.SaleProfitChargesWholeHolding | app.py:149-155 | the profit/loss recorded is the proceeds less the cost of the whole prior holding; the row is sold out exactly when all of it is sold |
| Wallet.SaleLeavesPositiveRemainder | app.py:146-160 | a partial sale leaves a positive remainder, a sell-out sells exactly the holding, and an insufficient sale asks for more than is held |
| Wallet.RemoveWallet | app.py:134-163 | an absent asset, a missing sale price or too large a quantity change nothing; selling all deletes the row; otherwise only the quantity and profit/loss change |
| Wallet.AccumulateDefined | app.py:114-127 | a sum over the rows is defined exactly when every row's price is |
| Wallet.UnrealisedIsValueLessCost | app.py:168-189 | the unrealised profit/loss is defined exactly when the valuation is, and is the valuation less the cost basis |
| Wallet.MarketRatesPriceEveryWallet | app.py:114-127 | with the rates of the market service every wallet has a valuation and an unrealised profit/loss |
| Wallet.ValuationWithoutRates | app.py:117-124 | with the error dict only a wallet holding no Dolar, Euro or Altın can be valued |
| Wallet.SumRows | app.py:114-127 | the summing loop computes `Accumulate` |
| Wallet.CalculateAsset | app.py:109-129 | the wallet's value is the sum of quantity times price over every row, TL at 1 and Dolar, Euro, Altın at their bid rates |
| Wallet.KarZararAnlik | app.py:168-189 | the unrealised profit/loss of an asset sums `miktar * price - maliyet * miktar` over what is loaded for it |
| Wallet.RiskEntriesSound | app.py:469-488 | every risk input is under USD, EUR or Gold_Gram_TL, comes from a Dolar, Euro or Altın row whose rate is present, and is that row's quantity times its bid rate; TL never appears |
| Wallet.RiskEntriesComplete | app.py:469-488 | every Dolar, Euro or Altın row with a present rate contributes its TL value |
| Wallet.RiskAssetInjective | app.py:473-481 | different wallet assets map to different risk keys |
| Wallet.RiskKeyOrigin | app.py:487-488 | every risk key comes from some wallet row |
| Wallet.RiskEntriesDistinct | app.py:469-488 | a wallet without repeated assets gives risk inputs without repeated keys |
| Wallet.RiskInputsFitPipeline | app.py:463-493 | the risk inputs are a wallet the risk analysis accepts |
| Wallet.RiskInputs | app.py:463-488 | the mapping loop computes `RiskInputsOf` on the full load |
| Wallet.RiskAnalysisCall | app.py:491-493 | the analysis is called exactly when the risk inputs are non-empty, on those inputs, and a call never ends in the empty-wallet error |

## Left out

- Floating point is modelled as exact reals. Two consequences:
  - The VaR index is computed exactly. For 10000 trials at 95 % the program's float product `(1 - 0.95) * 10000` is 500.00000000000045, so `int()` gives 500, the same index as the model; other confidence levels and trial counts can round to a neighbouring index that the model does not reproduce.
  - The model does not capture accumulated rounding in sums and products.
- Pandas' NaN is `None`. `max(0.0, NaN)` is taken to be `0.0`.
- Metrics.RankByVolatility: a NaN volatility is ranked as 0.0. Python's `sorted` with a NaN key gives an order that depends on the NaN's position; this is not modelled.
- Returns.LogReturn: a zero previous price (`inf` or NaN in numpy) counts as a missing return.
- Fitting.ChiTerm: the expected frequency is the oracle's value, a real. NaN terms, which `nansum` would drop, need a NaN CDF value and are not modelled. A zero denominator is modelled: its term is +inf.
- Unknown family names: `getattr(stats, name)` for a name scipy lacks would raise. The candidate list is fixed to norm, t and laplace, so this is not modelled.
- `yillik_veri_cek` (riskanaliz.py:66-83), all `requests.get` calls and the Flask routes are network I/O. Their answers are inputs: `YearlyData`, `QuoteResponse`, `DailyReply`, `ExchangeRates`.
- Randomness: `np.random.normal` and `rvs` draws are inputs (`Draws`). Reproducibility cannot be expressed.
- The Streamlit UI is not modelled: rendering, charts, the help panel, session state and `display_wallet`. Neither is the `main` gate on a positive wallet value (app.py:454). Only the mapping loop (app.py:463-488) and the call of the analysis when its inputs are non-empty (app.py:491-493, `Wallet.RiskAnalysisCall`) are modelled.
- SQLite mechanics are not modelled: connect, commit and close. Neither is the `finally: if conn` path, where `conn` may be unbound (db.py:100-111, 117-128), nor the `except` branch of `empty_wallet`, which needs a database failure (db.py:146-148).
- Full-scan order: SQLite does not promise one, so the model takes it to be insertion order.
- Printing and the `__main__` blocks (riskanaliz.py:453-454, api.py:195-197) are not modelled.
- Market.MarketData: the quote fields are taken as already converted to floats, so a `float()` that raises `ValueError` is not modelled.
- Market.ParsedBids: an item of the daily answer is modelled only as having a `bid` entry or not. A list item that is not a dict (`'bid' in item` on a string) is not modelled.
- Market.GramGold: `round(x, 2)` is an oracle. The weekly and monthly `except` branch that appends None is not modelled, because a product of floats already in the lists does not raise.
- Wallet.CalculateAsset: the `price is not None` check is always true for the prices read, so it is not modelled. A rate missing from the error dict (`KeyError`) propagates as None.
- Wallet.KarZararAnlik: the source asks the market service for the rates once per row; the model uses one answer for all rows.
- The day counts 7, 30 and 360 of the market series only form the request URL, so they are not modelled.
- Pipeline.RunFromFrame: the warning printed when some volatility is not positive (riskanaliz.py:392-393) changes nothing, so it is not modelled.

/** The risk analysis pipeline (`risk_analiz_yap`): from the wallet's TL values and the
    yearly price history to VaR, CVaR, the volatility ranking and the suggestions, with
    every early exit the function has. The iteration order of the wallet's key set is not
    fixed by Python, so it is an input (`order`); it orders the price dict, the log-return
    columns and the rows of the factor matrix, while the simulation walks the assets in
    the wallet dict's own order. */
module Pipeline {
  import opened Common
  import opened Fitting
  import opened Returns
  import opened Correlation
  import opened MonteCarlo
  import opened Metrics

  const NumSimulations: nat := 10000
  const NumDays: nat := 7
  const ConfidenceLevel: real := 0.95

  /** What `yillik_veri_cek` returns: the error dict, or the yearly series by key. */
  datatype YearlyData = FetchError(message: string) | Fetched(series: map<string, Series>)

  /** The numerical library calls the pipeline makes, and whether `arch` imported. */
  datatype Oracles = Oracles(
    ln: real -> real,
    sqrt: real -> real,
    evaluate: Evaluator,
    garchAvailable: bool,
    garch: seq<real> -> Option<real>,
    pearson: Pearson,
    cholesky: Cholesky,
    exp: real -> Option<real>)

  /** The `{"error": ...}` results. */
  datatype Failure =
    | NonPositiveValue
    | EmptyWallet
    | FetchFailed(message: string)
    | NoValidPrices(missing: set<string>)
    | LogReturnFailure
    | KeyMismatch
    | NoDrift
    | NoVolatility
    | NoCovariance
    | NoSimulation

  /** The exceptions that escape `risk_analiz_yap`. */
  datatype Escape =
    | UnboundFactor                  // the Cholesky handler reads an unbound `L`
    | SimulationError(error: SimError)
    | IndexOutOfRange                // `sorted_values[index]` in `var_hesapla`

  /** The results dict. */
  datatype Report = Report(
    initialValue: real,
    valueAtRisk: real,
    conditionalValueAtRisk: real,
    ranking: seq<Entry>,
    suggestions: Suggestions)

  datatype Outcome = Failed(failure: Failure) | Escaped(escape: Escape) | Done(report: Report)

  /** The wallet: `initial_asset_values` as its items, and `order` the iteration order of
      its key set. */
  ghost predicate WalletShape(holdings: seq<(string, real)>, order: seq<string>)
  {
    Distinct(KeysOf(holdings)) && Distinct(order) && forall k :: k in order <==> k in KeysOf(holdings)
  }

  /** `set(xs)`. */
  function SetOf(xs: seq<string>): (r: set<string>)
    ensures forall k :: k in r <==> k in xs
  {
    if xs == [] then {} else {xs[0]} + SetOf(xs[1..])
  }

  /** `prices_dict`: every wallet asset's yearly series under the key with a "y" suffix,
      the empty list when it is missing. */
  function PricesOf(order: seq<string>, series: map<string, Series>): (prices: map<string, Series>)
    ensures forall k :: k in prices <==> k in order
  {
    map k | k in order :: Get(series, k + "y", [])
  }

  /** The keys of `valid_prices`, in order: the assets with at least two prices. */
  function ValidAssets(order: seq<string>, prices: map<string, Series>): (v: seq<string>)
    requires forall k :: k in order ==> k in prices
    ensures forall k :: k in v <==> k in order && |prices[k]| > 1
    ensures Distinct(order) ==> Distinct(v)
  {
    if order == [] then []
    else (if |prices[order[0]]| > 1 then [order[0]] else []) + ValidAssets(order[1..], prices)
  }

  /** `min(len(prices) for prices in valid_prices.values())`. */
  function MinLength(valid: seq<string>, prices: map<string, Series>): (m: nat)
    requires valid != [] && forall k :: k in valid ==> k in prices && |prices[k]| > 1
    ensures m >= 2
    ensures forall k :: k in valid ==> m <= |prices[k]|
    ensures exists k :: k in valid && m == |prices[k]|
  {
    if |valid| == 1 then |prices[valid[0]]|
    else
      var rest := MinLength(valid[1..], prices);
      if |prices[valid[0]]| <= rest then |prices[valid[0]]| else rest
  }

  /** `aligned_prices_dict`: every valid series cut to its first `minLen` prices. */
  function Aligned(valid: seq<string>, prices: map<string, Series>, minLen: nat): (a: map<string, Series>)
    requires forall k :: k in valid ==> k in prices && minLen <= |prices[k]|
    ensures forall k :: k in a <==> k in valid
    ensures forall k :: k in a ==> a[k] == prices[k][..minLen]
  {
    map k | k in valid :: prices[k][..minLen]
  }

  /** `varlik_dagilimlari`: the best fit of every column's present log returns. */
  function FitsOf(f: Frame, evaluate: Evaluator): map<string, Option<Fit>>
  {
    map k | k in f.data :: BestFit(Present(f.data[k]), Candidates, evaluate)
  }

  /** `wallet_volatility`: every wallet asset, in wallet order, with `volatility.get(asset, 0.0)`. */
  function WalletVolatility(holdings: seq<(string, real)>, vol: map<string, Option<real>>): (w: seq<Entry>)
    ensures |w| == |holdings|
  {
    seq(|holdings|, i requires 0 <= i < |holdings| => (holdings[i].0, Get(vol, holdings[i].0, Some(0.0))))
  }

  /** `risk_analiz_yap` as a value. */
  function RiskAnalysis(holdings: seq<(string, real)>, order: seq<string>, yearly: YearlyData, o: Oracles, draws: Draws): Outcome
    requires WalletShape(holdings, order)
  {
    var initial := Sum(ValuesOf(holdings));
    if initial <= 0.0 then Failed(NonPositiveValue)
    else if |order| == 0 then Failed(EmptyWallet)
    else
      match yearly
      case FetchError(message) => Failed(FetchFailed(message))
      case Fetched(series) => FromPrices(holdings, order, PricesOf(order, series), o, draws)
  }

  /** From `prices_dict` to the aligned prices. */
  function FromPrices(holdings: seq<(string, real)>, order: seq<string>, prices: map<string, Series>, o: Oracles, draws: Draws): (r: Outcome)
    requires WalletShape(holdings, order)
    requires forall k :: k in prices <==> k in order
    ensures r.Failed? ==> !r.failure.NonPositiveValue? && !r.failure.EmptyWallet? && !r.failure.FetchFailed?
  {
    var valid := ValidAssets(order, prices);
    if |valid| == 0 then Failed(NoValidPrices(SetOf(order)))
    else FromAligned(holdings, order, valid, Aligned(valid, prices, MinLength(valid, prices)), o, draws)
  }

  /** From the aligned prices to the log-return DataFrame, with the checks on the way. */
  function FromAligned(holdings: seq<(string, real)>, order: seq<string>, valid: seq<string>, aligned: map<string, Series>, o: Oracles, draws: Draws): (r: Outcome)
    ensures r.Failed? ==> r.failure in {LogReturnFailure, KeyMismatch, NoDrift, NoVolatility, NoCovariance, NoSimulation}
  {
    var logs := LogReturnsOf(aligned, o.ln);
    if |logs| == 0 || logs.Keys != aligned.Keys then Failed(LogReturnFailure)
    else if logs.Keys != (SetOf(order)) then Failed(KeyMismatch)
    else FromFrame(holdings, Frame(valid, logs), o, draws)
  }

  /** From the log-return DataFrame to the covariance factor. */
  function FromFrame(holdings: seq<(string, real)>, frame: Frame, o: Oracles, draws: Draws): (r: Outcome)
    ensures r.Failed? ==> r.failure in {NoDrift, NoVolatility, NoCovariance, NoSimulation}
  {
    var drift := Drift(frame);
    if !AnyTruthy(drift) then Failed(NoDrift)
    else
      var vol := ChooseVolatility(o.garchAvailable, GarchOf(frame, o.garchAvailable, o.garch), SampleVolatility(frame, o.sqrt));
      if !AnyTruthy(vol) then Failed(NoVolatility)
      else
        match CovarianceFactor(frame, vol, o.pearson, o.cholesky)
        case FactorRaised => Escaped(UnboundFactor)
        case Factor(l) => FromFactor(Setup(holdings, drift, vol, l, FitsOf(frame, o.evaluate), draws, o.exp))
  }

  /** From the factor to the simulated portfolio values. */
  function FromFactor(c: Setup): (r: Outcome)
    ensures r.Failed? ==> r.failure == NoCovariance || r.failure == NoSimulation
  {
    if |c.factor| == 0 then Failed(NoCovariance)
    else
      match Simulate(c, NumSimulations, NumDays)
      case SimRaised(e) => Escaped(SimulationError(e))
      case Values(values) => if values == [] then Failed(NoSimulation) else FromValues(c.holdings, c.vol, values)
  }

  /** From the simulated values to the report. */
  function FromValues(holdings: seq<(string, real)>, vol: map<string, Option<real>>, values: seq<real>): (r: Outcome)
    ensures r.Done? || r == Escaped(IndexOutOfRange)
  {
    var initial := Sum(ValuesOf(holdings));
    match RiskMetrics(values, initial, ConfidenceLevel)
    case None => Escaped(IndexOutOfRange)
    case Some(figures) =>
      var ranking := RankByVolatility(WalletVolatility(holdings, vol));
      Done(Report(initial, figures.valueAtRisk, figures.conditionalValueAtRisk, ranking, Suggest(ranking)))
  }

  /** `risk_analiz_yap`: the loops over the wallet keys and over the DataFrame columns,
      and the calls into the verified steps. */
  method RunRiskAnalysis(holdings: seq<(string, real)>, order: seq<string>, yearly: YearlyData, o: Oracles, draws: Draws) returns (out: Outcome)
    requires WalletShape(holdings, order)
    ensures out == RiskAnalysis(holdings, order, yearly, o, draws)
  {
    var initial := Sum(ValuesOf(holdings));
    if initial <= 0.0 {
      return Failed(NonPositiveValue);
    }
    if |order| == 0 {
      return Failed(EmptyWallet);
    }
    if yearly.FetchError? {
      return Failed(FetchFailed(yearly.message));
    }
    var series := yearly.series;
    var prices: map<string, Series> := map[];
    for j := 0 to |order|
      invariant forall k :: k in prices <==> k in order[..j]
      invariant forall k :: k in prices ==> prices[k] == Get(series, k + "y", [])
    {
      var key := order[j];
      prices := prices[key := Get(series, key + "y", [])];
      assert order[..j + 1] == order[..j] + [key];
    }
    assert order[..|order|] == order;
    assert prices == PricesOf(order, series);
    out := RunFromPrices(holdings, order, prices, o, draws);
  }

  method RunFromPrices(holdings: seq<(string, real)>, order: seq<string>, prices: map<string, Series>, o: Oracles, draws: Draws) returns (out: Outcome)
    requires WalletShape(holdings, order)
    requires forall k :: k in prices <==> k in order
    ensures out == FromPrices(holdings, order, prices, o, draws)
  {
    var valid := ValidAssets(order, prices);
    if |valid| == 0 {
      return Failed(NoValidPrices(SetOf(order)));
    }
    var aligned := Aligned(valid, prices, MinLength(valid, prices));
    var logs := LogReturns(valid, aligned, o.ln);
    if |logs| == 0 || logs.Keys != aligned.Keys {
      return Failed(LogReturnFailure);
    }
    var frame := Frame(valid, logs);
    var fits := FitAll(frame, o.evaluate);
    if logs.Keys != (SetOf(order)) {
      return Failed(KeyMismatch);
    }
    out := RunFromFrame(holdings, frame, fits, o, draws);
  }

  /** The loop over the DataFrame columns that fills `varlik_dagilimlari`. */
  method FitAll(frame: Frame, evaluate: Evaluator) returns (fits: map<string, Option<Fit>>)
    requires Enumerates(frame.columns, frame.data)
    ensures fits == FitsOf(frame, evaluate)
  {
    fits := map[];
    for j := 0 to |frame.columns|
      invariant forall k :: k in fits <==> k in frame.columns[..j]
      invariant forall k :: k in fits ==> fits[k] == BestFit(Present(frame.data[k]), Candidates, evaluate)
    {
      var asset := frame.columns[j];
      var best := FindBestDistribution(Present(frame.data[asset]), Candidates, evaluate);
      fits := fits[asset := best];
      assert frame.columns[..j + 1] == frame.columns[..j] + [asset];
    }
    assert frame.columns[..|frame.columns|] == frame.columns;
    assert forall k :: k in fits <==> k in frame.data;
  }

  method RunFromFrame(holdings: seq<(string, real)>, frame: Frame, fits: map<string, Option<Fit>>, o: Oracles, draws: Draws) returns (out: Outcome)
    requires Enumerates(frame.columns, frame.data)
    requires fits == FitsOf(frame, o.evaluate)
    ensures out == FromFrame(holdings, frame, o, draws)
  {
    var drift := Drift(frame);
    if !AnyTruthy(drift) {
      return Failed(NoDrift);
    }
    var g: map<string, real> := map[];
    if o.garchAvailable {
      g := GarchVolatility(frame, true, o.garch);
    }
    var vol := ChooseVolatility(o.garchAvailable, g, SampleVolatility(frame, o.sqrt));
    if !AnyTruthy(vol) {
      return Failed(NoVolatility);
    }
    var factor := CovarianceFactor(frame, vol, o.pearson, o.cholesky);
    if factor.FactorRaised? {
      return Escaped(UnboundFactor);
    }
    out := RunFromFactor(Setup(holdings, drift, vol, factor.l, fits, draws, o.exp));
  }

  method RunFromFactor(c: Setup) returns (out: Outcome)
    ensures out == FromFactor(c)
  {
    if |c.factor| == 0 {
      return Failed(NoCovariance);
    }
    var sim := RunSimulation(c, NumSimulations, NumDays);
    if sim.SimRaised? {
      return Escaped(SimulationError(sim.error));
    }
    if sim.values == [] {
      return Failed(NoSimulation);
    }
    return FromValues(c.holdings, c.vol, sim.values);
  }

  // ---------------------------------------------------------------- properties

  /** The number of yearly prices of a wallet asset. */
  function PriceCount(series: map<string, Series>, asset: string): nat
  {
    |Get(series, asset + "y", [])|
  }

  /** A positive portfolio value needs at least one asset, so the empty-wallet check
      never fires. */
  lemma EmptyWalletUnreachable(holdings: seq<(string, real)>, order: seq<string>, yearly: YearlyData, o: Oracles, draws: Draws)
    requires WalletShape(holdings, order)
    ensures RiskAnalysis(holdings, order, yearly, o, draws) != Failed(EmptyWallet)
  {
    if holdings == [] {
      assert ValuesOf(holdings) == [];
    } else {
      assert KeysOf(holdings)[0] in KeysOf(holdings);
    }
  }

  /** After alignment every valid asset has at least two prices, so every one of them
      gets a log-return series. */
  lemma AlignedLogReturnsCover(valid: seq<string>, prices: map<string, Series>, ln: real -> real)
    requires valid != [] && forall k :: k in valid ==> k in prices && |prices[k]| > 1
    ensures var aligned := Aligned(valid, prices, MinLength(valid, prices));
      |LogReturnsOf(aligned, ln)| > 0 && LogReturnsOf(aligned, ln).Keys == aligned.Keys
  {
    var aligned := Aligned(valid, prices, MinLength(valid, prices));
    var logs := LogReturnsOf(aligned, ln);
    assert valid[0] in logs;
    assert logs.Keys == aligned.Keys;
  }

  /** Once the value is positive and the prices arrived, the run continues with the
      price dict built from the yearly series. */
  lemma FetchedContinuesWithPrices(holdings: seq<(string, real)>, order: seq<string>, series: map<string, Series>, o: Oracles, draws: Draws)
    requires WalletShape(holdings, order) && Sum(ValuesOf(holdings)) > 0.0
    ensures RiskAnalysis(holdings, order, Fetched(series), o, draws) == FromPrices(holdings, order, PricesOf(order, series), o, draws)
  {
    EmptyWalletUnreachable(holdings, order, Fetched(series), o, draws);
  }

  /** The price stage stops for want of prices exactly when no asset has two prices,
      and then names every asset of the key set. */
  lemma FromPricesStopsForPrices(holdings: seq<(string, real)>, order: seq<string>, prices: map<string, Series>, o: Oracles, draws: Draws)
    requires WalletShape(holdings, order)
    requires forall k :: k in prices <==> k in order
    ensures var r := FromPrices(holdings, order, prices, o, draws);
      (r.Failed? && r.failure.NoValidPrices?) <==> forall k :: k in order ==> |prices[k]| <= 1
    ensures var r := FromPrices(holdings, order, prices, o, draws);
      r.Failed? && r.failure.NoValidPrices? ==> r.failure.missing == SetOf(order)
  {
    var valid := ValidAssets(order, prices);
    if |valid| > 0 {
      assert valid[0] in order && |prices[valid[0]]| > 1;
    } else {
      forall k | k in order
        ensures |prices[k]| <= 1
      {
        assert k !in valid;
      }
    }
  }

  /** The run stops for want of prices exactly when no wallet asset has two yearly
      prices, and it then reports every wallet asset as missing. */
  lemma NoValidPricesExactly(holdings: seq<(string, real)>, order: seq<string>, series: map<string, Series>, o: Oracles, draws: Draws)
    requires WalletShape(holdings, order) && Sum(ValuesOf(holdings)) > 0.0
    ensures var r := RiskAnalysis(holdings, order, Fetched(series), o, draws);
      (r.Failed? && r.failure.NoValidPrices?) <==> forall k :: k in order ==> PriceCount(series, k) <= 1
    ensures var r := RiskAnalysis(holdings, order, Fetched(series), o, draws);
      r.Failed? && r.failure.NoValidPrices? ==> r.failure.missing == SetOf(KeysOf(holdings))
  {
    FetchedContinuesWithPrices(holdings, order, series, o, draws);
    FromPricesStopsForPrices(holdings, order, PricesOf(order, series), o, draws);
    SameSet(order, KeysOf(holdings));
    PricesCounted(order, series);
  }

  lemma SameSet(a: seq<string>, b: seq<string>)
    requires forall k :: k in a <==> k in b
    ensures SetOf(a) == SetOf(b)
  {
  }

  lemma PricesCounted(order: seq<string>, series: map<string, Series>)
    ensures forall k :: k in order ==> |PricesOf(order, series)[k]| == PriceCount(series, k)
  {
  }

  /** With a valid asset, the price stage hands the aligned prices on. */
  lemma FromPricesAligns(holdings: seq<(string, real)>, order: seq<string>, prices: map<string, Series>, o: Oracles, draws: Draws)
    requires WalletShape(holdings, order)
    requires forall k :: k in prices <==> k in order
    requires ValidAssets(order, prices) != []
    ensures var valid := ValidAssets(order, prices);
      FromPrices(holdings, order, prices, o, draws) == FromAligned(holdings, order, valid, Aligned(valid, prices, MinLength(valid, prices)), o, draws)
  {
  }

  /** The price stage never fails on the log returns. */
  lemma FromPricesNoLogReturnFailure(holdings: seq<(string, real)>, order: seq<string>, prices: map<string, Series>, o: Oracles, draws: Draws)
    requires WalletShape(holdings, order)
    requires forall k :: k in prices <==> k in order
    ensures FromPrices(holdings, order, prices, o, draws) != Failed(LogReturnFailure)
  {
    var valid := ValidAssets(order, prices);
    if |valid| > 0 {
      var aligned := Aligned(valid, prices, MinLength(valid, prices));
      FromPricesAligns(holdings, order, prices, o, draws);
      AlignedLogReturnsCover(valid, prices, o.ln);
      FromAlignedKeyMismatch(holdings, order, valid, aligned, o, draws);
    }
  }

  /** Every valid series is cut to the shortest one, so every price dict entry has at
      least two prices and the log-return check never fires. */
  lemma LogReturnFailureUnreachable(holdings: seq<(string, real)>, order: seq<string>, yearly: YearlyData, o: Oracles, draws: Draws)
    requires WalletShape(holdings, order)
    ensures RiskAnalysis(holdings, order, yearly, o, draws) != Failed(LogReturnFailure)
  {
    if yearly.Fetched? && Sum(ValuesOf(holdings)) > 0.0 {
      FetchedContinuesWithPrices(holdings, order, yearly.series, o, draws);
      FromPricesNoLogReturnFailure(holdings, order, PricesOf(order, yearly.series), o, draws);
    }
  }

  /** With every aligned asset covered by a log-return series, the key check refuses
      exactly the runs whose aligned assets are not the whole key set. */
  lemma FromAlignedKeyMismatch(holdings: seq<(string, real)>, order: seq<string>, valid: seq<string>, aligned: map<string, Series>, o: Oracles, draws: Draws)
    requires |LogReturnsOf(aligned, o.ln)| > 0 && LogReturnsOf(aligned, o.ln).Keys == aligned.Keys
    ensures FromAligned(holdings, order, valid, aligned, o, draws) != Failed(LogReturnFailure)
    ensures FromAligned(holdings, order, valid, aligned, o, draws) == Failed(KeyMismatch) <==> aligned.Keys != SetOf(order)
  {
  }

  /** The aligned prices cover the whole key set exactly when every asset has two
      prices. */
  lemma AlignedCoversOrder(order: seq<string>, prices: map<string, Series>)
    requires forall k :: k in prices <==> k in order
    requires ValidAssets(order, prices) != []
    ensures var valid := ValidAssets(order, prices);
      Aligned(valid, prices, MinLength(valid, prices)).Keys == SetOf(order) <==> forall k :: k in order ==> |prices[k]| > 1
  {
    var valid := ValidAssets(order, prices);
    var aligned := Aligned(valid, prices, MinLength(valid, prices));
    if aligned.Keys == SetOf(order) {
      forall k | k in order
        ensures |prices[k]| > 1
      {
        assert k in aligned;
      }
    }
  }

  /** The price stage refuses the keys exactly when some assets have two prices and
      others do not. */
  lemma FromPricesKeyMismatch(holdings: seq<(string, real)>, order: seq<string>, prices: map<string, Series>, o: Oracles, draws: Draws)
    requires WalletShape(holdings, order)
    requires forall k :: k in prices <==> k in order
    ensures FromPrices(holdings, order, prices, o, draws) == Failed(KeyMismatch)
      <==> (exists k :: k in order && |prices[k]| > 1) && (exists k :: k in order && |prices[k]| <= 1)
  {
    var valid := ValidAssets(order, prices);
    if |valid| > 0 {
      var aligned := Aligned(valid, prices, MinLength(valid, prices));
      FromPricesAligns(holdings, order, prices, o, draws);
      AlignedLogReturnsCover(valid, prices, o.ln);
      FromAlignedKeyMismatch(holdings, order, valid, aligned, o, draws);
      AlignedCoversOrder(order, prices);
      assert valid[0] in order && |prices[valid[0]]| > 1;
    } else {
      FromPricesStopsForPrices(holdings, order, prices, o, draws);
    }
  }

  /** The run stops on mismatched keys exactly when some wallet asset has two yearly
      prices and another has fewer: the assets without history are dropped from the
      log returns, and the key check then refuses the run. */
  lemma KeyMismatchExactly(holdings: seq<(string, real)>, order: seq<string>, series: map<string, Series>, o: Oracles, draws: Draws)
    requires WalletShape(holdings, order) && Sum(ValuesOf(holdings)) > 0.0
    ensures RiskAnalysis(holdings, order, Fetched(series), o, draws) == Failed(KeyMismatch)
      <==> (exists k :: k in order && PriceCount(series, k) > 1) && (exists k :: k in order && PriceCount(series, k) <= 1)
  {
    var prices := PricesOf(order, series);
    FetchedContinuesWithPrices(holdings, order, series, o, draws);
    FromPricesKeyMismatch(holdings, order, prices, o, draws);
    assert forall k :: k in order ==> |prices[k]| == PriceCount(series, k);
  }

  /** The drift check stops the run exactly when no mean is NaN or non-zero; after it
      the volatility check stops the run exactly when no chosen volatility is NaN or
      non-zero. */
  lemma FromFrameGuards(holdings: seq<(string, real)>, frame: Frame, o: Oracles, draws: Draws)
    ensures FromFrame(holdings, frame, o, draws) == Failed(NoDrift) <==> !AnyTruthy(Drift(frame))
    ensures var vol := ChooseVolatility(o.garchAvailable, GarchOf(frame, o.garchAvailable, o.garch), SampleVolatility(frame, o.sqrt));
      FromFrame(holdings, frame, o, draws) == Failed(NoVolatility) <==> AnyTruthy(Drift(frame)) && !AnyTruthy(vol)
  {
  }

  /** An asset whose fit found no family does not fall back to normal draws: the first
      day of the first trial raises. */
  lemma UnfittedAssetEscapes(c: Setup, i: nat)
    requires |c.holdings| > 0 && |c.factor| == |c.holdings|
    requires i < |c.holdings| && Unfitted(c, i)
    ensures FromFactor(c) == Escaped(SimulationError(NoFamily))
  {
    UnfittedAssetRaises(c, NumSimulations, NumDays, i);
  }

  /** The tail index of 10000 simulations at 95% confidence is 500. */
  lemma PipelineTailIndex()
    ensures TailIndex(ConfidenceLevel, NumSimulations) == 500
  {
    assert (1.0 - 0.95) * 10000 as real == 500.0;
  }

  /** With every asset fitted and a square factor, nothing after the factorization can
      stop the run: the simulation yields its 10000 values, VaR is defined, and the
      report's expected shortfall is at least its VaR. */
  lemma SteppableSetupReachesReport(c: Setup)
    requires |c.holdings| > 0 && Steppable(c)
    ensures FromFactor(c).Done?
    ensures FromFactor(c).report.valueAtRisk >= 0.0
    ensures FromFactor(c).report.conditionalValueAtRisk >= FromFactor(c).report.valueAtRisk
    ensures FromFactor(c).report.initialValue == Sum(ValuesOf(c.holdings))
  {
    var r := Simulate(c, NumSimulations, NumDays);
    assert r.Values? && |r.values| == NumSimulations;
    var initial := Sum(ValuesOf(c.holdings));
    PipelineTailIndex();
    ValueAtRiskDefined(r.values, initial, ConfidenceLevel);
    ConditionalValueAtRiskAtLeastValueAtRisk(r.values, initial, ConfidenceLevel);
  }

  /** A report is only produced when every asset was fitted and the factor matches the
      assets: the other cases raise or stop. */
  lemma ReportNeedsFittedAssets(c: Setup)
    requires FromFactor(c).Done?
    ensures |c.holdings| > 0 && Steppable(c)
  {
  }

  /** A frame with one column per asset and a shape-preserving factorization give a
      factor that conforms to the assets, so the simulation never meets a row of the
      wrong length. */
  lemma FromFrameNoShapeMismatch(holdings: seq<(string, real)>, frame: Frame, o: Oracles, draws: Draws)
    requires ShapePreserving(o.cholesky) && |frame.columns| == |holdings|
    ensures FromFrame(holdings, frame, o, draws) != Escaped(SimulationError(ShapeMismatch))
  {
    var drift := Drift(frame);
    var vol := ChooseVolatility(o.garchAvailable, GarchOf(frame, o.garchAvailable, o.garch), SampleVolatility(frame, o.sqrt));
    if AnyTruthy(drift) && AnyTruthy(vol) {
      var factor := CovarianceFactor(frame, vol, o.pearson, o.cholesky);
      if factor.Factor? {
        var c := Setup(holdings, drift, vol, factor.l, FitsOf(frame, o.evaluate), draws, o.exp);
        assert FromFrame(holdings, frame, o, draws) == FromFactor(c);
        FactorIsSquare(frame, vol, o.pearson, o.cholesky);
        assert Conformable(c);
        ConformingFactorNoShapeMismatch(c);
      }
    }
  }

  /** A factor whose rows all have one entry per asset never trips the shape check. */
  lemma ConformingFactorNoShapeMismatch(c: Setup)
    requires Conformable(c)
    ensures FromFactor(c) != Escaped(SimulationError(ShapeMismatch))
  {
  }

  /** The log-return columns that pass the key check are exactly the wallet's assets,
      so with a factorization that keeps the shape of its input, `mcs_yap`'s shape error
      is never reached from the analysis. */
  lemma ShapeMismatchUnreachable(holdings: seq<(string, real)>, order: seq<string>, yearly: YearlyData, o: Oracles, draws: Draws)
    requires WalletShape(holdings, order) && ShapePreserving(o.cholesky)
    ensures RiskAnalysis(holdings, order, yearly, o, draws) != Escaped(SimulationError(ShapeMismatch))
  {
    if yearly.Fetched? && Sum(ValuesOf(holdings)) > 0.0 {
      FetchedContinuesWithPrices(holdings, order, yearly.series, o, draws);
      var prices := PricesOf(order, yearly.series);
      var valid := ValidAssets(order, prices);
      if |valid| > 0 {
        var aligned := Aligned(valid, prices, MinLength(valid, prices));
        FromPricesAligns(holdings, order, prices, o, draws);
        var logs := LogReturnsOf(aligned, o.ln);
        if |logs| > 0 && logs.Keys == aligned.Keys && logs.Keys == SetOf(order) {
          assert forall k :: k in valid <==> k in order;
          SameElementsSameLength(valid, order);
          SameElementsSameLength(order, KeysOf(holdings));
          FromFrameNoShapeMismatch(holdings, Frame(valid, logs), o, draws);
        }
      }
    }
  }

  /** At the fixed confidence of 0.95 the VaR index of a non-empty list of values is in
      range, so the stage after the simulation always reports. */
  lemma FromValuesReports(holdings: seq<(string, real)>, vol: map<string, Option<real>>, values: seq<real>)
    requires values != []
    ensures FromValues(holdings, vol, values).Done?
  {
    ValueAtRiskDefined(values, Sum(ValuesOf(holdings)), ConfidenceLevel);
  }

  /** `var_hesapla`'s index error is never reached from the analysis: the simulation
      hands on values only when there are some. */
  lemma IndexOutOfRangeUnreachable(holdings: seq<(string, real)>, order: seq<string>, yearly: YearlyData, o: Oracles, draws: Draws)
    requires WalletShape(holdings, order)
    ensures RiskAnalysis(holdings, order, yearly, o, draws) != Escaped(IndexOutOfRange)
  {
    if yearly.Fetched? && Sum(ValuesOf(holdings)) > 0.0 {
      FetchedContinuesWithPrices(holdings, order, yearly.series, o, draws);
      var prices := PricesOf(order, yearly.series);
      var valid := ValidAssets(order, prices);
      if |valid| > 0 {
        var aligned := Aligned(valid, prices, MinLength(valid, prices));
        FromPricesAligns(holdings, order, prices, o, draws);
        var logs := LogReturnsOf(aligned, o.ln);
        if |logs| > 0 && logs.Keys == aligned.Keys && logs.Keys == SetOf(order) {
          FromFrameNoIndexError(holdings, Frame(valid, logs), o, draws);
        }
      }
    }
  }

  lemma FromFrameNoIndexError(holdings: seq<(string, real)>, frame: Frame, o: Oracles, draws: Draws)
    ensures FromFrame(holdings, frame, o, draws) != Escaped(IndexOutOfRange)
  {
    var drift := Drift(frame);
    var vol := ChooseVolatility(o.garchAvailable, GarchOf(frame, o.garchAvailable, o.garch), SampleVolatility(frame, o.sqrt));
    if AnyTruthy(drift) && AnyTruthy(vol) {
      var factor := CovarianceFactor(frame, vol, o.pearson, o.cholesky);
      if factor.Factor? {
        var c := Setup(holdings, drift, vol, factor.l, FitsOf(frame, o.evaluate), draws, o.exp);
        assert FromFrame(holdings, frame, o, draws) == FromFactor(c);
        FromFactorNoIndexError(c);
      }
    }
  }

  lemma FromFactorNoIndexError(c: Setup)
    ensures FromFactor(c) != Escaped(IndexOutOfRange)
  {
    if |c.factor| != 0 {
      var r := Simulate(c, NumSimulations, NumDays);
      if r.Values? && r.values != [] {
        FromValuesReports(c.holdings, c.vol, r.values);
      }
    }
  }
}

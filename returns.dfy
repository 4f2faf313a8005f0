/** Log returns, drift, sample volatility and the GARCH volatility decision
    (`log_getiri_hesapla`, `drift_hesapla`, `volalite_hesapla`, `garch_volalite_hesapla`
    and the strategy choice in `risk_analiz_yap`). A column of the log-return DataFrame
    is a `Series`, a sequence of optional reals where None is NaN. `ln`, `sqrt` and the
    GARCH(1,1) fit are oracles passed in as functions. */
module Returns {
  import opened Common

  type Series = seq<Option<real>>

  /** The log-return DataFrame: its column order and its columns. */
  datatype Frame = Frame(columns: seq<string>, data: map<string, Series>)

  /** Number of rows: the length of the first column. */
  function Height(f: Frame): nat
  {
    if |f.columns| == 0 || f.columns[0] !in f.data then 0 else |f.data[f.columns[0]]|
  }

  /** Columns listed once each, every column present, all of one length. */
  ghost predicate WellFormed(f: Frame)
  {
    Enumerates(f.columns, f.data) && forall k :: k in f.data ==> |f.data[k]| == Height(f)
  }

  /** `DataFrame.empty`: no columns or no rows. */
  predicate Empty(f: Frame)
  {
    |f.columns| == 0 || Height(f) == 0
  }

  // ---------------------------------------------------------------- log returns

  /** `np.log(p[i] / p[i-1])`; NaN when either price is missing. A zero previous price
      (an infinite ratio in floating point) is also reported as missing. */
  function LogReturn(prev: Option<real>, cur: Option<real>, ln: real -> real): Option<real>
  {
    if prev.Some? && cur.Some? && prev.value != 0.0 then Some(ln(cur.value / prev.value)) else None
  }

  /** `np.log(series / series.shift(1)).tolist()`: one entry per price, the first NaN. */
  function LogReturnSeries(p: Series, ln: real -> real): (r: Series)
    ensures |r| == |p|
    ensures |p| > 0 ==> r[0] == None
    ensures forall i :: 1 <= i < |p| ==> r[i] == LogReturn(p[i - 1], p[i], ln)
  {
    seq(|p|, i requires 0 <= i < |p| => if i == 0 then None else LogReturn(p[i - 1], p[i], ln))
  }

  /** The dict `log_getiri_hesapla` returns. */
  function LogReturnsOf(prices: map<string, Series>, ln: real -> real): map<string, Series>
  {
    map k | k in prices && |prices[k]| > 1 :: LogReturnSeries(prices[k], ln)
  }

  /** `log_getiri_hesapla`: the loop over the price dict in its key order. Assets with
      fewer than two prices are left out; every other asset keeps one entry per price,
      the first missing and entry `i` the log of the ratio of prices `i` and `i - 1`. */
  method LogReturns(order: seq<string>, prices: map<string, Series>, ln: real -> real) returns (r: map<string, Series>)
    requires Enumerates(order, prices)
    ensures r == LogReturnsOf(prices, ln)
    ensures forall k :: k in r <==> k in prices && |prices[k]| >= 2
    ensures forall k :: k in r ==> |r[k]| == |prices[k]| && r[k][0] == None
    ensures forall k, i :: k in r && 1 <= i < |r[k]| ==> r[k][i] == LogReturn(prices[k][i - 1], prices[k][i], ln)
  {
    r := map[];
    for j := 0 to |order|
      invariant forall k :: k in r <==> k in order[..j] && |prices[k]| > 1
      invariant forall k :: k in r ==> r[k] == LogReturnSeries(prices[k], ln)
    {
      var key := order[j];
      var p := prices[key];
      if |p| > 0 && |p| > 1 {
        r := r[key := LogReturnSeries(p, ln)];
      }
      assert order[..j + 1] == order[..j] + [key];
    }
    assert order[..|order|] == order;
    var spec := LogReturnsOf(prices, ln);
    assert forall k :: k in r <==> k in spec;
    assert forall k :: k in r ==> r[k] == spec[k];
    assert r == spec;
    LogReturnsOfShape(prices, ln);
  }

  /** The shape of every series in `LogReturnsOf`: the input's length, not one less. */
  lemma LogReturnsOfShape(prices: map<string, Series>, ln: real -> real)
    ensures var r := LogReturnsOf(prices, ln);
      && (forall k :: k in r ==> |r[k]| == |prices[k]| && r[k][0] == None)
      && (forall k, i :: k in r && 1 <= i < |r[k]| ==> r[k][i] == LogReturn(prices[k][i - 1], prices[k][i], ln))
  {
  }

  // ---------------------------------------------------------------- drift and sample volatility

  /** `series.dropna()`: the present values, in order. */
  function Present(s: Series): (xs: seq<real>)
    ensures |xs| <= |s|
  {
    if s == [] then []
    else if s[0].Some? then [s[0].value] + Present(s[1..])
    else Present(s[1..])
  }

  /** pandas' NaN-skipping mean; NaN when no value is present. */
  function Mean(s: Series): Option<real>
  {
    var xs := Present(s);
    if |xs| == 0 then None else Some(Sum(xs) / |xs| as real)
  }

  function SquaredDeviations(xs: seq<real>, m: real): seq<real>
  {
    seq(|xs|, i requires 0 <= i < |xs| => (xs[i] - m) * (xs[i] - m))
  }

  /** pandas' NaN-skipping sample standard deviation (ddof = 1); NaN below two values. */
  function Std(s: Series, sqrt: real -> real): Option<real>
  {
    var xs := Present(s);
    if |xs| < 2 then None
    else
      var m := Sum(xs) / |xs| as real;
      Some(sqrt(Sum(SquaredDeviations(xs, m)) / (|xs| - 1) as real))
  }

  /** `drift_hesapla`: the column means; an empty DataFrame gives an empty dict. */
  function Drift(f: Frame): map<string, Option<real>>
  {
    if Empty(f) then map[] else map k | k in f.data :: Mean(f.data[k])
  }

  /** `volalite_hesapla`: the column standard deviations. */
  function SampleVolatility(f: Frame, sqrt: real -> real): map<string, Option<real>>
  {
    if Empty(f) then map[] else map k | k in f.data :: Std(f.data[k], sqrt)
  }

  /** A column has no present value exactly when every entry is NaN. */
  lemma {:induction false} PresentEmpty(s: Series)
    ensures Present(s) == [] <==> forall i :: 0 <= i < |s| ==> s[i].None?
  {
    if s != [] {
      PresentEmpty(s[1..]);
      assert forall i :: 1 <= i < |s| ==> s[i] == s[1..][i - 1];
    }
  }

  /** An empty DataFrame gives two empty dicts; otherwise both dicts have an entry per
      column. A mean is NaN exactly when the column has no value, a standard deviation
      exactly when it has fewer than two. */
  lemma ColumnStatistics(f: Frame, sqrt: real -> real)
    ensures Empty(f) ==> Drift(f) == map[] && SampleVolatility(f, sqrt) == map[]
    ensures !Empty(f) ==> Drift(f).Keys == f.data.Keys && SampleVolatility(f, sqrt).Keys == f.data.Keys
    ensures forall k :: k in Drift(f) ==> (Drift(f)[k].None? <==> forall i :: 0 <= i < |f.data[k]| ==> f.data[k][i].None?)
    ensures forall k :: k in SampleVolatility(f, sqrt) ==> (SampleVolatility(f, sqrt)[k].None? <==> |Present(f.data[k])| < 2)
  {
    forall k | k in Drift(f)
      ensures Drift(f)[k].None? <==> forall i :: 0 <= i < |f.data[k]| ==> f.data[k][i].None?
    {
      PresentEmpty(f.data[k]);
    }
  }

  // ---------------------------------------------------------------- GARCH

  /** Fewer observations than this (or exactly this many) do not get a GARCH fit. */
  const GarchMinObservations: nat := 30

  /** The value `garch_volalite_hesapla` stores for one column: the last conditional
      volatility of the fit when there are more than 30 observations and the fit
      succeeded (`garch` returns None when it raised), otherwise 0.0. */
  function GarchValue(s: Series, garch: seq<real> -> Option<real>): real
  {
    var xs := Present(s);
    if |xs| > GarchMinObservations then
      match garch(xs)
      case Some(v) => v
      case None => 0.0
    else 0.0
  }

  /** The dict `garch_volalite_hesapla` returns. */
  function GarchOf(f: Frame, available: bool, garch: seq<real> -> Option<real>): map<string, real>
  {
    if !available || Empty(f) then map[] else map k | k in f.data :: GarchValue(f.data[k], garch)
  }

  /** No library or no data gives the empty dict; otherwise every column gets a value,
      and it is 0.0 for a short column and for a column whose fit raised. */
  lemma GarchOfDefaults(f: Frame, available: bool, garch: seq<real> -> Option<real>)
    ensures !available || Empty(f) ==> GarchOf(f, available, garch) == map[]
    ensures available && !Empty(f) ==> GarchOf(f, available, garch).Keys == f.data.Keys
    ensures forall k :: k in GarchOf(f, available, garch) && |Present(f.data[k])| <= GarchMinObservations ==> GarchOf(f, available, garch)[k] == 0.0
    ensures forall k :: k in GarchOf(f, available, garch) && garch(Present(f.data[k])).None? ==> GarchOf(f, available, garch)[k] == 0.0
  {
  }

  /** `garch_volalite_hesapla`: one fit per column, in column order. */
  method GarchVolatility(f: Frame, available: bool, garch: seq<real> -> Option<real>) returns (g: map<string, real>)
    requires Enumerates(f.columns, f.data)
    ensures g == GarchOf(f, available, garch)
  {
    g := map[];
    if !available || Empty(f) {
      return;
    }
    for j := 0 to |f.columns|
      invariant forall k :: k in g <==> k in f.columns[..j]
      invariant forall k :: k in g ==> g[k] == GarchValue(f.data[k], garch)
    {
      var asset := f.columns[j];
      var obs := Present(f.data[asset]);
      var value := 0.0;
      if |obs| > GarchMinObservations {
        var fit := garch(obs);
        if fit.Some? {
          value := fit.value;
        }
      }
      assert value == GarchValue(f.data[asset], garch);
      g := g[asset := value];
      assert f.columns[..j + 1] == f.columns[..j] + [asset];
    }
    assert f.columns[..|f.columns|] == f.columns;
    assert g.Keys == f.data.Keys;
  }

  /** Every GARCH value is usable: `all(v is not None and v > 0 ...)`. */
  predicate AllPositive(g: map<string, real>)
  {
    forall k :: k in g ==> g[k] > 0.0
  }

  /** The volatility strategy of `risk_analiz_yap`: the GARCH values are kept only when
      the library is available and every one of them is positive; otherwise every asset
      gets its sample standard deviation. */
  function ChooseVolatility(available: bool, garchVols: map<string, real>, sample: map<string, Option<real>>): (v: map<string, Option<real>>)
    ensures !(available && AllPositive(garchVols)) ==> v == sample
    ensures available && AllPositive(garchVols) ==> v.Keys == garchVols.Keys && forall k :: k in v ==> v[k] == Some(garchVols[k])
  {
    if available && AllPositive(garchVols) then map k | k in garchVols :: Some(garchVols[k])
    else sample
  }

  /** The all-or-nothing rule: one asset whose GARCH value is not positive (too short a
      history, a failed fit) puts every asset on the sample standard deviation. */
  lemma OneBadGarchValueSwitchesAll(available: bool, garchVols: map<string, real>, sample: map<string, Option<real>>, bad: string)
    requires bad in garchVols && garchVols[bad] <= 0.0
    ensures ChooseVolatility(available, garchVols, sample) == sample
  {
  }

  /** One column holding at most 30 observations is enough: the GARCH path never
      survives, and every asset gets the sample standard deviation. */
  lemma ShortHistoryUsesSampleVolatility(f: Frame, available: bool, garch: seq<real> -> Option<real>, sqrt: real -> real, k: string)
    requires WellFormed(f) && !Empty(f)
    requires k in f.data && |Present(f.data[k])| <= GarchMinObservations
    ensures ChooseVolatility(available, GarchOf(f, available, garch), SampleVolatility(f, sqrt)) == SampleVolatility(f, sqrt)
  {
    if available {
      var g := GarchOf(f, available, garch);
      assert k in g && g[k] == 0.0;
      OneBadGarchValueSwitchesAll(available, g, SampleVolatility(f, sqrt), k);
    }
  }
}

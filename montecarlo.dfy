/** The Monte Carlo simulation (`mcs_yap`): every trial starts from the initial asset
    values and moves each asset for a number of days by a geometric Brownian motion step
    driven by shocks correlated through the factor matrix; a trial's outcome is the sum
    of the final asset values. The random draws are inputs indexed by trial, day and
    asset position, so the simulation is a function of them. */
module MonteCarlo {
  import opened Common
  import opened Fitting

  /** Standard normal draws, and draws of a fitted family's `rvs` (None when `rvs` raised
      and the standard normal draw is used instead). */
  datatype Draws = Draws(normal: (nat, nat, nat) -> real, fitted: (Fit, nat, nat, nat) -> Option<real>)

  /** The exceptions that escape `mcs_yap`. */
  datatype SimError =
    | NoFamily       // `getattr(stats, None)` for an asset whose fit chose no family: TypeError
    | ShapeMismatch  // `np.dot(L, Z)` with a row of the wrong length: ValueError

  datatype SimOutcome = Values(values: seq<real>) | SimRaised(error: SimError)

  /** The arguments of `mcs_yap`. `holdings` is `initial_asset_values` in its key order;
      `fits` is `varlik_dagilimlari`, where None is an asset whose fit found no family;
      `exp` is `np.exp` applied inside the step's `try`, None when the step raised. */
  datatype Setup = Setup(
    holdings: seq<(string, real)>,
    drift: map<string, Option<real>>,
    vol: map<string, Option<real>>,
    factor: Matrix,
    fits: map<string, Option<Fit>>,
    draws: Draws,
    exp: real -> Option<real>)

  /** The daily step and its square root (`np.sqrt(1.0)` is exactly 1.0). */
  const Dt: real := 1.0
  const SqrtDt: real := 1.0

  /** The asset at position `i` is in `fits` but its family is None. */
  predicate Unfitted(c: Setup, i: nat)
    requires i < |c.holdings|
  {
    c.holdings[i].0 in c.fits && c.fits[c.holdings[i].0].None?
  }

  predicate AllFitted(c: Setup)
  {
    forall i :: 0 <= i < |c.holdings| ==> !Unfitted(c, i)
  }

  /** Every row of the factor has one entry per asset, so `np.dot(L, Z)` is defined. */
  predicate Conformable(c: Setup)
  {
    forall i :: 0 <= i < |c.factor| ==> |c.factor[i]| == |c.holdings|
  }

  /** The independent shock of asset `i`: a draw of its fitted family, the standard
      normal draw when `rvs` raised or the asset has no entry in `fits`. */
  function Shock(c: Setup, sim: nat, day: nat, i: nat): real
    requires i < |c.holdings| && !Unfitted(c, i)
  {
    var a := c.holdings[i].0;
    if a in c.fits then
      match c.draws.fitted(c.fits[a].value, sim, day, i)
      case Some(z) => z
      case None => c.draws.normal(sim, day, i)
    else c.draws.normal(sim, day, i)
  }

  /** The vector `Z` of one day. */
  function Shocks(c: Setup, sim: nat, day: nat): (z: seq<real>)
    requires AllFitted(c)
    ensures |z| == |c.holdings|
  {
    seq(|c.holdings|, i requires 0 <= i < |c.holdings| => Shock(c, sim, day, i))
  }

  function Dot(row: seq<real>, z: seq<real>): real
    requires |row| == |z|
  {
    if row == [] then 0.0 else row[0] * z[0] + Dot(row[1..], z[1..])
  }

  /** `np.dot(L, Z)`: the correlated shocks. */
  function MatVec(l: Matrix, z: seq<real>): (e: seq<real>)
    requires forall i :: 0 <= i < |l| ==> |l[i]| == |z|
    ensures |e| == |l|
  {
    seq(|l|, i requires 0 <= i < |l| => Dot(l[i], z))
  }

  /** One day of one asset. A value at or below zero becomes 0; a NaN drift or volatility
      makes the exponent NaN and `max(0.0, nan)` is 0.0; when the step raises the value
      is kept; otherwise `max(0, S * exp((mu - sigma^2 / 2) dt + sigma eps sqrt(dt)))`. */
  function GbmStep(s: real, mu: Option<real>, sigma: Option<real>, eps: real, exp: real -> Option<real>): (r: real)
    ensures r >= 0.0
    ensures s <= 0.0 ==> r == 0.0
    ensures s > 0.0 && (mu.None? || sigma.None?) ==> r == 0.0
  {
    if s <= 0.0 then 0.0
    else if mu.None? || sigma.None? then 0.0
    else
      var exponent := (mu.value - 0.5 * sigma.value * sigma.value) * Dt + sigma.value * eps * SqrtDt;
      match exp(exponent)
      case None => s
      case Some(e) => Max(0.0, s * e)
  }

  /** With `np.exp` positive and finite, a positive value with a known drift and
      volatility stays positive. */
  lemma GbmStepKeepsPositive(s: real, mu: Option<real>, sigma: Option<real>, eps: real, exp: real -> Option<real>)
    requires forall x :: exp(x).Some? ==> exp(x).value > 0.0
    requires s > 0.0 && mu.Some? && sigma.Some?
    ensures GbmStep(s, mu, sigma, eps, exp) > 0.0
  {
    var exponent := (mu.value - 0.5 * sigma.value * sigma.value) * Dt + sigma.value * eps * SqrtDt;
    if exp(exponent).Some? {
      PositiveProduct(s, exp(exponent).value);
    }
  }

  /** When the step raises, the asset keeps the value it had. */
  lemma GbmStepKeepsValueOnError(s: real, mu: Option<real>, sigma: Option<real>, eps: real, exp: real -> Option<real>)
    requires s > 0.0 && mu.Some? && sigma.Some?
    requires exp((mu.value - 0.5 * sigma.value * sigma.value) * Dt + sigma.value * eps * SqrtDt).None?
    ensures GbmStep(s, mu, sigma, eps, exp) == s
  {
  }

  lemma PositiveProduct(a: real, b: real)
    requires a > 0.0 && b > 0.0
    ensures a * b > 0.0
  {
  }

  /** The value of asset `i` after one day, `drift_dict.get(asset, 0.0)` and
      `volatility_dict.get(asset, 0.0)` supplying the parameters. */
  function StepAsset(c: Setup, eps: seq<real>, cur: seq<real>, i: nat): real
    requires |eps| == |cur| == |c.holdings| && i < |cur|
  {
    var a := c.holdings[i].0;
    GbmStep(cur[i], Get(c.drift, a, Some(0.0)), Get(c.vol, a, Some(0.0)), eps[i], c.exp)
  }

  function DayValues(c: Setup, eps: seq<real>, cur: seq<real>): (next: seq<real>)
    requires |eps| == |cur| == |c.holdings|
    ensures |next| == |cur|
  {
    seq(|cur|, i requires 0 <= i < |cur| => StepAsset(c, eps, cur, i))
  }

  /** The preconditions under which a trial can take a step at all. */
  predicate Steppable(c: Setup)
  {
    AllFitted(c) && Conformable(c) && |c.factor| == |c.holdings|
  }

  /** The asset values of trial `sim` after `days` days. */
  function Path(c: Setup, sim: nat, days: nat): (p: seq<real>)
    requires days == 0 || Steppable(c)
    ensures |p| == |c.holdings|
  {
    if days == 0 then ValuesOf(c.holdings)
    else DayValues(c, MatVec(c.factor, Shocks(c, sim, days - 1)), Path(c, sim, days - 1))
  }

  /** `mcs_yap` as a value: no trial when there are no assets or the factor has a
      different number of rows; the exception of the first day of the first trial when
      an asset has no family or the factor is not conformable; otherwise one final
      portfolio value per trial. */
  function Simulate(c: Setup, sims: nat, days: nat): (r: SimOutcome)
    ensures |c.holdings| == 0 || |c.factor| != |c.holdings| ==> r == Values([])
    ensures r.Values? && |c.holdings| > 0 && |c.factor| == |c.holdings| ==> |r.values| == sims
    ensures r.SimRaised? ==> sims > 0 && days > 0
  {
    var n := |c.holdings|;
    if n == 0 || |c.factor| != n then Values([])
    else if sims > 0 && days > 0 && !AllFitted(c) then SimRaised(NoFamily)
    else if sims > 0 && days > 0 && !Conformable(c) then SimRaised(ShapeMismatch)
    else Values(seq(sims, s requires 0 <= s < sims => Sum(Path(c, s, days))))
  }

  /** The shock vector `Z` of one day (`np.zeros`, then one draw per asset). Returns
      `ok == false` at the first asset whose fit found no family, where `getattr` raises. */
  method DrawShocks(c: Setup, sim: nat, day: nat) returns (z: array<real>, ok: bool)
    ensures fresh(z) && z.Length == |c.holdings|
    ensures ok <==> AllFitted(c)
    ensures ok ==> z[..] == Shocks(c, sim, day)
  {
    var n := |c.holdings|;
    z := new real[n];
    for i := 0 to n
      invariant forall j :: 0 <= j < i ==> !Unfitted(c, j) && z[j] == Shock(c, sim, day, j)
    {
      var asset := c.holdings[i].0;
      if asset in c.fits {
        var fit := c.fits[asset];
        if fit.None? {
          assert Unfitted(c, i);
          return z, false;
        }
        var draw := c.draws.fitted(fit.value, sim, day, i);
        if draw.Some? {
          z[i] := draw.value;
        } else {
          z[i] := c.draws.normal(sim, day, i);
        }
      } else {
        z[i] := c.draws.normal(sim, day, i);
      }
    }
    assert z[..] == Shocks(c, sim, day);
    return z, true;
  }

  /** One day of the trial: every asset updated in place, in asset order. */
  method StepDay(c: Setup, current: array<real>, eps: seq<real>)
    requires current.Length == |eps| == |c.holdings|
    modifies current
    ensures current[..] == DayValues(c, eps, old(current[..]))
  {
    ghost var before := current[..];
    for i := 0 to current.Length
      invariant forall j :: 0 <= j < i ==> current[j] == StepAsset(c, eps, before, j)
      invariant forall j :: i <= j < current.Length ==> current[j] == before[j]
    {
      var asset := c.holdings[i].0;
      current[i] := GbmStep(current[i], Get(c.drift, asset, Some(0.0)), Get(c.vol, asset, Some(0.0)), eps[i], c.exp);
    }
    assert current[..] == DayValues(c, eps, before);
  }

  /** Day `day` of trial `sim`: the shocks are drawn, correlated and applied; an
      exception on the way leaves the values as they were. */
  method AdvanceDay(c: Setup, sim: nat, day: nat, current: array<real>) returns (raised: Option<SimError>)
    requires |c.factor| == |c.holdings| == current.Length
    requires day == 0 || Steppable(c)
    requires current[..] == Path(c, sim, day)
    modifies current
    ensures raised.None? ==> Steppable(c) && current[..] == Path(c, sim, day + 1)
    ensures raised == None || raised == Some(NoFamily) || raised == Some(ShapeMismatch)
    ensures raised == Some(NoFamily) ==> !AllFitted(c)
    ensures raised == Some(ShapeMismatch) ==> AllFitted(c) && !Conformable(c)
    ensures raised.Some? ==> current[..] == old(current[..])
  {
    var n := |c.holdings|;
    var z, ok := DrawShocks(c, sim, day);
    if !ok {
      return Some(NoFamily);
    }
    if exists r :: 0 <= r < n && |c.factor[r]| != n {
      return Some(ShapeMismatch);
    }
    var eps := MatVec(c.factor, z[..]);
    StepDay(c, current, eps);
    return None;
  }

  /** One trial: a fresh copy of the initial values moved through `days` days; its
      outcome is the sum of the final values, or the exception the first day raises. */
  method RunTrial(c: Setup, sim: nat, days: nat) returns (value: real, raised: Option<SimError>)
    requires |c.holdings| > 0 && |c.factor| == |c.holdings|
    ensures raised.None? ==> (days == 0 || Steppable(c)) && value == Sum(Path(c, sim, days))
    ensures raised.Some? ==> days > 0
    ensures raised == Some(NoFamily) ==> !AllFitted(c)
    ensures raised == Some(ShapeMismatch) ==> AllFitted(c) && !Conformable(c)
  {
    var n := |c.holdings|;
    var current := new real[n](i requires 0 <= i < n => c.holdings[i].1);
    assert current[..] == ValuesOf(c.holdings);
    for day := 0 to days
      invariant day > 0 ==> Steppable(c)
      invariant current[..] == Path(c, sim, day)
    {
      raised := AdvanceDay(c, sim, day, current);
      if raised.Some? {
        return 0.0, raised;
      }
    }
    return Sum(current[..]), None;
  }

  /** `mcs_yap`: the trials in order, each starting from the initial values. */
  method RunSimulation(c: Setup, sims: nat, days: nat) returns (out: SimOutcome)
    ensures out == Simulate(c, sims, days)
  {
    var n := |c.holdings|;
    if n == 0 || |c.factor| != n {
      return Values([]);
    }
    var results: seq<real> := [];
    for sim := 0 to sims
      invariant |results| == sim
      invariant sim > 0 && days > 0 ==> Steppable(c)
      invariant forall s :: 0 <= s < sim ==> results[s] == Sum(Path(c, s, days))
    {
      var value, raised := RunTrial(c, sim, days);
      match raised {
        case Some(e) =>
          assert sims > 0 && days > 0;
          if e == NoFamily {
            assert !AllFitted(c);
          } else {
            assert AllFitted(c) && !Conformable(c);
          }
          return SimRaised(e);
        case None =>
      }
      results := results + [value];
    }
    assert results == seq(sims, s requires 0 <= s < sims => Sum(Path(c, s, days)));
    return Values(results);
  }

  /** A value that reached zero (or below) stays at zero for the rest of the trial. */
  lemma {:induction false} ZeroIsAbsorbing(c: Setup, sim: nat, d: nat, later: nat, i: nat)
    requires Steppable(c) && i < |c.holdings|
    requires d < later
    requires Path(c, sim, d)[i] <= 0.0
    ensures Path(c, sim, later)[i] == 0.0
    decreases later
  {
    if later - 1 > d {
      ZeroIsAbsorbing(c, sim, d, later - 1, i);
    }
  }

  /** After at least one day every asset value, and so every trial's outcome, is
      non-negative, whatever the draws. */
  lemma TrialOutcomeNonNegative(c: Setup, sim: nat, days: nat)
    requires Steppable(c) && days >= 1
    ensures Sum(Path(c, sim, days)) >= 0.0
  {
    SumNonNegative(Path(c, sim, days));
  }

  lemma SimulatedValuesNonNegative(c: Setup, sims: nat, days: nat)
    requires days >= 1
    ensures Simulate(c, sims, days).Values? ==> forall s :: 0 <= s < |Simulate(c, sims, days).values| ==> Simulate(c, sims, days).values[s] >= 0.0
  {
    var r := Simulate(c, sims, days);
    if r.Values? && r.values != [] {
      forall s | 0 <= s < |r.values|
        ensures r.values[s] >= 0.0
      {
        TrialOutcomeNonNegative(c, s, days);
      }
    }
  }

  /** With no day to simulate every trial ends where it started, at the initial
      portfolio value; no draw is made, so nothing can raise. */
  lemma NoDaysGivesInitialValue(c: Setup, sims: nat)
    requires |c.holdings| > 0 && |c.factor| == |c.holdings|
    ensures Simulate(c, sims, 0) == Values(seq(sims, s requires 0 <= s < sims => Sum(ValuesOf(c.holdings))))
  {
  }

  /** An asset whose fit found no family makes the simulation raise rather than fall
      back to normal draws. */
  lemma UnfittedAssetRaises(c: Setup, sims: nat, days: nat, i: nat)
    requires |c.factor| == |c.holdings| && i < |c.holdings| && Unfitted(c, i)
    requires sims > 0 && days > 0
    ensures Simulate(c, sims, days) == SimRaised(NoFamily)
  {
  }
}

/** Choosing the best-fitting return distribution for one asset (`en_iyi_dagilimi_bul`).
    The statistics library is an oracle: for one candidate family it either raises, or
    yields the fitted parameters, the Kolmogorov-Smirnov statistic, the histogram counts,
    the fitted CDF at the histogram's bin edges and the Anderson-Darling statistic. The
    deterministic part kept here is how the chi-square statistic and the mean score are
    formed from those, and the running-best selection over the candidate list. */
module Fitting {
  import opened Common

  /** What the library calls produce for one candidate. `anderson` is None when
      `stats.anderson` raised; the model only consults it for families it supports. */
  datatype Evaluation =
    | Raised
    | Evaluated(params: seq<real>, ks: real, hist: seq<nat>, cdfAtEdges: seq<real>, anderson: Option<real>)

  /** The chosen family and its parameters: `(en_iyi_dagilim, en_iyi_parametreler)`. */
  datatype Fit = Fit(family: string, params: seq<real>)

  type Evaluator = (string, seq<real>) -> Evaluation

  /** Families the Anderson-Darling test supports. */
  const AndersonFamilies: seq<string> := ["norm", "expon", "logistic", "gumbel_l", "gumbel_r"]

  /** The candidate list the risk analysis passes. */
  const Candidates: seq<string> := ["norm", "t", "laplace"]

  /** The small constant added to every expected bin count. */
  const Epsilon: real := 0.00000001

  /** One term `(observed - expected)^2 / (expected + 1e-8)` of the chi-square sum;
      None is +inf. Under `errstate(divide='ignore')` a zero denominator does not raise:
      the numerator is then `(observed + 1e-8)^2 > 0`, so the term is +inf. */
  function ChiTerm(observed: nat, expected: real): (t: Option<real>)
    ensures t.None? <==> expected + Epsilon == 0.0
    ensures expected >= 0.0 ==> t.Some? && t.value >= 0.0
  {
    var d := expected + Epsilon;
    var x := observed as real - expected;
    if d == 0.0 then None
    else
      assert x * x >= 0.0;
      Some(x * x / d)
  }

  /** `nansum((hist - n*diff(cdf))**2 / (n*diff(cdf) + 1e-8))` over the bins from `i` on;
      None is +inf, which `nansum` keeps (no term is NaN or -inf). */
  function ChiSquareFrom(n: nat, hist: seq<nat>, cdf: seq<real>, i: nat): Option<real>
    requires |cdf| == |hist| + 1
    decreases |hist| - i
  {
    if i >= |hist| then Some(0.0)
    else
      match (ChiTerm(hist[i], n as real * (cdf[i + 1] - cdf[i])), ChiSquareFrom(n, hist, cdf, i + 1))
      case (Some(t), Some(rest)) => Some(t + rest)
      case _ => None
  }

  /** Some bin from `i` on has an expected count of exactly -1e-8, so its denominator is zero. */
  predicate ZeroDenominator(n: nat, hist: seq<nat>, cdf: seq<real>, i: nat)
    requires |cdf| == |hist| + 1
  {
    exists j :: i <= j < |hist| && n as real * (cdf[j + 1] - cdf[j]) + Epsilon == 0.0
  }

  /** The statistic is +inf exactly when some bin's denominator is zero. */
  lemma {:induction false} ChiSquareInfinite(n: nat, hist: seq<nat>, cdf: seq<real>, i: nat)
    requires |cdf| == |hist| + 1
    ensures ChiSquareFrom(n, hist, cdf, i).None? <==> ZeroDenominator(n, hist, cdf, i)
    decreases |hist| - i
  {
    if i < |hist| {
      ChiSquareInfinite(n, hist, cdf, i + 1);
      if n as real * (cdf[i + 1] - cdf[i]) + Epsilon == 0.0 {
        assert ZeroDenominator(n, hist, cdf, i);
      } else if !ZeroDenominator(n, hist, cdf, i + 1) {
        forall j | i <= j < |hist|
          ensures n as real * (cdf[j + 1] - cdf[j]) + Epsilon != 0.0
        {
          if j > i {
            assert !(i + 1 <= j < |hist| && n as real * (cdf[j + 1] - cdf[j]) + Epsilon == 0.0);
          }
        }
      }
    }
  }

  predicate NonDecreasing(s: seq<real>)
  {
    forall i, j :: 0 <= i <= j < |s| ==> s[i] <= s[j]
  }

  lemma NonNegativeProduct(a: real, b: real)
    requires a >= 0.0 && b >= 0.0
    ensures a * b >= 0.0
  {
  }

  /** A genuine CDF (non-decreasing at the bin edges) gives a finite, non-negative
      chi-square statistic: every denominator is then at least 1e-8. */
  lemma {:induction false} ChiSquareNonNegative(n: nat, hist: seq<nat>, cdf: seq<real>, i: nat)
    requires |cdf| == |hist| + 1
    requires NonDecreasing(cdf)
    ensures ChiSquareFrom(n, hist, cdf, i).Some? && ChiSquareFrom(n, hist, cdf, i).value >= 0.0
    decreases |hist| - i
  {
    if i < |hist| {
      assert cdf[i] <= cdf[i + 1];
      NonNegativeProduct(n as real, cdf[i + 1] - cdf[i]);
      ChiSquareNonNegative(n, hist, cdf, i + 1);
    }
  }

  /** The candidate's score, the mean of KS, chi-square and (where the family supports it
      and the test did not raise) Anderson-Darling. None when the candidate raised and is
      skipped; a histogram and CDF of mismatched shapes would make numpy raise inside the
      same `try`, so that also counts as a skipped candidate. None also stands for a mean
      of +inf (an infinite chi-square term): `inf < en_iyi_ortalama` is false even
      against the initial +inf, so such a candidate is never adopted either. */
  function Score(family: string, n: nat, e: Evaluation): (r: Option<real>)
    ensures e.Raised? ==> r.None?
    ensures e.Evaluated? && |e.cdfAtEdges| != |e.hist| + 1 ==> r.None?
    ensures e.Evaluated? && |e.cdfAtEdges| == |e.hist| + 1 ==> (r.None? <==> ZeroDenominator(n, e.hist, e.cdfAtEdges, 0))
    ensures e.Evaluated? && |e.cdfAtEdges| == |e.hist| + 1 && NonDecreasing(e.cdfAtEdges) ==> r.Some?
  {
    match e
    case Raised => None
    case Evaluated(_, ks, hist, cdf, anderson) =>
      if |cdf| != |hist| + 1 then None
      else
        var chi2 := ChiSquareFrom(n, hist, cdf, 0);
        ChiSquareInfinite(n, hist, cdf, 0);
        assert NonDecreasing(cdf) ==> chi2.Some? by {
          if NonDecreasing(cdf) {
            ChiSquareNonNegative(n, hist, cdf, 0);
          }
        }
        ScoreOf(family, ks, chi2, anderson)
  }

  /** `np.mean(scores)` with the Anderson-Darling statistic appended when it is not NaN. */
  function ScoreOf(family: string, ks: real, chi2: Option<real>, anderson: Option<real>): (r: Option<real>)
    ensures r.Some? <==> chi2.Some?
  {
    if chi2.None? then None
    else
      var ad := if family in AndersonFamilies then anderson else None;
      if ad.Some? then Some((ks + chi2.value + ad.value) / 3.0) else Some((ks + chi2.value) / 2.0)
  }

  /** The candidates' scores, in candidate order. */
  function Scores(data: seq<real>, candidates: seq<string>, evaluate: Evaluator): (s: seq<Option<real>>)
    ensures |s| == |candidates|
  {
    seq(|candidates|, i requires 0 <= i < |candidates| => Score(candidates[i], |data|, evaluate(candidates[i], data)))
  }

  /** The index adopted after scanning the first `n` scores: a score replaces the current
      best only when it is strictly smaller; the best starts at +infinity (None). */
  function RunningBest(s: seq<Option<real>>, n: nat): (b: Option<nat>)
    requires n <= |s|
    ensures b.Some? ==> b.value < n && s[b.value].Some?
  {
    if n == 0 then None
    else
      var b := RunningBest(s, n - 1);
      if s[n - 1].Some? && (b.None? || s[n - 1].value < s[b.value].value) then Some(n - 1) else b
  }

  /** What the running-best scan guarantees: nothing is chosen exactly when no
      candidate has a finite score; otherwise the chosen candidate was scored, its score is at most
      every other score, and every earlier candidate scored strictly worse, so the
      earliest of equally good candidates wins. */
  lemma {:induction false} RunningBestIsEarliestMinimum(s: seq<Option<real>>, n: nat)
    requires n <= |s|
    ensures RunningBest(s, n).None? <==> forall j :: 0 <= j < n ==> s[j].None?
    ensures RunningBest(s, n).Some? ==>
      var k := RunningBest(s, n).value;
      && k < n && s[k].Some?
      && (forall j :: 0 <= j < n && s[j].Some? ==> s[k].value <= s[j].value)
      && (forall j :: 0 <= j < k && s[j].Some? ==> s[k].value < s[j].value)
  {
    if n > 0 {
      RunningBestIsEarliestMinimum(s, n - 1);
    }
  }

  /** The fitted parameters of an evaluation (none when it raised). */
  function ParamsOf(e: Evaluation): seq<real>
  {
    if e.Evaluated? then e.params else []
  }

  /** `en_iyi_dagilimi_bul` as a value: the adopted candidate's fit, or None. */
  function BestFit(data: seq<real>, candidates: seq<string>, evaluate: Evaluator): Option<Fit>
  {
    var s := Scores(data, candidates, evaluate);
    match RunningBest(s, |candidates|)
    case None => None
    case Some(k) => Some(Fit(candidates[k], ParamsOf(evaluate(candidates[k], data))))
  }

  /** `en_iyi_dagilimi_bul`: the running-best loop over the candidate names. */
  method FindBestDistribution(data: seq<real>, candidates: seq<string>, evaluate: Evaluator) returns (best: Option<Fit>)
    ensures best == BestFit(data, candidates, evaluate)
    ensures best.None? <==> forall j :: 0 <= j < |candidates| ==> Scores(data, candidates, evaluate)[j].None?
    ensures best.Some? ==> exists k :: 0 <= k < |candidates| && ChosenAt(data, candidates, evaluate, k) && best.value.family == candidates[k]
  {
    ghost var s := Scores(data, candidates, evaluate);
    var bestScore: Option<real> := None;  // None is float('inf')
    var bestIndex: Option<nat> := None;
    best := None;
    var i := 0;
    while i < |candidates|
      invariant 0 <= i <= |candidates|
      invariant bestIndex == RunningBest(s, i)
      invariant bestIndex.None? ==> bestScore.None? && best.None?
      invariant bestIndex.Some? ==> bestIndex.value < i && s[bestIndex.value] == bestScore
      invariant bestIndex.Some? ==>
        best == Some(Fit(candidates[bestIndex.value], ParamsOf(evaluate(candidates[bestIndex.value], data))))
    {
      var name := candidates[i];
      var e := evaluate(name, data);
      var score := Score(name, |data|, e);
      if score.Some? && (bestScore.None? || score.value < bestScore.value) {
        bestScore := score;
        bestIndex := Some(i);
        best := Some(Fit(name, e.params));
      }
      i := i + 1;
    }
    RunningBestIsEarliestMinimum(s, |candidates|);
    if best.Some? {
      assert ChosenAt(data, candidates, evaluate, bestIndex.value);
    }
  }

  /** Candidate `k` is a valid choice: scored, no worse than any scored candidate, and
      strictly better than every scored candidate before it. */
  ghost predicate ChosenAt(data: seq<real>, candidates: seq<string>, evaluate: Evaluator, k: nat)
    requires k < |candidates|
  {
    var s := Scores(data, candidates, evaluate);
    && s[k].Some?
    && (forall j :: 0 <= j < |candidates| && s[j].Some? ==> s[k].value <= s[j].value)
    && (forall j :: 0 <= j < k && s[j].Some? ==> s[k].value < s[j].value)
  }
}

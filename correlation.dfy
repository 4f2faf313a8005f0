/** Correlation, covariance and the covariance factor (`korelasyon_hesapla`,
    `kovaryans_hesapla`). The pairwise Pearson coefficient and the Cholesky
    factorization are oracles; what is kept is the minimum-overlap rule, the
    pairwise-complete windows, `Sigma = D * Rho * D` entry by entry, and what happens
    when the factorization fails. */
module Correlation {
  import opened Common
  import opened Returns

  /** Pearson's coefficient of two equally long samples; None stands for NaN. */
  type Pearson = (seq<real>, seq<real>) -> Option<real>

  /** `np.linalg.cholesky`: the factor, or None when it raises `LinAlgError`. The type
      leaves the factor's shape open; `ShapePreserving` states what numpy promises. */
  type Cholesky = seq<seq<Option<real>>> -> Option<Matrix>

  /** An `n` by `n` matrix. */
  predicate Square<T>(m: seq<seq<T>>, n: nat)
  {
    |m| == n && forall i :: 0 <= i < n ==> |m[i]| == n
  }

  /** The factor of an n by n matrix, when there is one, is n by n. */
  ghost predicate ShapePreserving(cholesky: Cholesky)
  {
    forall a :: Square(a, |a|) && cholesky(a).Some? ==> Square(cholesky(a).value, |a|)
  }

  /** Row `i` has a value in every column. */
  predicate RowComplete(f: Frame, i: nat)
  {
    forall k :: k in f.data ==> i < |f.data[k]| && f.data[k][i].Some?
  }

  /** `len(df.dropna())` over the first `h` rows. */
  function CompleteRows(f: Frame, h: nat): (c: nat)
    ensures c <= h
  {
    if h == 0 then 0 else CompleteRows(f, h - 1) + (if RowComplete(f, h - 1) then 1 else 0)
  }

  /** `max(2, int(m * 0.8))`. */
  function MinPeriods(m: nat): (p: nat)
    ensures p >= 2
    ensures m >= 2 ==> p <= m
    ensures p == 2 || (p as real <= m as real * 0.8 < p as real + 1.0)
  {
    var scaled := (m as real * 0.8).Floor;
    if 2 >= scaled then 2 else scaled
  }

  /** The observations where both series are present (pandas' pairwise-complete window). */
  function Overlap(x: Series, y: Series): (w: (seq<real>, seq<real>))
    ensures |w.0| == |w.1| && |w.0| <= |x| && |w.0| <= |y|
  {
    if x == [] || y == [] then ([], [])
    else
      var rest := Overlap(x[1..], y[1..]);
      if x[0].Some? && y[0].Some? then ([x[0].value] + rest.0, [y[0].value] + rest.1) else rest
  }

  /** The overlap window does not depend on which series comes first. */
  lemma {:induction false} OverlapSwap(x: Series, y: Series)
    ensures Overlap(y, x) == (Overlap(x, y).1, Overlap(x, y).0)
  {
    if x != [] && y != [] {
      OverlapSwap(x[1..], y[1..]);
    }
  }

  /** `df.corr(min_periods=p)` for one pair: NaN unless the pair shares at least `p`
      observations. */
  function PairCorrelation(x: Series, y: Series, p: nat, pearson: Pearson): Option<real>
  {
    var w := Overlap(x, y);
    if |w.0| < p then None else pearson(w.0, w.1)
  }

  function Column(f: Frame, i: nat): Series
  {
    if i < |f.columns| then Get(f.data, f.columns[i], []) else []
  }

  /** `korelasyon_hesapla`: the correlation matrix in column order; an empty DataFrame
      gives an empty matrix. */
  function CorrelationMatrix(f: Frame, pearson: Pearson): (rho: seq<seq<Option<real>>>)
    ensures Empty(f) ==> rho == []
    ensures !Empty(f) ==> |rho| == |f.columns| && forall i :: 0 <= i < |rho| ==> |rho[i]| == |f.columns|
  {
    if Empty(f) then []
    else
      var n := |f.columns|;
      var p := MinPeriods(CompleteRows(f, Height(f)));
      seq(n, i requires 0 <= i < n => seq(n, j requires 0 <= j < n => PairCorrelation(Column(f, i), Column(f, j), p, pearson)))
  }

  predicate Symmetric<T(==)>(m: seq<seq<T>>)
  {
    && (forall i :: 0 <= i < |m| ==> |m[i]| == |m|)
    && (forall i, j :: 0 <= i < |m| && 0 <= j < |m| && i < |m[j]| && j < |m[i]| ==> m[i][j] == m[j][i])
  }

  /** Given a coefficient that does not depend on the order of its arguments, the
      correlation matrix is symmetric: both entries of a pair use the same window. */
  lemma CorrelationSymmetric(f: Frame, pearson: Pearson)
    requires forall a, b :: pearson(a, b) == pearson(b, a)
    ensures Symmetric(CorrelationMatrix(f, pearson))
  {
    var rho := CorrelationMatrix(f, pearson);
    forall i, j | 0 <= i < |rho| && 0 <= j < |rho|
      ensures rho[i][j] == rho[j][i]
    {
      OverlapSwap(Column(f, i), Column(f, j));
    }
  }

  /** No coefficient of the matrix is NaN. */
  predicate NoNaN(rho: seq<seq<Option<real>>>)
  {
    forall i, j :: 0 <= i < |rho| && 0 <= j < |rho[i]| ==> rho[i][j].Some?
  }

  /** The volatilities in column order, `volatility_dict.get(asset, 0.0)`. */
  function Stdevs(f: Frame, vol: map<string, Option<real>>): (s: seq<Option<real>>)
    ensures |s| == |f.columns|
  {
    seq(|f.columns|, i requires 0 <= i < |f.columns| => Get(vol, f.columns[i], Some(0.0)))
  }

  /** `Sigma = D @ Rho @ D` with `D = np.diag(stdevs)`, computed as two floating-point
      matrix products. Entry (i, j) sums terms `D[i][k] * Rho[k][l] * D[l][j]`; the
      off-diagonal zeros of `D` multiplied by a NaN coefficient still give NaN, so one
      NaN anywhere in `Rho` makes every entry NaN, and a NaN volatility makes its row and
      its column NaN. Otherwise the entry is `s_i * rho_ij * s_j`. */
  function Covariance(s: seq<Option<real>>, rho: seq<seq<Option<real>>>): (sigma: seq<seq<Option<real>>>)
    requires |rho| == |s| && forall i :: 0 <= i < |rho| ==> |rho[i]| == |s|
    ensures |sigma| == |s| && forall i :: 0 <= i < |s| ==> |sigma[i]| == |s|
  {
    var clean := NoNaN(rho);
    seq(|s|, i requires 0 <= i < |s| => seq(|s|, j requires 0 <= j < |s| => CovarianceEntry(clean, s[i], rho[i][j], s[j])))
  }

  function CovarianceEntry(clean: bool, si: Option<real>, rho: Option<real>, sj: Option<real>): Option<real>
  {
    if clean && si.Some? && rho.Some? && sj.Some? then Some(si.value * rho.value * sj.value) else None
  }

  /** Where everything is known, the covariance is the correlation scaled by both
      volatilities; a single NaN coefficient leaves no entry known. */
  lemma CovarianceEntries(s: seq<Option<real>>, rho: seq<seq<Option<real>>>, i: nat, j: nat)
    requires |rho| == |s| && forall k :: 0 <= k < |rho| ==> |rho[k]| == |s|
    requires i < |s| && j < |s|
    ensures NoNaN(rho) && s[i].Some? && s[j].Some? ==>
      Covariance(s, rho)[i][j] == Some(s[i].value * rho[i][j].value * s[j].value)
    ensures !NoNaN(rho) ==> Covariance(s, rho)[i][j].None?
    ensures s[i].None? || s[j].None? ==> Covariance(s, rho)[i][j].None?
  {
    var sigma := Covariance(s, rho);
    assert sigma[i][j] == CovarianceEntry(NoNaN(rho), s[i], rho[i][j], s[j]);
    if NoNaN(rho) {
      assert rho[i][j].Some?;
    }
  }

  /** A symmetric correlation matrix gives a symmetric covariance matrix. */
  lemma CovarianceSymmetric(s: seq<Option<real>>, rho: seq<seq<Option<real>>>)
    requires |rho| == |s| && Symmetric(rho)
    ensures Symmetric(Covariance(s, rho))
  {
    var sigma := Covariance(s, rho);
    forall i, j | 0 <= i < |s| && 0 <= j < |s|
      ensures sigma[i][j] == sigma[j][i]
    {
      assert rho[i][j] == rho[j][i];
      if NoNaN(rho) && s[i].Some? && rho[i][j].Some? && s[j].Some? {
        assert s[i].value * rho[i][j].value * s[j].value == s[j].value * rho[j][i].value * s[i].value;
      }
    }
  }

  /** What `kovaryans_hesapla` hands back or raises. */
  datatype FactorOutcome =
    | Factor(l: Matrix)   // the Cholesky factor; the empty matrix when there are no assets
    | FactorRaised        // the exception the failure path raises

  /** `kovaryans_hesapla` as written. When `np.linalg.cholesky` raises `LinAlgError`,
      the handler prints `L.shape`, but `L` was never bound, so `UnboundLocalError`
      escapes the function; the fallback it was meant to return, the diagonal matrix
      `D` of the volatilities (correlation dropped), is never reached. */
  function CovarianceFactor(f: Frame, vol: map<string, Option<real>>, pearson: Pearson, cholesky: Cholesky): (r: FactorOutcome)
    ensures Empty(f) ==> r == Factor([])
  {
    var rho := CorrelationMatrix(f, pearson);
    if |rho| == 0 then Factor([])
    else
      match cholesky(Covariance(Stdevs(f, vol), rho))
      case Some(l) => Factor(l)
      case None => FactorRaised
  }

  /** A failed factorization of a non-empty frame is an escaping exception, never the
      diagonal fallback. */
  lemma FactorizationFailureRaises(f: Frame, vol: map<string, Option<real>>, pearson: Pearson, cholesky: Cholesky)
    requires !Empty(f)
    requires cholesky(Covariance(Stdevs(f, vol), CorrelationMatrix(f, pearson))).None?
    ensures CovarianceFactor(f, vol, pearson, cholesky) == FactorRaised
  {
  }

  /** With a shape-preserving factorization, the factor of a non-empty frame has one row
      and one column per frame column. */
  lemma FactorIsSquare(f: Frame, vol: map<string, Option<real>>, pearson: Pearson, cholesky: Cholesky)
    requires ShapePreserving(cholesky) && !Empty(f)
    ensures CovarianceFactor(f, vol, pearson, cholesky).Factor? ==> Square(CovarianceFactor(f, vol, pearson, cholesky).l, |f.columns|)
  {
    var sigma := Covariance(Stdevs(f, vol), CorrelationMatrix(f, pearson));
    assert Square(sigma, |sigma|) && |sigma| == |f.columns|;
  }
}

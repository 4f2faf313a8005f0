/** Risk figures over the simulated portfolio values (`var_hesapla`, `cvar_hesapla`,
    `risk_metrikleri_hesapla`) and the volatility ranking with its suggestions (the end
    of `risk_analiz_yap`). Index arithmetic follows Python: `int` truncates toward zero,
    a negative index counts from the end, an index out of range raises `IndexError`, and
    a slice is clamped to the list. */
module Metrics {
  import opened Common

  // ---------------------------------------------------------------- sorting (np.sort)

  predicate Ascending(s: seq<real>)
  {
    forall i, j :: 0 <= i <= j < |s| ==> s[i] <= s[j]
  }

  function InsertAscending(x: real, s: seq<real>): (r: seq<real>)
    ensures |r| == |s| + 1
  {
    if s == [] || x <= s[0] then [x] + s else [s[0]] + InsertAscending(x, s[1..])
  }

  lemma {:induction false} InsertAscendingSorted(x: real, s: seq<real>)
    requires Ascending(s)
    ensures Ascending(InsertAscending(x, s))
  {
    if s != [] && x > s[0] {
      var t := InsertAscending(x, s[1..]);
      InsertAscendingSorted(x, s[1..]);
      assert s[0] <= t[0];
      var r := [s[0]] + t;
      forall i, j | 0 <= i <= j < |r|
        ensures r[i] <= r[j]
      {
        if i > 0 {
          assert r[i] == t[i - 1] && r[j] == t[j - 1];
        } else {
          assert r[j] == s[0] || r[j] == t[j - 1];
        }
      }
      assert InsertAscending(x, s) == r;
    }
  }

  lemma {:induction false} InsertAscendingPermutes(x: real, s: seq<real>)
    ensures multiset(InsertAscending(x, s)) == multiset(s) + multiset{x}
  {
    if s != [] && x > s[0] {
      InsertAscendingPermutes(x, s[1..]);
      assert s == [s[0]] + s[1..];
    }
  }

  /** `np.sort`: ascending order. */
  function Sort(s: seq<real>): (r: seq<real>)
    ensures |r| == |s|
  {
    if s == [] then [] else InsertAscending(s[0], Sort(s[1..]))
  }

  /** The sorted list is ascending and holds the same values. */
  lemma {:induction false} SortCorrect(s: seq<real>)
    ensures Ascending(Sort(s))
    ensures multiset(Sort(s)) == multiset(s)
  {
    if s != [] {
      SortCorrect(s[1..]);
      InsertAscendingSorted(s[0], Sort(s[1..]));
      InsertAscendingPermutes(s[0], Sort(s[1..]));
      assert s == [s[0]] + s[1..];
    }
  }

  // ---------------------------------------------------------------- Python index arithmetic

  /** Python's `int(x)`: truncation toward zero. */
  function Trunc(x: real): (t: int)
    ensures x >= 0.0 ==> t >= 0 && t as real <= x < t as real + 1.0
    ensures x < 0.0 ==> t <= 0 && t as real - 1.0 < x <= t as real
  {
    if x >= 0.0 then x.Floor else -((-x).Floor)
  }

  /** `int((1 - confidence_level) * len(values))`. */
  function TailIndex(confidence: real, n: nat): int
  {
    Trunc((1.0 - confidence) * n as real)
  }

  /** `a[i]`: None when Python raises `IndexError`. */
  function PyIndex(s: seq<real>, i: int): (r: Option<real>)
    ensures r.Some? <==> -|s| <= i < |s|
    ensures 0 <= i < |s| ==> r == Some(s[i])
    ensures -|s| <= i < 0 ==> r == Some(s[|s| + i])
  {
    if 0 <= i < |s| then Some(s[i])
    else if -|s| <= i < 0 then Some(s[|s| + i])
    else None
  }

  /** `a[:i]`. */
  function PyPrefix(s: seq<real>, i: int): (r: seq<real>)
    ensures 0 <= i ==> r == s[..if i <= |s| then i else |s|]
    ensures i < 0 ==> r == s[..if |s| + i >= 0 then |s| + i else 0]
  {
    if i >= 0 then s[..if i <= |s| then i else |s|]
    else s[..if |s| + i >= 0 then |s| + i else 0]
  }

  // ---------------------------------------------------------------- VaR and CVaR

  /** `var_hesapla`: the loss from the initial value to the sorted value at the tail index,
      floored at 0; 0 for no simulated values; None when the index raises. */
  function ValueAtRisk(values: seq<real>, initial: real, confidence: real): (r: Option<real>)
    ensures values == [] ==> r == Some(0.0)
    ensures r.Some? ==> r.value >= 0.0
  {
    if values == [] then Some(0.0)
    else
      match PyIndex(Sort(values), TailIndex(confidence, |values|))
      case None => None
      case Some(v) => Some(Max(0.0, initial - v))
  }

  /** `cvar_hesapla`: the loss from the initial value to the mean of the values below the
      tail index, floored at 0; 0 when that tail is empty. */
  function ConditionalValueAtRisk(values: seq<real>, initial: real, confidence: real): (r: real)
    ensures values == [] ==> r == 0.0
    ensures r >= 0.0
  {
    if values == [] then 0.0
    else
      var tail := PyPrefix(Sort(values), TailIndex(confidence, |values|));
      if |tail| > 0 then Max(0.0, initial - Sum(tail) / |tail| as real) else 0.0
  }

  datatype RiskFigures = RiskFigures(valueAtRisk: real, conditionalValueAtRisk: real)

  /** `risk_metrikleri_hesapla`: both figures, zero for no simulated values; None when
      `var_hesapla` raises. */
  function RiskMetrics(values: seq<real>, initial: real, confidence: real): (r: Option<RiskFigures>)
    ensures values == [] ==> r == Some(RiskFigures(0.0, 0.0))
    ensures r.Some? ==> r.value.valueAtRisk >= 0.0 && r.value.conditionalValueAtRisk >= 0.0
    ensures r.Some? <==> ValueAtRisk(values, initial, confidence).Some?
  {
    if values == [] then Some(RiskFigures(0.0, 0.0))
    else
      match ValueAtRisk(values, initial, confidence)
      case None => None
      case Some(v) => Some(RiskFigures(v, ConditionalValueAtRisk(values, initial, confidence)))
  }

  /** For a confidence in (0, 1] the tail index is a valid position. */
  lemma TailIndexInRange(confidence: real, n: nat)
    requires 0.0 < confidence <= 1.0 && n >= 1
    ensures 0 <= TailIndex(confidence, n) < n
  {
    var x := (1.0 - confidence) * n as real;
    assert 0.0 <= x < n as real by {
      NonNegativeTimes(1.0 - confidence, n as real);
      assert x == n as real - confidence * n as real;
      PositiveTimes(confidence, n as real);
    }
  }

  lemma NonNegativeTimes(a: real, b: real)
    requires a >= 0.0 && b >= 0.0
    ensures a * b >= 0.0
  {
  }

  lemma PositiveTimes(a: real, b: real)
    requires a > 0.0 && b > 0.0
    ensures a * b > 0.0
  {
  }

  /** For a confidence in (0, 1], VaR never raises and is the loss at the tail index. */
  lemma ValueAtRiskDefined(values: seq<real>, initial: real, confidence: real)
    requires 0.0 < confidence <= 1.0 && values != []
    ensures TailIndex(confidence, |values|) >= 0
    ensures ValueAtRisk(values, initial, confidence) == Some(Max(0.0, initial - Sort(values)[TailIndex(confidence, |values|)]))
  {
    TailIndexInRange(confidence, |values|);
  }

  /** VaR is defined exactly for `0 < c < 2 + 1/N`, stated without the division as
      `c N < 2N + 1`. */
  lemma ValueAtRiskDefinedExactly(values: seq<real>, initial: real, confidence: real)
    requires values != []
    ensures ValueAtRisk(values, initial, confidence).Some? <==>
      0.0 < confidence && confidence * |values| as real < 2.0 * |values| as real + 1.0
  {
    TailIndexInPythonRange(confidence, |values|);
  }

  /** `int((1-c)N)` is below `N` exactly when `c > 0`, and at least `-N` (the lowest
      index Python accepts) exactly when `c N < 2N + 1`. */
  lemma TailIndexInPythonRange(confidence: real, n: nat)
    requires n >= 1
    ensures -(n as int) <= TailIndex(confidence, n) < n <==>
      0.0 < confidence && confidence * n as real < 2.0 * n as real + 1.0
  {
    var m := n as real;
    TruncRange((1.0 - confidence) * m, n);
    ScaledComplement(confidence, m);
    ScaledBelow(0.0, confidence, m);
  }

  /** `(1 - c) m` splits as `m - c m`. */
  lemma ScaledComplement(c: real, m: real)
    ensures (1.0 - c) * m == m - c * m
  {
  }

  /** Scaling by a positive factor keeps a strict comparison. */
  lemma ScaledBelow(a: real, b: real, m: real)
    requires m > 0.0
    ensures a * m < b * m <==> a < b
  {
    if a < b {
      PositiveTimes(b - a, m);
    } else {
      NonNegativeTimes(a - b, m);
    }
  }

  /** Truncation stays in `[-n, n)` exactly when its argument lies in `(-n-1, n)`. */
  lemma TruncRange(x: real, n: nat)
    requires n >= 1
    ensures -(n as int) <= Trunc(x) < n <==> -(n as real) - 1.0 < x < n as real
  {
    var t := Trunc(x);
    if x >= 0.0 {
      assert t < n <==> x < n as real;
    } else {
      assert t as real - 1.0 < x <= t as real;
      if x > -(n as real) - 1.0 {
        assert t as real > -(n as real) - 1.0;
        assert t > -(n as int) - 1;
      }
    }
  }

  /** A confidence of 0 puts the index at `len(values)`: `IndexError`. */
  lemma ValueAtRiskRaisesAtZeroConfidence(values: seq<real>, initial: real)
    requires values != []
    ensures ValueAtRisk(values, initial, 0.0).None?
  {
    assert (1.0 - 0.0) * |values| as real == |values| as real;
  }

  /** The truncated tail index does not grow with the confidence level. */
  lemma TailIndexAntitone(c1: real, c2: real, n: nat)
    requires c1 <= c2
    ensures TailIndex(c2, n) <= TailIndex(c1, n)
  {
    var x1 := (1.0 - c1) * n as real;
    var x2 := (1.0 - c2) * n as real;
    assert x2 <= x1 by {
      NonNegativeTimes(c2 - c1, n as real);
      assert x1 - x2 == (c2 - c1) * n as real;
    }
  }

  /** Over an ascending list the floored loss does not grow with the index. */
  lemma LossAntitone(sorted: seq<real>, initial: real, i: int, j: int)
    requires Ascending(sorted) && 0 <= i <= j < |sorted|
    ensures Max(0.0, initial - sorted[j]) <= Max(0.0, initial - sorted[i])
  {
  }

  /** A higher confidence level never reports a smaller VaR. */
  lemma ValueAtRiskMonotone(values: seq<real>, initial: real, c1: real, c2: real)
    requires 0.0 < c1 <= c2 <= 1.0 && values != []
    ensures ValueAtRisk(values, initial, c1).Some? && ValueAtRisk(values, initial, c2).Some?
    ensures ValueAtRisk(values, initial, c1).value <= ValueAtRisk(values, initial, c2).value
  {
    ValueAtRiskDefined(values, initial, c1);
    ValueAtRiskDefined(values, initial, c2);
    TailIndexInRange(c2, |values|);
    TailIndexAntitone(c1, c2, |values|);
    SortCorrect(values);
    LossAntitone(Sort(values), initial, TailIndex(c2, |values|), TailIndex(c1, |values|));
  }

  /** When the tail is non-empty its mean lies at or below the VaR value, so the expected
      shortfall is at least the VaR. */
  lemma ConditionalValueAtRiskAtLeastValueAtRisk(values: seq<real>, initial: real, confidence: real)
    requires 0.0 < confidence <= 1.0 && values != []
    requires TailIndex(confidence, |values|) >= 1
    ensures ConditionalValueAtRisk(values, initial, confidence) >= ValueAtRisk(values, initial, confidence).value
  {
    var sorted := Sort(values);
    var idx := TailIndex(confidence, |values|);
    ValueAtRiskDefined(values, initial, confidence);
    SortCorrect(values);
    assert PyPrefix(sorted, idx) == sorted[..idx];
    TailMeanAtMost(sorted, idx);
  }

  /** The mean of the values below position `idx` of an ascending list is at most the
      value at `idx`. */
  lemma TailMeanAtMost(sorted: seq<real>, idx: nat)
    requires Ascending(sorted) && 1 <= idx < |sorted|
    ensures Sum(sorted[..idx]) / idx as real <= sorted[idx]
  {
    var tail := sorted[..idx];
    forall i | 0 <= i < |tail|
      ensures tail[i] <= sorted[idx]
    {
    }
    SumAtMost(tail, sorted[idx]);
    DivideBound(Sum(tail), idx as real, sorted[idx]);
  }

  lemma DivideBound(s: real, k: real, b: real)
    requires k > 0.0 && s <= k * b
    ensures s / k <= b
  {
  }

  /** A tail index of 0 leaves no tail: the expected shortfall is 0. */
  lemma ConditionalValueAtRiskWithoutTail(values: seq<real>, initial: real, confidence: real)
    requires TailIndex(confidence, |values|) == 0
    ensures ConditionalValueAtRisk(values, initial, confidence) == 0.0
  {
  }

  // ---------------------------------------------------------------- ranking and suggestions

  /** One entry of `wallet_volatility`: an asset and its volatility (None is NaN). */
  type Entry = (string, Option<real>)

  /** The sort key: the volatility, with NaN ranked as 0.0. */
  function Key(e: Entry): real
  {
    if e.1.Some? then e.1.value else 0.0
  }

  predicate Descending(r: seq<Entry>)
  {
    forall i, j :: 0 <= i <= j < |r| ==> Key(r[i]) >= Key(r[j])
  }

  /** Insert `x` after every entry whose key is at least its own. */
  function InsertDescending(x: Entry, r: seq<Entry>): (t: seq<Entry>)
    ensures |t| == |r| + 1
  {
    if r == [] || Key(r[0]) < Key(x) then [x] + r else [r[0]] + InsertDescending(x, r[1..])
  }

  /** `sorted(wallet_volatility.items(), key=..., reverse=True)`: a stable sort by
      decreasing volatility. */
  function RankByVolatility(items: seq<Entry>): (r: seq<Entry>)
    ensures |r| == |items|
  {
    if items == [] then []
    else InsertDescending(items[|items| - 1], RankByVolatility(items[..|items| - 1]))
  }

  /** The entries with key `v`, in order. */
  function WithKey(s: seq<Entry>, v: real): seq<Entry>
  {
    if s == [] then [] else (if Key(s[0]) == v then [s[0]] else []) + WithKey(s[1..], v)
  }

  lemma {:induction false} WithKeyAppend(a: seq<Entry>, b: seq<Entry>, v: real)
    ensures WithKey(a + b, v) == WithKey(a, v) + WithKey(b, v)
  {
    if a == [] {
      assert a + b == b;
    } else {
      var head := if Key(a[0]) == v then [a[0]] else [];
      assert (a + b)[0] == a[0] && (a + b)[1..] == a[1..] + b;
      WithKeyAppend(a[1..], b, v);
      assert WithKey(a + b, v) == head + WithKey(a[1..] + b, v);
      assert WithKey(a, v) == head + WithKey(a[1..], v);
    }
  }

  lemma {:induction false} WithKeyAllBelow(s: seq<Entry>, v: real)
    requires forall i :: 0 <= i < |s| ==> Key(s[i]) < v
    ensures WithKey(s, v) == []
  {
    if s != [] {
      WithKeyAllBelow(s[1..], v);
    }
  }

  /** Every entry of the insertion result is `x` or an entry of `r`. */
  lemma {:induction false} InsertDescendingPermutes(x: Entry, r: seq<Entry>)
    ensures multiset(InsertDescending(x, r)) == multiset(r) + multiset{x}
  {
    if r != [] && Key(r[0]) >= Key(x) {
      InsertDescendingPermutes(x, r[1..]);
      assert r == [r[0]] + r[1..];
    }
  }

  lemma {:induction false} InsertDescendingSorted(x: Entry, r: seq<Entry>)
    requires Descending(r)
    ensures Descending(InsertDescending(x, r))
  {
    if r != [] && Key(r[0]) >= Key(x) {
      var u := InsertDescending(x, r[1..]);
      InsertDescendingSorted(x, r[1..]);
      assert Key(r[0]) >= Key(u[0]);
      assert InsertDescending(x, r) == [r[0]] + u;
    }
  }

  /** Insertion keeps the relative order of equal keys: `x` ends up after them. */
  lemma {:induction false} InsertDescendingStable(x: Entry, r: seq<Entry>, v: real)
    requires Descending(r)
    ensures WithKey(InsertDescending(x, r), v) == WithKey(r, v) + WithKey([x], v)
  {
    if r == [] || Key(r[0]) < Key(x) {
      WithKeyAppend([x], r, v);
      if Key(x) == v {
        WithKeyAllBelow(r, v);
      } else {
        assert WithKey([x], v) == [];
      }
    } else {
      var u := InsertDescending(x, r[1..]);
      InsertDescendingStable(x, r[1..], v);
      assert r == [r[0]] + r[1..];
      WithKeyAppend([r[0]], u, v);
      WithKeyAppend([r[0]], r[1..], v);
    }
  }

  /** The ranking lists the same entries from the most to the least volatile, and entries
      of equal volatility keep their wallet order. */
  lemma {:induction false} RankByVolatilityCorrect(items: seq<Entry>)
    ensures Descending(RankByVolatility(items))
    ensures multiset(RankByVolatility(items)) == multiset(items)
    ensures forall v :: WithKey(RankByVolatility(items), v) == WithKey(items, v)
  {
    if items != [] {
      var init := items[..|items| - 1];
      var last := items[|items| - 1];
      RankByVolatilityCorrect(init);
      InsertDescendingPermutes(last, RankByVolatility(init));
      InsertDescendingSorted(last, RankByVolatility(init));
      assert items == init + [last];
      forall v
        ensures WithKey(RankByVolatility(items), v) == WithKey(items, v)
      {
        InsertDescendingStable(last, RankByVolatility(init), v);
        WithKeyAppend(init, [last], v);
      }
    }
  }

  /** `suggestions`: "arttir" (increase) and "azalt" (decrease). */
  datatype Suggestions = Suggestions(increase: seq<string>, decrease: seq<string>)

  /** The least volatile asset to increase; the most volatile to decrease, only when
      there are at least two assets. */
  function Suggest(ranking: seq<Entry>): (s: Suggestions)
    ensures |s.increase| == (if |ranking| > 0 then 1 else 0)
    ensures |s.decrease| == (if |ranking| > 1 then 1 else 0)
  {
    Suggestions(
      if |ranking| > 0 then [ranking[|ranking| - 1].0] else [],
      if |ranking| > 1 then [ranking[0].0] else [])
  }

  /** A position of the ranking holding entry `f` of the wallet. */
  lemma RankedPosition(items: seq<Entry>, f: Entry) returns (m: nat)
    requires f in items
    ensures m < |RankByVolatility(items)| && RankByVolatility(items)[m] == f
  {
    RankByVolatilityCorrect(items);
    assert f in multiset(items);
    assert f in multiset(RankByVolatility(items));
    m :| 0 <= m < |RankByVolatility(items)| && RankByVolatility(items)[m] == f;
  }

  /** The suggested asset to increase has the lowest volatility in the wallet. */
  lemma IncreaseIsLeastVolatile(items: seq<Entry>)
    requires |items| > 0
    ensures var r := RankByVolatility(items);
      && r[|r| - 1] in items
      && Suggest(r).increase == [r[|r| - 1].0]
      && forall f :: f in items ==> Key(r[|r| - 1]) <= Key(f)
  {
    var r := RankByVolatility(items);
    RankByVolatilityCorrect(items);
    assert r[|r| - 1] in multiset(r);
    forall f | f in items
      ensures Key(r[|r| - 1]) <= Key(f)
    {
      var m := RankedPosition(items, f);
    }
  }

  /** The suggested asset to decrease, present only with two or more assets, has the
      highest volatility in the wallet. */
  lemma DecreaseIsMostVolatile(items: seq<Entry>)
    requires |items| > 1
    ensures var r := RankByVolatility(items);
      && r[0] in items
      && Suggest(r).decrease == [r[0].0]
      && forall f :: f in items ==> Key(r[0]) >= Key(f)
  {
    var r := RankByVolatility(items);
    RankByVolatilityCorrect(items);
    assert r[0] in multiset(r);
    forall f | f in items
      ensures Key(r[0]) >= Key(f)
    {
      var m := RankedPosition(items, f);
    }
  }
}

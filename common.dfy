/** Vocabulary shared by the whole model: Python's None (and pandas' NaN) as an
    optional value, Python's `sum`, `dict.get` with a default, and float truthiness. */
module Common {

  /** `None` stands for Python's None, and for pandas' NaN where a float is missing. */
  datatype Option<+T> = None | Some(value: T)

  /** Python's `sum` over a list of floats, taken over exact reals. */
  function Sum(s: seq<real>): real
  {
    if s == [] then 0.0 else s[0] + Sum(s[1..])
  }

  lemma {:induction false} SumAppend(a: seq<real>, b: seq<real>)
    ensures Sum(a + b) == Sum(a) + Sum(b)
  {
    if a == [] {
      assert a + b == b;
    } else {
      assert (a + b)[1..] == a[1..] + b;
      SumAppend(a[1..], b);
    }
  }

  lemma {:induction false} SumNonNegative(s: seq<real>)
    requires forall i :: 0 <= i < |s| ==> s[i] >= 0.0
    ensures Sum(s) >= 0.0
  {
    if s != [] {
      SumNonNegative(s[1..]);
    }
  }

  /** Every term at most `b` bounds the sum by `|s| * b`. */
  lemma {:induction false} SumAtMost(s: seq<real>, b: real)
    requires forall i :: 0 <= i < |s| ==> s[i] <= b
    ensures Sum(s) <= |s| as real * b
  {
    if s != [] {
      SumAtMost(s[1..], b);
    }
  }

  /** A numpy matrix, row by row. */
  type Matrix = seq<seq<real>>

  /** `m.get(k, default)`. */
  function Get<V>(m: map<string, V>, k: string, default: V): V
  {
    if k in m then m[k] else default
  }

  predicate Distinct<T(==)>(s: seq<T>)
  {
    forall i, j :: 0 <= i < j < |s| ==> s[i] != s[j]
  }

  /** `order` lists the keys of `m` once each: the iteration order of a Python dict or set. */
  ghost predicate Enumerates<V>(order: seq<string>, m: map<string, V>)
  {
    Distinct(order) && (forall k :: k in m <==> k in order)
  }

  /** Python's `bool(x)` for a float that may be NaN: NaN is truthy, and so is every
      value other than 0.0. */
  predicate Truthy(x: Option<real>)
  {
    x.None? || x.value != 0.0
  }

  /** Python's `any(d.values())` over a dict of floats. */
  predicate AnyTruthy(m: map<string, Option<real>>)
  {
    exists k :: k in m && Truthy(m[k])
  }

  function Max(a: real, b: real): real
  {
    if a >= b then a else b
  }

  /** The first components of a list of pairs: the keys of a Python dict, in order. */
  function KeysOf<V>(items: seq<(string, V)>): (ks: seq<string>)
    ensures |ks| == |items|
    ensures forall i :: 0 <= i < |items| ==> ks[i] == items[i].0
  {
    seq(|items|, i requires 0 <= i < |items| => items[i].0)
  }

  /** The second components of a list of pairs: the values of a Python dict, in order. */
  function ValuesOf<V>(items: seq<(string, V)>): (vs: seq<V>)
    ensures |vs| == |items|
    ensures forall i :: 0 <= i < |items| ==> vs[i] == items[i].1
  {
    seq(|items|, i requires 0 <= i < |items| => items[i].1)
  }

  /** A list without repeats has as many entries as its set of elements. */
  lemma {:induction false} DistinctCardinality<T>(s: seq<T>)
    requires Distinct(s)
    ensures |set x | x in s| == |s|
  {
    if s != [] {
      DistinctCardinality(s[1..]);
      assert (set x | x in s) == {s[0]} + (set x | x in s[1..]);
      assert s[0] !in s[1..] by {
        forall j | 0 <= j < |s[1..]|
          ensures s[1..][j] != s[0]
        {
          assert s[j + 1] != s[0];
        }
      }
    }
  }

  /** Two lists without repeats holding the same elements are equally long. */
  lemma SameElementsSameLength<T>(a: seq<T>, b: seq<T>)
    requires Distinct(a) && Distinct(b)
    requires forall x :: x in a <==> x in b
    ensures |a| == |b|
  {
    DistinctCardinality(a);
    DistinctCardinality(b);
    assert (set x | x in a) == (set x | x in b);
  }
}

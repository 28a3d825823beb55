/**
 Optional values, and sums of a measure over the values of a map and over a sequence.
 */
module Containers {

  datatype Option<+T> = None | Some(value: T)

  function Lookup<K, V>(m: map<K, V>, k: K): Option<V> {
    if k in m then Some(m[k]) else None
  }

  /** The sum of `f` over the values of `m`. */
  ghost function Sum<K, V>(m: map<K, V>, f: V -> int): int
    decreases |m|
  {
    if m == map[] then 0
    else
      var k :| k in m;
      f(m[k]) + Sum(m - {k}, f)
  }

  /** Which key a sum starts from does not matter. */
  lemma {:induction false} SumWithout<K, V>(m: map<K, V>, f: V -> int, k: K)
    requires k in m
    ensures Sum(m, f) == f(m[k]) + Sum(m - {k}, f)
    decreases |m|
  {
    var first :| first in m && Sum(m, f) == f(m[first]) + Sum(m - {first}, f);
    if first != k {
      SumWithout(m - {first}, f, k);
      SumWithout(m - {k}, f, first);
      assert m - {first} - {k} == m - {k} - {first};
    }
  }

  lemma {:induction false} SumUpdate<K, V>(m: map<K, V>, f: V -> int, k: K, v: V)
    ensures Sum(m[k := v], f) == Sum(m, f) + f(v) - if k in m then f(m[k]) else 0
  {
    SumWithout(m[k := v], f, k);
    assert m[k := v] - {k} == m - {k};
    if k in m {
      SumWithout(m, f, k);
    } else {
      assert m - {k} == m;
    }
  }

  lemma {:induction false} SumNonNegative<K, V>(m: map<K, V>, f: V -> int)
    requires forall k :: k in m ==> 0 <= f(m[k])
    ensures 0 <= Sum(m, f)
    decreases |m|
  {
    if m != map[] {
      var k :| k in m;
      SumNonNegative(m - {k}, f);
      SumWithout(m, f, k);
    }
  }

  /** A sum of non-negative values bounds each of them. */
  lemma SumAtLeast<K, V>(m: map<K, V>, f: V -> int, k: K)
    requires forall j :: j in m ==> 0 <= f(m[j])
    requires k in m
    ensures f(m[k]) <= Sum(m, f)
  {
    SumWithout(m, f, k);
    SumNonNegative(m - {k}, f);
  }

  /** A sum of zeroes is zero. */
  lemma {:induction false} SumOfZeroes<K, V>(m: map<K, V>, f: V -> int)
    requires forall k :: k in m ==> f(m[k]) == 0
    ensures Sum(m, f) == 0
    decreases |m|
  {
    if m != map[] {
      var k :| k in m;
      SumOfZeroes(m - {k}, f);
      SumWithout(m, f, k);
    }
  }

  /** The sum of `f` over a sequence, taken from its end. */
  function Total<T>(s: seq<T>, f: T -> int): int {
    if s == [] then 0 else Total(s[..|s| - 1], f) + f(s[|s| - 1])
  }
}

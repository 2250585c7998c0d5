/** Sums over finite maps, independent of the order in which the keys are visited. */
module Sums {
  ghost function Sum<K>(m: map<K, real>): real
  {
    if m == map[] then 0.0
    else
      var k :| k in m;
      m[k] + Sum(m - {k})
  }

  /** Any key may be taken out first. */
  lemma {:induction false} SumRemove<K>(m: map<K, real>, k: K)
    requires k in m
    ensures Sum(m) == m[k] + Sum(m - {k})
    decreases |m|
  {
    var j :| j in m && Sum(m) == m[j] + Sum(m - {j});
    if j != k {
      SumRemove(m - {j}, k);
      SumRemove(m - {k}, j);
      assert m - {j} - {k} == m - {k} - {j};
    }
  }

  /** Writing one entry changes the sum by the difference of that entry alone. */
  lemma SumUpdate<K>(m: map<K, real>, k: K, v: real)
    ensures Sum(m[k := v]) == Sum(m) + v - (if k in m then m[k] else 0.0)
  {
    SumRemove(m[k := v], k);
    assert m[k := v] - {k} == m - {k};
    if k in m {
      SumRemove(m, k);
    } else {
      assert m - {k} == m;
    }
  }

  /** Sums add up entry by entry. */
  lemma {:induction false} SumAdd<K>(m: map<K, real>, n: map<K, real>, both: map<K, real>)
    requires m.Keys == n.Keys == both.Keys && forall k <- both :: both[k] == m[k] + n[k]
    ensures Sum(both) == Sum(m) + Sum(n)
    decreases |both|
  {
    if both == map[] {
      assert m == map[] && n == map[];
    } else {
      var k :| k in both;
      SumRemove(m, k);
      SumRemove(n, k);
      SumRemove(both, k);
      SumAdd(m - {k}, n - {k}, both - {k});
    }
  }

  /** Entries of zero do not count. */
  lemma {:induction false} SumExtend<K>(m: map<K, real>, n: map<K, real>)
    requires m.Keys <= n.Keys && forall k <- n :: n[k] == if k in m then m[k] else 0.0
    ensures Sum(n) == Sum(m)
    decreases |n|
  {
    if n.Keys == m.Keys {
      assert n == m;
    } else {
      var k :| k in n && k !in m;
      SumRemove(n, k);
      SumExtend(m, n - {k});
    }
  }
}

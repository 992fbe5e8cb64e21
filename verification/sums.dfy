/** Sums over the values of a finite map, in no particular order. */
module Sums {

  ghost function Sum<K>(m: map<K, int>): int
    decreases |m|
  {
    if m == map[] then 0 else
      var k :| k in m;
      m[k] + Sum(m - {k})
  }

  ghost function Restrict<K, V>(m: map<K, V>, s: set<K>): map<K, V> {
    map k | k in m && k in s :: m[k]
  }

  lemma {:induction false} SumRemove<K>(m: map<K, int>, k: K)
    requires k in m
    ensures Sum(m) == m[k] + Sum(m - {k})
    decreases |m|
  {
    var j :| j in m && Sum(m) == m[j] + Sum(m - {j});
    if j != k {
      SumRemove(m - {j}, k);
      assert m - {j} - {k} == m - {k} - {j};
      SumRemove(m - {k}, j);
    }
  }

  lemma SumInsert<K>(m: map<K, int>, k: K, v: int)
    requires k !in m
    ensures Sum(m[k := v]) == Sum(m) + v
  {
    SumRemove(m[k := v], k);
    assert m[k := v] - {k} == m;
  }

  lemma SumUpdate<K>(m: map<K, int>, k: K, v: int)
    requires k in m
    ensures Sum(m[k := v]) == Sum(m) - m[k] + v
  {
    SumRemove(m[k := v], k);
    SumRemove(m, k);
    assert m[k := v] - {k} == m - {k};
  }

  lemma {:induction false} SumMinus<K>(m: map<K, int>, s: set<K>)
    ensures Sum(m) == Sum(m - s) + Sum(Restrict(m, s))
    decreases |m|
  {
    if k :| k in m && k in s {
      var n := m - {k};
      assert n - s == m - s;
      assert Restrict(n, s) == Restrict(m, s) - {k};
      SumMinus(n, s);
      SumRemove(m, k);
      SumRemove(Restrict(m, s), k);
    } else {
      assert m - s == m;
      assert Restrict(m, s) == map[];
    }
  }

  lemma {:induction false} SumNonNegative<K>(m: map<K, int>)
    requires forall k :: k in m ==> m[k] >= 0
    ensures Sum(m) >= 0
    decreases |m|
  {
    if m == map[] {
    } else {
      var k :| k in m;
      SumNonNegative(m - {k});
      SumRemove(m, k);
    }
  }

  lemma SumAtLeast<K>(m: map<K, int>, k: K)
    requires forall j :: j in m ==> m[j] >= 0
    requires k in m
    ensures 0 <= m[k] <= Sum(m)
  {
    SumNonNegative(m - {k});
    SumRemove(m, k);
  }

  /** Summing in any order: moving `k` from the entries still to do to those done. */
  lemma SumAbsorb<K>(m: map<K, int>, rest: set<K>, k: K)
    requires forall j :: j in m ==> m[j] >= 0
    requires k in m && k in rest
    ensures Sum(m - (rest - {k})) == Sum(m - rest) + m[k]
    ensures Sum(m - (rest - {k})) <= Sum(m)
  {
    assert m - (rest - {k}) == (m - rest)[k := m[k]];
    SumInsert(m - rest, k, m[k]);
    SumMinus(m, rest - {k});
    SumNonNegative(Restrict(m, rest - {k}));
  }
}

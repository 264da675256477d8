/**
 * Sums over the values of a dictionary, as `sum(f(v) for v in d.values())`
 * computes them; the order of the values does not matter.
 */
module MapSums {

  /** The sum of `f` over the values of `m`. */
  ghost function Sum<K(!new), V>(m: map<K, V>, f: V -> nat): nat
    decreases |m|
  {
    if m == map[] then 0
    else
      var k :| k in m;
      f(m[k]) + Sum(m - {k}, f)
  }

  /** Any key can be taken out first. */
  lemma {:induction false} SumRemove<K(!new), V>(m: map<K, V>, f: V -> nat, k: K)
    requires k in m
    ensures Sum(m, f) == f(m[k]) + Sum(m - {k}, f)
    decreases |m|
  {
    var j :| j in m && Sum(m, f) == f(m[j]) + Sum(m - {j}, f);
    if j != k {
      var mj, mk := m - {j}, m - {k};
      assert |mj| < |m| && k in mj;
      SumRemove(mj, f, k);
      assert mj - {k} == mk - {j};
      assert |mk| < |m| && j in mk;
      SumRemove(mk, f, j);
    }
  }

  /** Storing `v` under `k` replaces the old value's share by the new one's. */
  lemma SumUpdate<K(!new), V>(m: map<K, V>, f: V -> nat, k: K, v: V)
    ensures Sum(m[k := v], f) == Sum(m - {k}, f) + f(v)
  {
    var m' := m[k := v];
    SumRemove(m', f, k);
    assert m' - {k} == m - {k};
  }

  /** The sum is at least each value's share. */
  lemma SumAtLeast<K(!new), V>(m: map<K, V>, f: V -> nat, k: K)
    requires k in m
    ensures Sum(m, f) >= f(m[k])
  {
    SumRemove(m, f, k);
  }
}

/** Sums over the values of a map. */
module MapSums {

  ghost function SumOver<K(!new), V(!new)>(m: map<K, V>, f: V -> real): real
    decreases m.Keys
  {
    if m == map[] then 0.0
    else
      var k :| k in m;
      f(m[k]) + SumOver(m - {k}, f)
  }

  /** Any key may be split off first. */
  lemma {:induction false} SumSplit<K(!new), V(!new)>(m: map<K, V>, f: V -> real, k: K)
    requires k in m
    ensures SumOver(m, f) == f(m[k]) + SumOver(m - {k}, f)
    decreases m.Keys
  {
    var j :| j in m && SumOver(m, f) == f(m[j]) + SumOver(m - {j}, f);
    if j != k {
      SumSplit(m - {j}, f, k);
      SumSplit(m - {k}, f, j);
      assert m - {j} - {k} == m - {k} - {j};
    }
  }

  lemma SumUpdate<K(!new), V(!new)>(m: map<K, V>, f: V -> real, k: K, v: V)
    ensures SumOver(m[k := v], f) == SumOver(m, f) + f(v) - if k in m then f(m[k]) else 0.0
  {
    var m' := m[k := v];
    SumSplit(m', f, k);
    assert m' - {k} == m - {k};
    if k in m {
      SumSplit(m, f, k);
    } else {
      assert m - {k} == m;
    }
  }
}

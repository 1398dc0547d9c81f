/** Sums of a weight over the values of a finite map. */
module Sums {

  ghost function MapSum<K, V>(m: map<K, V>, f: V -> nat): nat
    decreases |m|
  {
    if m == map[] then 0
    else
      var k :| k in m;
      assert (m - {k}).Keys == m.Keys - {k};
      f(m[k]) + MapSum(m - {k}, f)
  }

  /** Any key may be taken out first. */
  lemma {:induction false} MapSumPick<K, V>(m: map<K, V>, f: V -> nat, k: K)
    requires k in m
    ensures MapSum(m, f) == f(m[k]) + MapSum(m - {k}, f)
    decreases |m|
  {
    var j :| j in m && MapSum(m, f) == f(m[j]) + MapSum(m - {j}, f);
    assert (m - {j}).Keys == m.Keys - {j};
    assert (m - {k}).Keys == m.Keys - {k};
    if j != k {
      MapSumPick(m - {j}, f, k);
      MapSumPick(m - {k}, f, j);
      assert m - {j} - {k} == m - {k} - {j};
    }
  }

  ghost function At<K, V>(m: map<K, V>, f: V -> nat, k: K): nat {
    if k in m then f(m[k]) else 0
  }

  lemma MapSumSet<K, V>(m: map<K, V>, f: V -> nat, k: K, v: V)
    ensures MapSum(m[k := v], f) == MapSum(m, f) - At(m, f, k) + f(v)
  {
    MapSumPick(m[k := v], f, k);
    assert m[k := v] - {k} == m - {k};
    MapSumDrop(m, f, k);
  }

  lemma MapSumDrop<K, V>(m: map<K, V>, f: V -> nat, k: K)
    ensures MapSum(m - {k}, f) == MapSum(m, f) - At(m, f, k)
  {
    if k in m {
      MapSumPick(m, f, k);
    } else {
      assert m - {k} == m;
    }
  }

  /** One value weighs at most the whole. */
  lemma MapSumBounds<K, V>(m: map<K, V>, f: V -> nat, k: K)
    requires k in m
    ensures f(m[k]) <= MapSum(m, f)
  {
    MapSumPick(m, f, k);
  }
}

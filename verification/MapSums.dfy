/** Sums over finite maps. */
module MapSums {

  function Get<K>(m: map<K, nat>, k: K): nat {
    if k in m then m[k] else 0
  }

  ghost function SumOver<K>(m: map<K, nat>): nat
    decreases |m|
  {
    if m == map[] then 0 else
      var k :| k in m;
      assert |m - {k}| < |m| by { SmallerWithout(m, k); }
      m[k] + SumOver(m - {k})
  }

  lemma SmallerWithout<K>(m: map<K, nat>, k: K)
    requires k in m
    ensures |m - {k}| == |m| - 1
  {
    assert (m - {k}).Keys == m.Keys - {k};
  }

  /** Any key can be taken out first. */
  lemma {:induction false} SumWithout<K>(m: map<K, nat>, k: K)
    ensures SumOver(m) == Get(m, k) + SumOver(m - {k})
    decreases |m|
  {
    if k !in m {
      assert m - {k} == m;
    } else {
      var first :| first in m && SumOver(m) == m[first] + SumOver(m - {first});
      if first != k {
        SmallerWithout(m, first);
        SmallerWithout(m, k);
        SumWithout(m - {first}, k);
        SumWithout(m - {k}, first);
        assert m - {first} - {k} == m - {k} - {first};
      }
    }
  }

  lemma SumPut<K>(m: map<K, nat>, k: K, v: nat)
    ensures SumOver(m[k := v]) == SumOver(m) - Get(m, k) + v
  {
    SumWithout(m, k);
    SumWithout(m[k := v], k);
    assert m[k := v] - {k} == m - {k};
  }

  lemma GetAtMostSum<K>(m: map<K, nat>, k: K)
    ensures Get(m, k) <= SumOver(m)
  {
    SumWithout(m, k);
  }
}

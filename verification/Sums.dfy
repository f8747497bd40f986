// Sums of natural numbers over finite maps.
module Sums {
  // The sum of all values of m, taking the keys in any order.
  ghost function Total<K(!new)>(m: map<K, int>): int
    decreases |m|
  {
    if m == map[] then 0
    else
      var k :| k in m;
      m[k] + Total(m - {k})
  }

  // Any key may be taken first.
  lemma {:induction false} TotalSplit<K(!new)>(m: map<K, int>, k: K)
    requires k in m
    ensures Total(m) == m[k] + Total(m - {k})
    decreases |m|
  {
    var j :| j in m && Total(m) == m[j] + Total(m - {j});
    if j != k {
      TotalSplit(m - {j}, k);
      TotalSplit(m - {k}, j);
      assert m - {j} - {k} == m - {k} - {j};
    }
  }

  // Changing one entry changes the sum by the difference.
  lemma {:induction false} TotalUpdate<K(!new)>(m: map<K, int>, k: K, v: int)
    ensures k in m ==> Total(m[k := v]) == Total(m) - m[k] + v
    ensures k !in m ==> Total(m[k := v]) == Total(m) + v
  {
    TotalSplit(m[k := v], k);
    if k in m {
      TotalSplit(m, k);
      assert m[k := v] - {k} == m - {k};
    } else {
      assert m[k := v] - {k} == m;
    }
  }

  lemma {:induction false} TotalNonNegative<K(!new)>(m: map<K, int>)
    requires forall k :: k in m ==> m[k] >= 0
    ensures Total(m) >= 0
    ensures Total(m) == 0 <==> forall k :: k in m ==> m[k] == 0
    decreases |m|
  {
    if m != map[] {
      var k :| k in m && Total(m) == m[k] + Total(m - {k});
      TotalNonNegative(m - {k});
      assert forall j :: j in m ==> j == k || j in m - {k};
    }
  }

  // Sums of pointwise equal or smaller maps compare the same way.
  lemma {:induction false} TotalMonotone<K(!new)>(m: map<K, int>, n: map<K, int>)
    requires m.Keys == n.Keys
    requires forall k :: k in m ==> m[k] <= n[k]
    ensures Total(m) <= Total(n)
    decreases |m|
  {
    if m != map[] {
      var k :| k in m;
      TotalSplit(m, k);
      TotalSplit(n, k);
      TotalMonotone(m - {k}, n - {k});
    } else {
      assert n == map[];
    }
  }
}

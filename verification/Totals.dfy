/** Sums over the rows of a table, as the total of a map from row ids to weights. */
module Totals {

  ghost function Total<K>(m: map<K, int>): int
    decreases |m|
  {
    if forall k :: k !in m then 0 else
      var k :| k in m;
      m[k] + Total(m - {k})
  }

  ghost function At<K>(m: map<K, int>, k: K): int {
    if k in m then m[k] else 0
  }

  /** The total does not depend on the order in which the keys are picked. */
  lemma {:induction false} TotalWithout<K>(m: map<K, int>, k: K)
    requires k in m
    ensures Total(m) == m[k] + Total(m - {k})
    decreases |m|
  {
    var p :| p in m && Total(m) == m[p] + Total(m - {p});
    if p != k {
      TotalWithout(m - {p}, k);
      TotalWithout(m - {k}, p);
      assert m - {p} - {k} == m - {k} - {p};
    }
  }

  lemma TotalAfterPut<K>(m: map<K, int>, k: K, v: int)
    ensures Total(m[k := v]) == Total(m) - At(m, k) + v
  {
    TotalWithout(m[k := v], k);
    if k in m {
      TotalWithout(m, k);
      assert m[k := v] - {k} == m - {k};
    } else {
      assert m[k := v] - {k} == m;
    }
  }

  lemma {:induction false} TotalOfZeros<K>(m: map<K, int>)
    requires forall k | k in m :: m[k] == 0
    ensures Total(m) == 0
    decreases |m|
  {
    if exists k :: k in m {
      var k :| k in m;
      TotalWithout(m, k);
      TotalOfZeros(m - {k});
    }
  }

  lemma {:induction false} TotalBounds<K>(m: map<K, int>)
    requires forall k | k in m :: m[k] >= 0
    ensures Total(m) >= 0
    ensures forall k | k in m :: m[k] <= Total(m)
    decreases |m|
  {
    if exists k :: k in m {
      var p :| p in m;
      TotalWithout(m, p);
      TotalBounds(m - {p});
      forall k | k in m ensures m[k] <= Total(m) {
        if k != p { assert k in m - {p}; }
      }
    }
  }
}

/** Sums over the values of a finite map, whatever the order of its keys. */
module Totals {

  ghost function Total(m: map<int, int>): int
    decreases |m|
  {
    if forall k :: k !in m then 0
    else
      var k :| k in m;
      m[k] + Total(m - {k})
  }

  lemma {:induction false} TotalRemove(m: map<int, int>, k: int)
    requires k in m
    ensures Total(m) == m[k] + Total(m - {k})
    decreases |m|
  {
    var first :| first in m && Total(m) == m[first] + Total(m - {first});
    if first != k {
      TotalRemove(m - {first}, k);
      TotalRemove(m - {k}, first);
      assert m - {first} - {k} == m - {k} - {first};
    }
  }

  lemma TotalPut(m: map<int, int>, k: int, v: int)
    ensures Total(m[k := v]) == Total(m) + v - (if k in m then m[k] else 0)
  {
    TotalRemove(m[k := v], k);
    if k in m {
      TotalRemove(m, k);
      assert m[k := v] - {k} == m - {k};
    } else {
      assert m[k := v] - {k} == m;
    }
  }

  lemma {:induction false} TotalNonNegative(m: map<int, int>)
    requires forall k | k in m :: m[k] >= 0
    ensures Total(m) >= 0
    decreases |m|
  {
    if exists k :: k in m {
      var k :| k in m;
      TotalRemove(m, k);
      TotalNonNegative(m - {k});
    }
  }

  lemma {:induction false} TotalBelow(m: map<int, int>, n: map<int, int>)
    requires m.Keys == n.Keys && forall k | k in m :: m[k] <= n[k]
    ensures Total(m) <= Total(n)
    decreases |m|
  {
    if exists k :: k in m {
      var k :| k in m;
      TotalRemove(m, k);
      TotalRemove(n, k);
      TotalBelow(m - {k}, n - {k});
    }
  }

  /** Leaving out zeros. */
  lemma {:induction false} TotalWithoutZeros(m: map<int, int>, n: map<int, int>)
    requires n.Keys <= m.Keys && forall k | k in m :: m[k] == if k in n then n[k] else 0
    ensures Total(m) == Total(n)
    decreases |m|
  {
    if exists k :: k in m {
      var k :| k in m;
      TotalRemove(m, k);
      if k in n {
        TotalRemove(n, k);
      } else {
        assert n - {k} == n;
      }
      TotalWithoutZeros(m - {k}, n - {k});
    }
  }
}

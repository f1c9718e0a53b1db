/** Sums over dictionaries of amounts. */
module Totals {
  import opened Rounding

  function At<K>(m: map<K, real>, k: K): real {
    if k in m then m[k] else 0.0
  }

  ghost function Total<K>(m: map<K, real>): real
    decreases |m|
  {
    if m == map[] then 0.0
    else
      var k :| k in m;
      m[k] + Total(m - {k})
  }

  lemma {:induction false} TotalRemove<K>(m: map<K, real>, k: K)
    ensures Total(m) == At(m, k) + Total(m - {k})
    decreases |m|
  {
    if k !in m {
      assert m - {k} == m;
    } else {
      var j :| j in m && Total(m) == m[j] + Total(m - {j});
      if j != k {
        TotalRemove(m - {j}, k);
        TotalRemove(m - {k}, j);
        assert m - {j} - {k} == m - {k} - {j};
      }
    }
  }

  ghost predicate Adds<K(!new)>(m: map<K, real>, a: map<K, real>, b: map<K, real>) {
    forall k :: At(m, k) == At(a, k) + At(b, k)
  }

  lemma AddsWithout<K(!new)>(m: map<K, real>, a: map<K, real>, b: map<K, real>, k: K)
    requires Adds(m, a, b)
    ensures Adds(m - {k}, a - {k}, b - {k})
  {
    forall j
      ensures At(m - {k}, j) == At(a - {k}, j) + At(b - {k}, j)
    {
      assert At(m, j) == At(a, j) + At(b, j);
    }
  }

  /** If every entry of m is the sum of the entries of a and b, so is the total. */
  lemma {:induction false} TotalAdds<K(!new)>(m: map<K, real>, a: map<K, real>, b: map<K, real>)
    requires Adds(m, a, b)
    ensures Total(m) == Total(a) + Total(b)
    decreases |m| + |a| + |b|
  {
    if m.Keys + a.Keys + b.Keys == {} {
      assert m == map[] && a == map[] && b == map[];
    } else {
      var k :| k in m.Keys + a.Keys + b.Keys;
      TotalRemove(m, k);
      TotalRemove(a, k);
      TotalRemove(b, k);
      AddsWithout(m, a, b, k);
      Shrinks(m, k);
      Shrinks(a, k);
      Shrinks(b, k);
      TotalAdds(m - {k}, a - {k}, b - {k});
      assert At(m, k) == At(a, k) + At(b, k);
    }
  }

  lemma Shrinks<K>(m: map<K, real>, k: K)
    ensures |m - {k}| == if k in m then |m| - 1 else |m|
  {
    if k in m {
      assert (m - {k}).Keys == m.Keys - {k};
    } else {
      assert m - {k} == m;
    }
  }

  lemma {:induction false} TotalOnGrid<K(!new)>(m: map<K, real>)
    requires forall k :: k in m ==> OnGrid(m[k])
    ensures OnGrid(Total(m))
    decreases |m|
  {
    if m != map[] {
      var k :| k in m && Total(m) == m[k] + Total(m - {k});
      TotalOnGrid(m - {k});
      GridAdd(m[k], Total(m - {k}));
    }
  }
}

/** Sums over a table: a finite map from row id to row, summed through a weight. */
module Totals {

  ghost function Total<V>(m: map<nat, V>, f: V -> int): int
    decreases |m|
  {
    if m == map[] then 0
    else
      var k :| k in m;
      f(m[k]) + Total(m - {k}, f)
  }

  // The order in which rows are taken does not matter.
  lemma {:induction false} TotalRemove<V>(m: map<nat, V>, k: nat, f: V -> int)
    requires k in m
    ensures Total(m, f) == f(m[k]) + Total(m - {k}, f)
    decreases |m|
  {
    var j :| j in m && Total(m, f) == f(m[j]) + Total(m - {j}, f);
    if j != k {
      TotalRemove(m - {j}, k, f);
      TotalRemove(m - {k}, j, f);
      assert m - {j} - {k} == m - {k} - {j};
    }
  }

  // Writing one row replaces its weight and leaves every other alone.
  lemma TotalPut<V>(m: map<nat, V>, k: nat, v: V, f: V -> int)
    ensures Total(m[k := v], f) == Total(m, f) + f(v) - (if k in m then f(m[k]) else 0)
  {
    TotalRemove(m[k := v], k, f);
    assert m[k := v] - {k} == m - {k};
    if k in m {
      TotalRemove(m, k, f);
    } else {
      assert m - {k} == m;
    }
  }

  lemma {:induction false} TotalNonNegative<V>(m: map<nat, V>, f: V -> int)
    requires forall k :: k in m ==> f(m[k]) >= 0
    ensures Total(m, f) >= 0
    decreases |m|
  {
    if m != map[] {
      var k :| k in m && Total(m, f) == f(m[k]) + Total(m - {k}, f);
      TotalNonNegative(m - {k}, f);
    }
  }

  lemma TotalCovers<V>(m: map<nat, V>, k: nat, f: V -> int)
    requires k in m
    requires forall j :: j in m ==> f(m[j]) >= 0
    ensures Total(m, f) >= f(m[k])
  {
    TotalRemove(m, k, f);
    TotalNonNegative(m - {k}, f);
  }

  lemma {:induction false} TotalZero<V>(m: map<nat, V>, f: V -> int)
    requires forall k :: k in m ==> f(m[k]) == 0
    ensures Total(m, f) == 0
    decreases |m|
  {
    if m != map[] {
      var k :| k in m && Total(m, f) == f(m[k]) + Total(m - {k}, f);
      TotalZero(m - {k}, f);
    }
  }
}

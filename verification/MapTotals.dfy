/** Sizes of finite sets, and totals of a measure over the values of a finite map. */
module MapTotals {

  lemma SubsetSize<T>(a: set<T>, b: set<T>)
    requires a <= b
    ensures |a| <= |b| && (a != b ==> |a| < |b|)
  {
    assert b == a + (b - a);
    assert a != b ==> |b - a| > 0;
  }

  ghost function Total<V>(m: map<nat, V>, f: V -> nat): nat {
    if m == map[] then 0
    else var k :| k in m; f(m[k]) + Total(m - {k}, f)
  }

  lemma WithoutIsSmaller<V>(m: map<nat, V>, k: nat)
    requires k in m
    ensures |m - {k}| < |m|
  {
    assert (m - {k}).Keys == m.Keys - {k};
  }

  lemma {:induction false} TotalRemove<V>(m: map<nat, V>, k: nat, f: V -> nat)
    requires k in m
    ensures Total(m, f) == f(m[k]) + Total(m - {k}, f)
    decreases |m|
  {
    var j :| j in m && Total(m, f) == f(m[j]) + Total(m - {j}, f);
    if j != k {
      WithoutIsSmaller(m, j);
      WithoutIsSmaller(m, k);
      TotalRemove(m - {j}, k, f);
      TotalRemove(m - {k}, j, f);
      assert m - {j} - {k} == m - {k} - {j};
    }
  }

  lemma TotalSet<V>(m: map<nat, V>, k: nat, v: V, f: V -> nat)
    ensures Total(m[k := v], f) == f(v) + Total(m - {k}, f)
  {
    TotalRemove(m[k := v], k, f);
    assert m[k := v] - {k} == m - {k};
  }

  lemma {:induction false} TotalSame<V>(a: map<nat, V>, b: map<nat, V>, f: V -> nat)
    requires a.Keys == b.Keys && forall k :: k in a ==> f(a[k]) == f(b[k])
    ensures Total(a, f) == Total(b, f)
    decreases |a|
  {
    if a.Keys != {} {
      var k :| k in a;
      TotalRemove(a, k, f);
      TotalRemove(b, k, f);
      WithoutIsSmaller(a, k);
      assert (a - {k}).Keys == a.Keys - {k} && (b - {k}).Keys == b.Keys - {k};
      TotalSame(a - {k}, b - {k}, f);
    }
  }
}

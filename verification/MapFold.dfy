/** Order-independent folds over the values of a map: what a Go range loop accumulates. */
module MapFold {

  ghost function Sum<K(!new)>(m: map<K, int>): int {
    if m == map[] then 0
    else
      var k :| k in m;
      m[k] + Sum(m - {k})
  }

  ghost function Union<K(!new)>(m: map<K, multiset<nat>>): multiset<nat> {
    if m == map[] then multiset{}
    else
      var k :| k in m;
      m[k] + Union(m - {k})
  }

  lemma {:induction false} SumRemove<K(!new)>(m: map<K, int>, k: K)
    requires k in m
    ensures Sum(m) == m[k] + Sum(m - {k})
    decreases |m|
  {
    var p :| p in m && Sum(m) == m[p] + Sum(m - {p});
    if p != k {
      SumRemove(m - {p}, k);
      SumRemove(m - {k}, p);
      assert m - {p} - {k} == m - {k} - {p};
    }
  }

  lemma {:induction false} UnionRemove<K(!new)>(m: map<K, multiset<nat>>, k: K)
    requires k in m
    ensures Union(m) == m[k] + Union(m - {k})
    decreases |m|
  {
    var p :| p in m && Union(m) == m[p] + Union(m - {p});
    if p != k {
      UnionRemove(m - {p}, k);
      UnionRemove(m - {k}, p);
      assert m - {p} - {k} == m - {k} - {p};
    }
  }

  lemma SumUpdate<K(!new)>(m: map<K, int>, k: K, v: int)
    ensures Sum(m[k := v]) == Sum(m) + v - (if k in m then m[k] else 0)
  {
    SumRemove(m[k := v], k);
    assert m[k := v] - {k} == m - {k};
    if k in m {
      SumRemove(m, k);
    } else {
      assert m - {k} == m;
    }
  }

  lemma UnionUpdate<K(!new)>(m: map<K, multiset<nat>>, k: K, v: multiset<nat>)
    ensures Union(m[k := v]) + (if k in m then m[k] else multiset{}) == Union(m) + v
  {
    UnionRemove(m[k := v], k);
    assert m[k := v] - {k} == m - {k};
    if k in m {
      UnionRemove(m, k);
    } else {
      assert m - {k} == m;
    }
  }

  lemma {:induction false} SumBounds<K(!new)>(m: map<K, int>, k: K)
    requires forall j | j in m :: m[j] >= 0
    requires k in m
    ensures m[k] <= Sum(m)
    decreases |m|
  {
    SumRemove(m, k);
    SumNonNegative(m - {k});
  }

  lemma {:induction false} SumNonNegative<K(!new)>(m: map<K, int>)
    requires forall j | j in m :: m[j] >= 0
    ensures Sum(m) >= 0
    decreases |m|
  {
    if m != map[] {
      var k :| k in m;
      SumRemove(m, k);
      SumNonNegative(m - {k});
    }
  }

  lemma {:induction false} MaxExists<K(!new)>(m: map<K, int>)
    requires m != map[]
    ensures exists k :: k in m && forall j | j in m :: m[j] <= m[k]
    decreases |m|
  {
    var k :| k in m;
    if m - {k} == map[] {
      assert forall j | j in m :: j == k || j in m - {k};
    } else {
      MaxExists(m - {k});
      var l :| l in m - {k} && forall j | j in m - {k} :: (m - {k})[j] <= (m - {k})[l];
      assert forall j | j in m :: j == k || j in m - {k};
      var most := if m[k] > m[l] then k else l;
      assert most in m && forall j | j in m :: m[j] <= m[most];
    }
  }
}

/** Sums of the values of a finite map, independent of any order of its keys. */
module MapSums {

  ghost function Sum<K(!new)>(m: map<K, int>): int
    decreases |m|
  {
    if m == map[] then 0
    else
      var k :| k in m;
      assert (m - {k}).Keys == m.Keys - {k};
      m[k] + Sum(m - {k})
  }

  /** Any key may be taken out first. */
  lemma {:induction false} SumRemove<K(!new)>(m: map<K, int>, k: K)
    requires k in m
    ensures Sum(m) == m[k] + Sum(m - {k})
    decreases |m|
  {
    var j :| j in m && Sum(m) == m[j] + Sum(m - {j});
    if j != k {
      assert (m - {j}).Keys == m.Keys - {j};
      assert (m - {k}).Keys == m.Keys - {k};
      SumRemove(m - {j}, k);
      SumRemove(m - {k}, j);
      assert m - {j} - {k} == m - {k} - {j};
    }
  }

  /** Storing a value under a key moves the sum by the difference to the value it replaces. */
  lemma SumPut<K(!new)>(m: map<K, int>, k: K, v: int)
    ensures Sum(m[k := v]) == Sum(m) - (if k in m then m[k] else 0) + v
  {
    SumRemove(m[k := v], k);
    assert m[k := v] - {k} == m - {k};
    if k in m {
      SumRemove(m, k);
    } else {
      assert m - {k} == m;
    }
  }

  /** Dropping a set of keys drops exactly the sum of their values. */
  lemma {:induction false} SumDrop<K(!new)>(m: map<K, int>, ks: set<K>)
    requires ks <= m.Keys
    ensures Sum(m) == Sum(map k | k in ks :: m[k]) + Sum(m - ks)
    decreases |ks|
  {
    var picked := map k | k in ks :: m[k];
    if ks == {} {
      assert picked == map[];
      assert m - ks == m;
    } else {
      var k :| k in ks;
      SumRemove(m, k);
      SumRemove(picked, k);
      SumDrop(m - {k}, ks - {k});
      assert picked - {k} == map j | j in ks - {k} :: (m - {k})[j];
      assert m - {k} - (ks - {k}) == m - ks;
    }
  }

  lemma {:induction false} SumNonNegative<K(!new)>(m: map<K, int>)
    requires forall k :: k in m ==> m[k] >= 0
    ensures Sum(m) >= 0
    decreases |m|
  {
    if m != map[] {
      var k :| k in m;
      SumRemove(m, k);
      assert (m - {k}).Keys == m.Keys - {k};
      SumNonNegative(m - {k});
    }
  }
}

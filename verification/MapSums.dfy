/** Sums over the values of a finite map. */
module MapSums {

  ghost function Sum<K, V>(m: map<K, V>, f: V -> int): int
    decreases |m|
  {
    if m == map[] then 0
    else
      var k :| k in m;
      assert |(m - {k}).Keys| < |m.Keys| by { assert (m - {k}).Keys == m.Keys - {k}; }
      f(m[k]) + Sum(m - {k}, f)
  }

  /** Any key can be taken out first: the sum does not depend on the order of the keys. */
  lemma {:induction false} SumSplit<K, V>(m: map<K, V>, f: V -> int, k: K)
    requires k in m
    ensures Sum(m, f) == f(m[k]) + Sum(m - {k}, f)
    decreases |m|
  {
    var first :| first in m && Sum(m, f) == f(m[first]) + Sum(m - {first}, f);
    if first != k {
      assert (m - {first}).Keys == m.Keys - {first};
      assert |(m - {first}).Keys| < |m.Keys|;
      assert (m - {k}).Keys == m.Keys - {k};
      assert |(m - {k}).Keys| < |m.Keys|;
      SumSplit(m - {first}, f, k);
      SumSplit(m - {k}, f, first);
      assert m - {first} - {k} == m - {k} - {first};
    }
  }

  /** Writing one key replaces that key's share of the sum. */
  lemma SumUpdate<K, V>(m: map<K, V>, f: V -> int, k: K, v: V)
    ensures Sum(m[k := v], f) == Sum(m, f) - (if k in m then f(m[k]) else 0) + f(v)
  {
    SumSplit(m[k := v], f, k);
    assert m[k := v] - {k} == m - {k};
    if k in m {
      SumSplit(m, f, k);
    } else {
      assert m - {k} == m;
    }
  }

  /** Removing one key removes that key's share of the sum. */
  lemma SumRemove<K, V>(m: map<K, V>, f: V -> int, k: K)
    ensures Sum(m - {k}, f) == Sum(m, f) - (if k in m then f(m[k]) else 0)
  {
    if k in m {
      SumSplit(m, f, k);
    } else {
      assert m - {k} == m;
    }
  }

  /** A sum of non-negative shares is non-negative and at least each share. */
  lemma {:induction false} SumAtLeast<K, V>(m: map<K, V>, f: V -> int)
    requires forall k :: k in m ==> f(m[k]) >= 0
    ensures Sum(m, f) >= 0
    ensures forall k :: k in m ==> Sum(m, f) >= f(m[k])
    decreases |m|
  {
    if m != map[] {
      forall k | k in m
        ensures Sum(m, f) >= f(m[k])
      {
        SumSplit(m, f, k);
        assert (m - {k}).Keys == m.Keys - {k};
        assert |(m - {k}).Keys| < |m.Keys|;
        SumAtLeast(m - {k}, f);
      }
      var k :| k in m;
    }
  }

  /** A share-wise smaller sum is smaller. */
  lemma {:induction false} SumMonotone<K, V>(m: map<K, V>, f: V -> int, g: V -> int)
    requires forall k :: k in m ==> f(m[k]) <= g(m[k])
    ensures Sum(m, f) <= Sum(m, g)
    decreases |m|
  {
    if m != map[] {
      var k :| k in m;
      SumSplit(m, f, k);
      SumSplit(m, g, k);
      assert (m - {k}).Keys == m.Keys - {k};
      assert |(m - {k}).Keys| < |m.Keys|;
      SumMonotone(m - {k}, f, g);
    }
  }
}

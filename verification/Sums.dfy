/** Weighted sums over finite maps: the tool behind every conservation statement. */
module Sums {

  ghost function Pick<K, V>(m: map<K, V>): (k: K)
    requires m != map[]
    ensures k in m
  {
    var k :| k in m;
    k
  }

  /** The sum of w(k, m[k]) over all keys k of m. */
  ghost function Total<K, V>(m: map<K, V>, w: (K, V) -> int): int
    decreases |m|
  {
    if m == map[] then 0
    else
      var k := Pick(m);
      w(k, m[k]) + Total(m - {k}, w)
  }

  /** The order in which keys are taken does not matter. */
  lemma {:induction false} TotalRemove<K, V>(m: map<K, V>, w: (K, V) -> int, k: K)
    requires k in m
    ensures Total(m, w) == w(k, m[k]) + Total(m - {k}, w)
    decreases |m|
  {
    var first := Pick(m);
    if first != k {
      TotalRemove(m - {first}, w, k);
      TotalRemove(m - {k}, w, first);
      assert m - {first} - {k} == m - {k} - {first};
    }
  }

  lemma TotalPut<K, V>(m: map<K, V>, w: (K, V) -> int, k: K, v: V)
    ensures Total(m[k := v], w) ==
            Total(m, w) - (if k in m then w(k, m[k]) else 0) + w(k, v)
  {
    TotalRemove(m[k := v], w, k);
    if k in m {
      TotalRemove(m, w, k);
      assert m[k := v] - {k} == m - {k};
    } else {
      assert m[k := v] - {k} == m;
    }
  }

  lemma {:induction false} TotalNonNegative<K, V>(m: map<K, V>, w: (K, V) -> int)
    requires forall k :: k in m ==> w(k, m[k]) >= 0
    ensures Total(m, w) >= 0
    decreases |m|
  {
    if m != map[] {
      TotalNonNegative(m - {Pick(m)}, w);
    }
  }

  /** A single entry of a sum of non-negative terms is at most the sum. */
  lemma TotalBounds<K, V>(m: map<K, V>, w: (K, V) -> int, k: K)
    requires forall j :: j in m ==> w(j, m[j]) >= 0
    requires k in m
    ensures w(k, m[k]) <= Total(m, w)
  {
    TotalRemove(m, w, k);
    TotalNonNegative(m - {k}, w);
  }

  /** Pointwise comparison of two weights over the same map. */
  lemma {:induction false} TotalLe<K, V>(m: map<K, V>, w: (K, V) -> int, u: (K, V) -> int)
    requires forall k :: k in m ==> w(k, m[k]) <= u(k, m[k])
    ensures Total(m, w) <= Total(m, u)
    decreases |m|
  {
    if m != map[] {
      TotalLe(m - {Pick(m)}, w, u);
    }
  }

  /** Overwriting one entry while the weights of the others stay the same. */
  lemma TotalUpdate<K, V>(m: map<K, V>, w: (K, V) -> int, u: (K, V) -> int, k: K, v: V)
    requires forall j :: j in m && j != k ==> w(j, m[j]) == u(j, m[j])
    ensures Total(m[k := v], u) ==
            Total(m, w) - (if k in m then w(k, m[k]) else 0) + u(k, v)
  {
    TotalPut(m, u, k, v);
    if k in m {
      TotalRemove(m, w, k);
      TotalRemove(m, u, k);
      TotalLe(m - {k}, w, u);
      TotalLe(m - {k}, u, w);
    } else {
      TotalLe(m, w, u);
      TotalLe(m, u, w);
    }
  }
}

/** Finite sums over maps; the order in which entries are added does not matter. */
module Sums {

  ghost function Sum<K(!new)>(m: map<K, real>): real
    decreases |m|
  {
    if m == map[] then 0.0
    else
      var k :| k in m;
      assert |m - {k}| < |m| by { assert (m - {k}).Keys == m.Keys - {k}; }
      m[k] + Sum(m - {k})
  }

  /** Any entry may be taken out first. */
  lemma {:induction false} SumTake<K(!new)>(m: map<K, real>, k: K)
    requires k in m
    ensures Sum(m) == m[k] + Sum(m - {k})
    decreases |m|
  {
    var j :| j in m && Sum(m) == m[j] + Sum(m - {j});
    if j != k {
      assert (m - {j}).Keys == m.Keys - {j} && (m - {k}).Keys == m.Keys - {k};
      SumTake(m - {j}, k);
      SumTake(m - {k}, j);
      assert m - {j} - {k} == m - {k} - {j};
    }
  }

  lemma SumPut<K(!new)>(m: map<K, real>, k: K, v: real)
    requires k !in m
    ensures Sum(m[k := v]) == Sum(m) + v
  {
    SumTake(m[k := v], k);
    assert m[k := v] - {k} == m;
  }

  lemma {:induction false} SumPlus<K(!new)>(a: map<K, real>, b: map<K, real>, c: map<K, real>)
    requires a.Keys == b.Keys == c.Keys
    requires forall k :: k in a ==> c[k] == a[k] + b[k]
    ensures Sum(c) == Sum(a) + Sum(b)
    decreases |a|
  {
    if a == map[] {
      assert b == map[] && c == map[];
    } else {
      var k :| k in a;
      SumTake(a, k);
      SumTake(b, k);
      SumTake(c, k);
      assert (a - {k}).Keys == a.Keys - {k};
      SumPlus(a - {k}, b - {k}, c - {k});
    }
  }

  lemma {:induction false} SumNegate<K(!new)>(a: map<K, real>, c: map<K, real>)
    requires a.Keys == c.Keys
    requires forall k :: k in a ==> c[k] == -a[k]
    ensures Sum(c) == -Sum(a)
    decreases |a|
  {
    if a == map[] {
      assert c == map[];
    } else {
      var k :| k in a;
      SumTake(a, k);
      SumTake(c, k);
      assert (a - {k}).Keys == a.Keys - {k};
      SumNegate(a - {k}, c - {k});
    }
  }

  lemma {:induction false} SumZero<K(!new)>(m: map<K, real>)
    requires forall k :: k in m ==> m[k] == 0.0
    ensures Sum(m) == 0.0
    decreases |m|
  {
    if m != map[] {
      var k :| k in m;
      SumTake(m, k);
      assert (m - {k}).Keys == m.Keys - {k};
      SumZero(m - {k});
    }
  }

  /** A map that is zero everywhere but at `k` sums to its entry at `k`. */
  lemma SumPoint<K(!new)>(m: map<K, real>, k: K)
    requires k in m
    requires forall j :: j in m && j != k ==> m[j] == 0.0
    ensures Sum(m) == m[k]
  {
    SumTake(m, k);
    SumZero(m - {k});
  }

  lemma {:induction false} SumNonNegative<K(!new)>(m: map<K, real>)
    requires forall k :: k in m ==> m[k] >= 0.0
    ensures Sum(m) >= 0.0
    decreases |m|
  {
    if m != map[] {
      var k :| k in m;
      SumTake(m, k);
      assert (m - {k}).Keys == m.Keys - {k};
      SumNonNegative(m - {k});
    }
  }

  /** Dropping zero entries does not change a sum. */
  lemma {:induction false} SumOfNonZero<K(!new)>(all: map<K, real>, some: map<K, real>)
    requires some.Keys <= all.Keys
    requires forall k :: k in all ==> all[k] == if k in some then some[k] else 0.0
    ensures Sum(all) == Sum(some)
    decreases |all|
  {
    if all == map[] {
      assert some == map[];
    } else {
      var k :| k in all;
      SumTake(all, k);
      assert (all - {k}).Keys == all.Keys - {k};
      if k in some {
        SumTake(some, k);
        SumOfNonZero(all - {k}, some - {k});
      } else {
        SumOfNonZero(all - {k}, some);
      }
    }
  }
}

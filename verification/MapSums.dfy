/** Sums over the values of a finite map. */
module MapSums {

  ghost function SumBy<K, V>(m: map<K, V>, f: V -> nat): nat
    decreases |m|
  {
    if m == map[] then 0 else var k :| k in m; f(m[k]) + SumBy(m - {k}, f)
  }

  /** The sum does not depend on the order in which the keys are taken. */
  lemma {:induction false} SumByTake<K, V>(m: map<K, V>, f: V -> nat, k: K)
    requires k in m
    ensures SumBy(m, f) == f(m[k]) + SumBy(m - {k}, f)
    decreases |m|
  {
    var k0 :| k0 in m && SumBy(m, f) == f(m[k0]) + SumBy(m - {k0}, f);
    if k0 != k {
      SumByTake(m - {k0}, f, k);
      SumByTake(m - {k}, f, k0);
      assert m - {k0} - {k} == m - {k} - {k0};
    }
  }

  lemma SumByPut<K, V>(m: map<K, V>, f: V -> nat, k: K, v: V)
    ensures SumBy(m[k := v], f) == SumBy(m - {k}, f) + f(v)
    ensures k !in m ==> SumBy(m[k := v], f) == SumBy(m, f) + f(v)
    ensures k in m ==> SumBy(m[k := v], f) == SumBy(m, f) - f(m[k]) + f(v)
  {
    SumByTake(m[k := v], f, k);
    assert m[k := v] - {k} == m - {k};
    if k in m {
      SumByTake(m, f, k);
    } else {
      assert m - {k} == m;
    }
  }

  /** A sum over fewer keys, with smaller values, is smaller. */
  lemma {:induction false} SumByBelow<K, V, W>(m: map<K, V>, f: V -> nat, p: map<K, W>, g: W -> nat)
    requires forall k :: k in m ==> k in p && f(m[k]) <= g(p[k])
    ensures SumBy(m, f) <= SumBy(p, g)
    decreases |m|
  {
    if m != map[] {
      var k :| k in m;
      SumByTake(m, f, k);
      SumByTake(p, g, k);
      SumByBelow(m - {k}, f, p - {k}, g);
    }
  }

  lemma SumByZero<K, V>(m: map<K, V>, f: V -> nat)
    requires forall k :: k in m ==> f(m[k]) > 0
    ensures SumBy(m, f) == 0 <==> m == map[]
  {
    if m != map[] {
      var k :| k in m;
      SumByTake(m, f, k);
    }
  }

  lemma {:induction false} SumByNil<K, V>(m: map<K, V>, f: V -> nat)
    requires forall k :: k in m ==> f(m[k]) == 0
    ensures SumBy(m, f) == 0
    decreases |m|
  {
    if m != map[] {
      var k :| k in m;
      SumByTake(m, f, k);
      SumByNil(m - {k}, f);
    }
  }

  /** The sum, with or without the key `k`. */
  lemma SumByOut<K, V>(m: map<K, V>, f: V -> nat, k: K)
    ensures SumBy(m, f) == SumBy(m - {k}, f) + if k in m then f(m[k]) else 0
  {
    if k in m {
      SumByTake(m, f, k);
    } else {
      assert m - {k} == m;
    }
  }

  /** `f` of the entry at `k`, zero if there is none. */
  function ValueAt<K, V>(m: map<K, V>, f: V -> nat, k: K): nat {
    if k in m then f(m[k]) else 0
  }

  /** Two maps whose entries add up to those of a third have sums that add up. */
  lemma {:induction false} SumsAddUp<K, U, V, W>(p: map<K, U>, f: U -> nat, q: map<K, V>, g: V -> nat, r: map<K, W>, h: W -> nat)
    requires forall k :: ValueAt(p, f, k) + ValueAt(q, g, k) == ValueAt(r, h, k)
    ensures SumBy(p, f) + SumBy(q, g) == SumBy(r, h)
    decreases |r|
  {
    if r == map[] {
      forall k | k in p ensures f(p[k]) == 0 { assert ValueAt(r, h, k) == 0; }
      forall k | k in q ensures g(q[k]) == 0 { assert ValueAt(r, h, k) == 0; }
      SumByNil(p, f);
      SumByNil(q, g);
    } else {
      var k :| k in r;
      SumByOut(p, f, k);
      SumByOut(q, g, k);
      SumByOut(r, h, k);
      assert ValueAt(p, f, k) + ValueAt(q, g, k) == ValueAt(r, h, k);
      forall j ensures ValueAt(p - {k}, f, j) + ValueAt(q - {k}, g, j) == ValueAt(r - {k}, h, j) {
        assert ValueAt(p, f, j) + ValueAt(q, g, j) == ValueAt(r, h, j);
      }
      SumsAddUp(p - {k}, f, q - {k}, g, r - {k}, h);
    }
  }
}

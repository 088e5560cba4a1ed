/** Totals over dictionaries: the sum of a real-valued weight over the values of a finite map. */
module Sums {

  ghost function Sum<K(!new)>(m: map<K, real>): real
    decreases |m|
  {
    if m == map[] then 0.0 else
      var k :| k in m;
      m[k] + Sum(m - {k})
  }

  lemma {:induction false} SumRemove<K(!new)>(m: map<K, real>, k: K)
    requires k in m
    ensures Sum(m) == m[k] + Sum(m - {k})
    decreases |m|
  {
    assert m != map[];
    var c :| c in m && Sum(m) == m[c] + Sum(m - {c});
    if c != k {
      SumRemove(m - {c}, k);
      SumRemove(m - {k}, c);
      assert m - {c} - {k} == m - {k} - {c};
    }
  }

  lemma SumUpdate<K(!new)>(m: map<K, real>, k: K, v: real)
    ensures Sum(m[k := v]) == Sum(m) - (if k in m then m[k] else 0.0) + v
  {
    var m' := m[k := v];
    SumRemove(m', k);
    assert m' - {k} == m - {k};
    if k in m {
      SumRemove(m, k);
    } else {
      assert m - {k} == m;
    }
  }

  /** Total of `weight` over the values of a dictionary. */
  ghost function SumBy<K(!new), V>(m: map<K, V>, weight: V -> real): real {
    Sum(map k | k in m :: weight(m[k]))
  }

  lemma SumByUpdate<K(!new), V>(m: map<K, V>, k: K, v: V, weight: V -> real)
    ensures SumBy(m[k := v], weight) == SumBy(m, weight) - (if k in m then weight(m[k]) else 0.0) + weight(v)
  {
    var w := map j | j in m :: weight(m[j]);
    SumUpdate(w, k, weight(v));
    var n := m[k := v];
    assert (map j | j in n :: weight(n[j])) == w[k := weight(v)];
  }

  lemma SumByEmpty<K(!new), V>(m: map<K, V>, weight: V -> real)
    requires m == map[]
    ensures SumBy(m, weight) == 0.0
  {
    assert (map j | j in m :: weight(m[j])) == map[];
  }

  /** Taking one entry out of the dictionary takes its weight out of the total. */
  lemma SumByRemove<K(!new), V>(m: map<K, V>, k: K, weight: V -> real)
    requires k in m
    ensures SumBy(m, weight) == weight(m[k]) + SumBy(m - {k}, weight)
  {
    var w := map j | j in m :: weight(m[j]);
    SumRemove(w, k);
    assert (map j | j in m - {k} :: weight((m - {k})[j])) == w - {k};
  }

  /** Equal weights entry by entry give equal totals. */
  lemma {:induction false} SumByEqual<K(!new), V, U>(m: map<K, V>, n: map<K, U>, f: V -> real, g: U -> real)
    requires m.Keys == n.Keys
    requires forall k :: k in m ==> f(m[k]) == g(n[k])
    ensures SumBy(m, f) == SumBy(n, g)
  {
    assert (map j | j in m :: f(m[j])) == (map j | j in n :: g(n[j]));
  }

  lemma {:induction false} SumByNonNegative<K(!new), V>(m: map<K, V>, f: V -> real)
    requires forall k :: k in m ==> f(m[k]) >= 0.0
    ensures SumBy(m, f) >= 0.0
    decreases |m|
  {
    if m == map[] {
      SumByEmpty(m, f);
    } else {
      var k :| k in m;
      SumByRemove(m, k, f);
      SumByNonNegative(m - {k}, f);
    }
  }

  /** One entry weighs no more than the whole, when nothing weighs less than zero. */
  lemma SumByDominates<K(!new), V>(m: map<K, V>, k: K, f: V -> real)
    requires k in m && forall j :: j in m ==> f(m[j]) >= 0.0
    ensures f(m[k]) <= SumBy(m, f)
  {
    SumByRemove(m, k, f);
    SumByNonNegative(m - {k}, f);
  }

  lemma {:induction false} SumByDifference<K(!new), V>(m: map<K, V>, f: V -> real, g: V -> real, h: V -> real)
    requires forall k :: k in m ==> h(m[k]) == f(m[k]) - g(m[k])
    ensures SumBy(m, h) == SumBy(m, f) - SumBy(m, g)
    decreases |m|
  {
    if m == map[] {
      SumByEmpty(m, f); SumByEmpty(m, g); SumByEmpty(m, h);
    } else {
      var k :| k in m;
      SumByRemove(m, k, f); SumByRemove(m, k, g); SumByRemove(m, k, h);
      SumByDifference(m - {k}, f, g, h);
    }
  }
}

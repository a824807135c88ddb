/** Sums over the values of a finite map, for measures that add up what each thread has left. */
module Sums {

  ghost function Sum<K(!new), P(!new)>(m: map<K, P>, w: P -> nat): nat
    decreases |m|
  {
    if m == map[] then 0 else var k :| k in m; w(m[k]) + Sum(m - {k}, w)
  }

  /** Any key may be taken out first. */
  lemma {:induction false} SumWithout<K(!new), P(!new)>(m: map<K, P>, w: P -> nat, k: K)
    requires k in m
    ensures Sum(m, w) == w(m[k]) + Sum(m - {k}, w)
    decreases |m|
  {
    var first :| first in m && Sum(m, w) == w(m[first]) + Sum(m - {first}, w);
    if first != k {
      SumWithout(m - {first}, w, k);
      SumWithout(m - {k}, w, first);
      assert m - {first} - {k} == m - {k} - {first};
    }
  }

  function Old<K, P>(m: map<K, P>, w: P -> nat, k: K): nat { if k in m then w(m[k]) else 0 }

  /** Changing one value changes the sum by the difference of its weights. */
  lemma SumUpdate<K(!new), P(!new)>(m: map<K, P>, w: P -> nat, k: K, p: P)
    ensures Sum(m[k := p], w) + Old(m, w, k) == Sum(m, w) + w(p)
  {
    SumWithout(m[k := p], w, k);
    assert m[k := p] - {k} == m - {k};
    if k in m { SumWithout(m, w, k); } else { assert m - {k} == m; }
  }
}

/** Sums over the values of a finite map. */
module Sums {

  ghost function Sum<K(!new)>(m: map<K, int>): int
    decreases |m|
  {
    if m == map[] then 0 else var k :| k in m; m[k] + Sum(m - {k})
  }

  lemma {:induction false} SumRemove<K(!new)>(m: map<K, int>, k: K)
    requires k in m
    ensures Sum(m) == m[k] + Sum(m - {k})
    decreases |m|
  {
    var c :| c in m && Sum(m) == m[c] + Sum(m - {c});
    if c != k {
      SumRemove(m - {c}, k);
      SumRemove(m - {k}, c);
      assert m - {c} - {k} == m - {k} - {c};
    }
  }

  lemma SumUpdate<K(!new)>(m: map<K, int>, k: K, v: int)
    ensures Sum(m[k := v]) == Sum(m) + v - if k in m then m[k] else 0
  {
    SumRemove(m[k := v], k);
    assert m[k := v] - {k} == m - {k};
    if k in m {
      SumRemove(m, k);
    } else {
      assert m - {k} == m;
    }
  }

  lemma {:induction false} SumAdd<K(!new)>(a: map<K, int>, b: map<K, int>, c: map<K, int>)
    requires a.Keys == b.Keys == c.Keys && forall k | k in c :: c[k] == a[k] + b[k]
    ensures Sum(c) == Sum(a) + Sum(b)
    decreases |c|
  {
    if c != map[] {
      var k :| k in c;
      SumRemove(a, k);
      SumRemove(b, k);
      SumRemove(c, k);
      SumAdd(a - {k}, b - {k}, c - {k});
    } else {
      assert a == map[] && b == map[];
    }
  }

  /** Values that are not negative add up to nothing only when all of them are nothing. */
  lemma {:induction false} SumZero<K(!new)>(m: map<K, int>)
    requires forall k | k in m :: m[k] >= 0
    ensures Sum(m) >= 0 && (Sum(m) == 0 <==> forall k | k in m :: m[k] == 0)
    decreases |m|
  {
    if m != map[] {
      var k :| k in m;
      var rest := m - {k};
      SumRemove(m, k);
      SumZero(rest);
      assert forall x | x in m && x != k :: x in rest && rest[x] == m[x];
      assert Sum(m) == 0 <==> m[k] == 0 && Sum(rest) == 0;
    }
  }
}

/** Sums over the rows of a table, and how one write changes them. */
module Sums {
  import opened Base

  /** The sum of all amounts in a table. */
  ghost function Sum<K>(m: map<K, int>): int
    decreases |m|
  {
    if m == map[] then 0
    else
      var k :| k in m;
      assert (m - {k}).Keys == m.Keys - {k};
      m[k] + Sum(m - {k})
  }

  /** The row taken out first does not matter. */
  lemma {:induction false} SumSplit<K>(m: map<K, int>, k: K)
    requires k in m
    ensures Sum(m) == m[k] + Sum(m - {k})
    decreases |m|
  {
    var j :| j in m && Sum(m) == m[j] + Sum(m - {j});
    if j != k {
      assert (m - {k}).Keys == m.Keys - {k} && (m - {j}).Keys == m.Keys - {j};
      SumSplit(m - {j}, k);
      SumSplit(m - {k}, j);
      assert m - {j} - {k} == m - {k} - {j};
    }
  }

  lemma SumPut<K>(m: map<K, int>, k: K, v: int)
    ensures Sum(m[k := v]) == Sum(m) - Get0(m, k) + v
  {
    SumSplit(m[k := v], k);
    assert m[k := v] - {k} == m - {k};
    SumDrop(m, k);
  }

  lemma SumDrop<K>(m: map<K, int>, k: K)
    ensures Sum(m - {k}) == Sum(m) - Get0(m, k)
  {
    if k in m {
      SumSplit(m, k);
    } else {
      assert m - {k} == m;
    }
  }

  lemma SumStore<K>(m: map<K, int>, k: K, v: int)
    ensures Sum(Store(m, k, v)) == Sum(m) - Get0(m, k) + v
  {
    if v == 0 { SumDrop(m, k); } else { SumPut(m, k, v); }
  }

  /** In a table without negative amounts, no row exceeds the sum. */
  lemma {:induction false} SumBoundsRows<K>(m: map<K, int>, ks: set<K>)
    requires forall k :: k in m ==> 0 <= m[k]
    requires ks <= m.Keys
    ensures 0 <= Sum(map k | k in ks :: m[k]) <= Sum(m)
    decreases |m|
  {
    var part := map k | k in ks :: m[k];
    if m != map[] {
      var k :| k in m && Sum(m) == m[k] + Sum(m - {k});
      assert (m - {k}).Keys == m.Keys - {k};
      SumBoundsRows(m - {k}, ks - {k});
      assert part - {k} == map j | j in ks - {k} :: (m - {k})[j];
      SumDrop(part, k);
    } else {
      assert part == m;
    }
  }

  lemma SumAtLeast<K>(m: map<K, int>, k: K)
    requires forall j :: j in m ==> 0 <= m[j]
    ensures 0 <= Get0(m, k) <= Sum(m)
  {
    if k in m {
      SumBoundsRows(m, {k});
      assert (map j | j in {k} :: m[j]) == map[k := m[k]];
      SumPut(map[], k, m[k]);
    } else {
      SumBoundsRows(m, m.Keys);
    }
  }

  /** Two tables whose rows together never exceed a third table's rows have sums that do not either. */
  lemma {:induction false} SumPairBound<K>(a: map<K, int>, b: map<K, int>, c: map<K, int>)
    requires a.Keys == b.Keys == c.Keys
    requires forall k :: k in c ==> a[k] + b[k] <= c[k]
    ensures Sum(a) + Sum(b) <= Sum(c)
    decreases |c|
  {
    if c == map[] {
      assert a == map[] && b == map[];
    } else {
      var k :| k in c;
      assert (c - {k}).Keys == c.Keys - {k};
      SumSplit(a, k);
      SumSplit(b, k);
      SumSplit(c, k);
      SumPairBound(a - {k}, b - {k}, c - {k});
    }
  }

  lemma {:induction false} SumZero<K>(m: map<K, int>)
    requires forall k :: k in m ==> m[k] == 0
    ensures Sum(m) == 0
    decreases |m|
  {
    if m != map[] {
      var k :| k in m && Sum(m) == m[k] + Sum(m - {k});
      assert (m - {k}).Keys == m.Keys - {k};
      SumZero(m - {k});
    }
  }

  // ---------------------------------------------------------------------------------------------
  // Sums over the rows whose key satisfies a condition

  function Slice<K>(m: map<K, int>, p: K -> bool): map<K, int> {
    map k | k in m && p(k) :: m[k]
  }

  ghost function SumWhere<K>(m: map<K, int>, p: K -> bool): int {
    Sum(Slice(m, p))
  }

  lemma SumWherePut<K>(m: map<K, int>, k: K, v: int, p: K -> bool)
    ensures SumWhere(m[k := v], p) == SumWhere(m, p) + if p(k) then v - Get0(m, k) else 0
  {
    if p(k) {
      assert Slice(m[k := v], p) == Slice(m, p)[k := v];
      SumPut(Slice(m, p), k, v);
    } else {
      assert Slice(m[k := v], p) == Slice(m, p);
    }
  }

  lemma SumWhereDrop<K>(m: map<K, int>, k: K, p: K -> bool)
    ensures SumWhere(m - {k}, p) == SumWhere(m, p) - if p(k) then Get0(m, k) else 0
  {
    if p(k) {
      assert Slice(m - {k}, p) == Slice(m, p) - {k};
      SumDrop(Slice(m, p), k);
    } else {
      assert Slice(m - {k}, p) == Slice(m, p);
    }
  }

  lemma SumWhereStore<K>(m: map<K, int>, k: K, v: int, p: K -> bool)
    ensures SumWhere(Store(m, k, v), p) == SumWhere(m, p) + if p(k) then v - Get0(m, k) else 0
  {
    if v == 0 { SumWhereDrop(m, k, p); } else { SumWherePut(m, k, v, p); }
  }

  /** The rows in a slice are no more than all rows, and each is no more than the slice. */
  lemma SumWhereBounds<K>(m: map<K, int>, p: K -> bool, k: K)
    requires forall j :: j in m ==> 0 <= m[j]
    ensures 0 <= SumWhere(m, p) <= Sum(m)
    ensures p(k) ==> Get0(m, k) <= SumWhere(m, p)
  {
    var slice := Slice(m, p);
    SumBoundsRows(m, slice.Keys);
    assert slice == map j | j in slice.Keys :: m[j];
    SumAtLeast(slice, k);
  }
}

/** Finite sums over the rows of a table. */
module Sums {

  ghost function Sum<K>(m: map<K, int>): int {
    if m == map[] then 0 else var k :| k in m; m[k] + Sum(m - {k})
  }

  /** A row can be taken out of the sum wherever the choice falls. */
  lemma {:induction false} SumTakeOut<K>(m: map<K, int>, k: K)
    requires k in m
    ensures Sum(m) == m[k] + Sum(m - {k})
    decreases |m|
  {
    var j :| j in m && Sum(m) == m[j] + Sum(m - {j});
    if j != k {
      SumTakeOut(m - {j}, k);
      SumTakeOut(m - {k}, j);
      assert m - {j} - {k} == m - {k} - {j};
    }
  }

  /** Two tables that agree on every other row differ in the sum by that row. */
  lemma SumChange<K>(m: map<K, int>, n: map<K, int>, k: K)
    requires m - {k} == n - {k}
    ensures Sum(n) - (if k in n then n[k] else 0) == Sum(m) - (if k in m then m[k] else 0)
  {
    if k in m { SumTakeOut(m, k); } else { assert m - {k} == m; }
    if k in n { SumTakeOut(n, k); } else { assert n - {k} == n; }
  }

  lemma SumChangeAt<K>(m: map<K, int>, n: map<K, int>, k: K)
    requires forall x | x != k :: (x in m <==> x in n) && (x in m ==> m[x] == n[x])
    ensures Sum(n) - (if k in n then n[k] else 0) == Sum(m) - (if k in m then m[k] else 0)
  {
    assert m - {k} == n - {k};
    SumChange(m, n, k);
  }

  lemma {:induction false} SumNonNegative<K>(m: map<K, int>)
    requires forall k | k in m :: m[k] >= 0
    ensures Sum(m) >= 0
    decreases |m|
  {
    if m != map[] {
      var k :| k in m;
      SumTakeOut(m, k);
      SumNonNegative(m - {k});
    }
  }

  /** A row of a non-negative table is at most the sum. */
  lemma SumBounds<K>(m: map<K, int>, k: K)
    requires k in m
    requires forall j | j in m :: m[j] >= 0
    ensures m[k] <= Sum(m)
  {
    SumTakeOut(m, k);
    SumNonNegative(m - {k});
  }

  lemma {:induction false} SumMonotone<K>(m: map<K, int>, n: map<K, int>)
    requires m.Keys == n.Keys && forall k | k in m :: m[k] <= n[k]
    ensures Sum(m) <= Sum(n)
    decreases |m|
  {
    if m == map[] {
      assert n == map[];
    } else {
      var k :| k in m;
      SumTakeOut(m, k);
      SumTakeOut(n, k);
      SumMonotone(m - {k}, n - {k});
    }
  }

  lemma {:induction false} SumZero<K>(m: map<K, int>)
    requires forall k | k in m :: m[k] == 0
    ensures Sum(m) == 0
    decreases |m|
  {
    if m != map[] {
      var k :| k in m;
      SumTakeOut(m, k);
      SumZero(m - {k});
    }
  }

  /** A table split in two disjoint parts row by row sums to the parts. */
  lemma {:induction false} SumSplit<K>(m: map<K, int>, a: map<K, int>, b: map<K, int>)
    requires m.Keys == a.Keys == b.Keys
    requires forall k | k in m :: m[k] == a[k] + b[k]
    ensures Sum(m) == Sum(a) + Sum(b)
    decreases |m|
  {
    if m == map[] {
      assert a == map[] && b == map[];
    } else {
      var k :| k in m;
      SumTakeOut(m, k);
      SumTakeOut(a, k);
      SumTakeOut(b, k);
      SumSplit(m - {k}, a - {k}, b - {k});
    }
  }

  /** Rows of zero add nothing. */
  lemma {:induction false} SumPadded<K>(m: map<K, int>, n: map<K, int>)
    requires n.Keys <= m.Keys && forall k | k in m :: m[k] == if k in n then n[k] else 0
    ensures Sum(m) == Sum(n)
    decreases |m|
  {
    if m == map[] {
      assert n == map[];
    } else {
      var k :| k in m;
      SumTakeOut(m, k);
      if k in n { SumTakeOut(n, k); } else { assert n - {k} == n; }
      SumPadded(m - {k}, n - {k});
    }
  }
}

/**
 Sums of integer weights over the rows of a table. A table is a finite map from its key
 to the rest of the row; a SQL `count(*)` or `sum(column)` with a filter is a weight that
 is zero on the rows the filter rejects.
 */
module Sums {

  ghost function Pick<K, V>(m: map<K, V>): (k: K)
    requires m != map[]
    ensures k in m
  {
    var k :| k in m;
    k
  }

  ghost function Sum<K, V>(m: map<K, V>, w: (K, V) -> int): int
    decreases |m|
  {
    if m == map[] then 0
    else
      var k := Pick(m);
      assert (m - {k}).Keys == m.Keys - {k};
      w(k, m[k]) + Sum(m - {k}, w)
  }

  /** The weight of row `k`, zero when there is no such row. */
  ghost function At<K, V>(m: map<K, V>, w: (K, V) -> int, k: K): int {
    if k in m then w(k, m[k]) else 0
  }

  /** The choice of the first row does not matter: any row can be taken out of the sum. */
  lemma {:induction false} Drop<K, V>(m: map<K, V>, w: (K, V) -> int, k: K)
    ensures Sum(m - {k}, w) == Sum(m, w) - At(m, w, k)
    decreases |m|
  {
    if k !in m {
      assert m - {k} == m;
    } else {
      var p := Pick(m);
      if p != k {
        assert (m - {p}).Keys == m.Keys - {p} && (m - {k}).Keys == m.Keys - {k};
        Drop(m - {p}, w, k);
        Drop(m - {k}, w, p);
        assert m - {p} - {k} == m - {k} - {p};
      }
    }
  }

  lemma Put<K, V>(m: map<K, V>, w: (K, V) -> int, k: K, v: V)
    ensures Sum(m[k := v], w) == Sum(m, w) - At(m, w, k) + w(k, v)
  {
    Drop(m, w, k);
    Drop(m[k := v], w, k);
    assert m[k := v] - {k} == m - {k};
  }

  lemma {:induction false} Monotone<K, V>(m: map<K, V>, w: (K, V) -> int, w': (K, V) -> int)
    requires forall k :: k in m ==> w(k, m[k]) <= w'(k, m[k])
    ensures Sum(m, w) <= Sum(m, w')
    decreases |m|
  {
    if m != map[] {
      var k := Pick(m);
      assert (m - {k}).Keys == m.Keys - {k};
      Monotone(m - {k}, w, w');
    }
  }

  lemma Same<K, V>(m: map<K, V>, w: (K, V) -> int, w': (K, V) -> int)
    requires forall k :: k in m ==> w(k, m[k]) == w'(k, m[k])
    ensures Sum(m, w) == Sum(m, w')
  {
    Monotone(m, w, w');
    Monotone(m, w', w);
  }

  lemma {:induction false} Add<K, V>(m: map<K, V>, w: (K, V) -> int, v: (K, V) -> int, both: (K, V) -> int)
    requires forall k :: k in m ==> both(k, m[k]) == w(k, m[k]) + v(k, m[k])
    ensures Sum(m, both) == Sum(m, w) + Sum(m, v)
    decreases |m|
  {
    if m != map[] {
      var k := Pick(m);
      assert (m - {k}).Keys == m.Keys - {k};
      Add(m - {k}, w, v, both);
    }
  }

  /** Weights of at most `each` on the rows that count, and zero on the others. */
  lemma {:induction false} AtMostEach<K, V>(m: map<K, V>, w: (K, V) -> int, count: (K, V) -> int, each: int)
    requires forall k :: k in m ==> (count(k, m[k]) == 1 && w(k, m[k]) <= each) || (count(k, m[k]) == 0 && w(k, m[k]) <= 0)
    ensures Sum(m, w) <= Sum(m, count) * each
    decreases |m|
  {
    if m != map[] {
      var k := Pick(m);
      assert (m - {k}).Keys == m.Keys - {k};
      AtMostEach(m - {k}, w, count, each);
      OneMore(Sum(m - {k}, count), count(k, m[k]), each);
    }
  }
  lemma OneMore(n: int, c: int, each: int)
    ensures c == 0 ==> (c + n) * each == n * each
    ensures c == 1 ==> (c + n) * each == each + n * each
  {
  }

  lemma {:induction false} NonNegative<K, V>(m: map<K, V>, w: (K, V) -> int)
    requires forall k :: k in m ==> 0 <= w(k, m[k])
    ensures 0 <= Sum(m, w)
    ensures forall k :: k in m ==> w(k, m[k]) <= Sum(m, w)
    decreases |m|
  {
    if m != map[] {
      var p := Pick(m);
      assert (m - {p}).Keys == m.Keys - {p};
      NonNegative(m - {p}, w);
      forall k | k in m ensures w(k, m[k]) <= Sum(m, w) {
        assert k == p || k in m - {p};
      }
    }
  }

  lemma {:induction false} Zero<K, V>(m: map<K, V>, w: (K, V) -> int)
    requires forall k :: k in m ==> w(k, m[k]) == 0
    ensures Sum(m, w) == 0
    decreases |m|
  {
    if m != map[] {
      var k := Pick(m);
      assert (m - {k}).Keys == m.Keys - {k};
      Zero(m - {k}, w);
    }
  }

  /** Equal sums of ordered weights leave no row where the weights differ. */
  lemma {:induction false} Strict<K, V>(m: map<K, V>, w: (K, V) -> int, w': (K, V) -> int)
    requires forall k :: k in m ==> w(k, m[k]) <= w'(k, m[k])
    requires Sum(m, w) == Sum(m, w')
    ensures forall k :: k in m ==> w(k, m[k]) == w'(k, m[k])
  {
    forall k | k in m ensures w(k, m[k]) == w'(k, m[k]) {
      Drop(m, w, k);
      Drop(m, w', k);
      Monotone(m - {k}, w, w');
    }
  }

  /** Deleting rows: what is left weighs what the whole table weighs under the weight that
      counts only the rows left. */
  lemma {:induction false} Keep<K, V>(m: map<K, V>, gone: set<K>, w: (K, V) -> int, kept: (K, V) -> int)
    requires forall k :: k in m ==> kept(k, m[k]) == if k in gone then 0 else w(k, m[k])
    ensures Sum(m - gone, w) == Sum(m, kept)
    decreases |m|
  {
    if m != map[] {
      var p := Pick(m);
      assert (m - {p}).Keys == m.Keys - {p};
      Keep(m - {p}, gone, w, kept);
      assert m - {p} - gone == m - gone - {p};
      Drop(m - gone, w, p);
    } else {
      assert m - gone == m;
    }
  }

  /** The loop a database runs for `SELECT sum(w) FROM m`. */
  method Aggregate<K(==), V>(m: map<K, V>, w: (K, V) -> int) returns (total: int)
    ensures total == Sum(m, w)
  {
    total := 0;
    var rest := m.Keys;
    assert (map k | k in rest :: m[k]) == m;
    while rest != {}
      invariant rest <= m.Keys
      invariant total + Sum(map k | k in rest :: m[k], w) == Sum(m, w)
      decreases |rest|
    {
      ghost var before := map k | k in rest :: m[k];
      var k :| k in rest;
      Drop(before, w, k);
      assert before - {k} == map j | j in rest - {k} :: m[j];
      total := total + w(k, m[k]);
      rest := rest - {k};
    }
    assert (map k | k in rest :: m[k]) == map[];
  }
}

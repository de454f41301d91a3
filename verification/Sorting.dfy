/**
 Sorting by a comparison, as the library does it for sources and query parameters.
 */
module Sorting {
  /** A comparison under which "neither is less" is an equivalence. */
  ghost predicate Ordering<T(!new)>(less: (T, T) -> bool) {
    && (forall a, b :: less(a, b) ==> !less(b, a))
    && (forall a, b, c :: !less(b, a) && !less(c, b) ==> !less(c, a))
  }
  ghost predicate InOrder<T>(items: seq<T>, less: (T, T) -> bool) {
    forall i, j :: 0 <= i < j < |items| ==> !less(items[j], items[i])
  }
  lemma Inserted<T(!new)>(items: seq<T>, less: (T, T) -> bool, item: T, i: nat)
    requires Ordering(less) && InOrder(items, less) && i <= |items|
    requires forall k :: i <= k < |items| ==> less(item, items[k])
    requires i > 0 ==> !less(item, items[i - 1])
    ensures InOrder(items[..i] + [item] + items[i..], less)
  {
    forall k | 0 <= k < i ensures !less(item, items[k]) {
      if k < i - 1 { assert !less(items[i - 1], items[k]); }
    }
    var out := items[..i] + [item] + items[i..];
    forall j, k | 0 <= j < k < |out| ensures !less(out[k], out[j]) {
      var a, b := if j < i then j else j - 1, if k < i then k else k - 1;
      if k == i { assert out[j] == items[j]; }
      else if j == i { assert out[k] == items[b]; }
      else { assert out[j] == items[a] && out[k] == items[b]; }
    }
  }
  lemma InsertedItems<T>(items: seq<T>, item: T, i: nat)
    requires i <= |items|
    ensures multiset(items[..i] + [item] + items[i..]) == multiset(items) + multiset{item}
  {
    assert items == items[..i] + items[i..];
  }

  method Sort<T(!new)>(items: seq<T>, less: (T, T) -> bool) returns (out: seq<T>)
    requires Ordering(less)
    ensures InOrder(out, less) && multiset(out) == multiset(items)
  {
    out := [];
    var n := 0;
    while n < |items|
      invariant n <= |items| && InOrder(out, less) && multiset(out) == multiset(items[..n])
    {
      var i := |out|;
      while i > 0 && less(items[n], out[i - 1])
        invariant 0 <= i <= |out| && forall k :: i <= k < |out| ==> less(items[n], out[k])
      {
        i := i - 1;
      }
      Inserted(out, less, items[n], i);
      InsertedItems(out, items[n], i);
      assert items[..n + 1] == items[..n] + [items[n]];
      out := out[..i] + [items[n]] + out[i..];
      n := n + 1;
    }
    assert items[..n] == items;
  }

  // ---------- The oldest first ----------

  /** `ORDER BY time LIMIT n`: no more than n keys, earliest times first, nothing left out
      that is earlier than something listed, and nothing at all if there was room. */
  ghost predicate IsOldest<K(!new)>(times: map<K, int>, limit: nat, list: seq<K>) {
    && (forall i :: 0 <= i < |list| ==> list[i] in times)
    && (forall i, j :: 0 <= i < j < |list| ==> list[i] != list[j] && times[list[i]] <= times[list[j]])
    && |list| <= limit
    && (forall b, c :: b in times && b !in list && c in list ==> times[c] <= times[b])
    && (|list| < limit ==> forall b :: b in times ==> b in list)
  }

  datatype Timed<K> = Timed(key: K, time: int)

  predicate Sooner<K>(a: Timed<K>, b: Timed<K>) { a.time < b.time }

  ghost predicate AllTimed<K(!new)>(rows: seq<Timed<K>>, times: map<K, int>) {
    && (forall i :: 0 <= i < |rows| ==> rows[i].key in times && rows[i].time == times[rows[i].key])
    && (forall i, j :: 0 <= i < j < |rows| ==> rows[i].key != rows[j].key)
    && (forall b :: b in times ==> Timed(b, times[b]) in rows)
  }

  lemma FirstRows<K(!new)>(times: map<K, int>, limit: nat, rows: seq<Timed<K>>, list: seq<K>)
    requires InOrder(rows, Sooner) && AllTimed(rows, times) && |list| == if |rows| < limit then |rows| else limit
    requires forall i :: 0 <= i < |list| ==> list[i] == rows[i].key
    ensures IsOldest(times, limit, list)
  {
    forall k | 0 <= k < |list| ensures rows[k].key in list { assert list[k] in list; }
    forall i, j | 0 <= i < j < |list| ensures times[list[i]] <= times[list[j]] { assert !Sooner(rows[j], rows[i]); }
    forall b, c | b in times && b !in list && c in list ensures times[c] <= times[b] {
      var i :| 0 <= i < |rows| && rows[i] == Timed(b, times[b]);
      var j :| 0 <= j < |list| && list[j] == c;
      assert !Sooner(rows[i], rows[j]);
    }
    if |list| < limit {
      forall b | b in times ensures b in list {
        var i :| 0 <= i < |rows| && rows[i] == Timed(b, times[b]);
        assert list[i] == b;
      }
    }
  }

  lemma SortedApart<K(!new)>(rows: seq<Timed<K>>, was: seq<Timed<K>>, times: map<K, int>)
    requires multiset(rows) == multiset(was) && AllTimed(was, times)
    ensures AllTimed(rows, times)
  {
    forall r ensures r in rows <==> r in was { assert r in rows <==> r in multiset(rows); assert r in was <==> r in multiset(was); }
    forall i | 0 <= i < |rows| ensures rows[i].key in times && rows[i].time == times[rows[i].key] { assert rows[i] in was; }
    forall i, j | 0 <= i < j < |rows| ensures rows[i].key != rows[j].key {
      OncePerKey(was, rows[i]);
      Apart(rows, i, j);
      assert rows[i] in was && rows[j] in was;
    }
  }
  lemma Apart<T>(rows: seq<T>, i: nat, j: nat)
    requires i < j < |rows| && multiset(rows)[rows[i]] <= 1
    ensures rows[i] != rows[j]
  {
    assert rows == rows[..i] + [rows[i]] + rows[i + 1..j] + [rows[j]] + rows[j + 1..];
  }
  lemma {:induction false} OncePerKey<K>(was: seq<Timed<K>>, r: Timed<K>)
    requires forall i, j :: 0 <= i < j < |was| ==> was[i].key != was[j].key
    ensures multiset(was)[r] <= 1
    ensures forall q :: q in was && r in was && q.key == r.key ==> q == r
  {
    if was != [] {
      OncePerKey(was[1..], r);
      assert was == [was[0]] + was[1..];
    }
  }

  method CollectTimes<K(==,!new)>(times: map<K, int>) returns (rows: seq<Timed<K>>)
    ensures AllTimed(rows, times)
  {
    rows := [];
    var rest := times.Keys;
    while rest != {}
      invariant rest <= times.Keys
      invariant forall i :: 0 <= i < |rows| ==> rows[i].key !in rest && rows[i].key in times && rows[i].time == times[rows[i].key]
      invariant forall i, j :: 0 <= i < j < |rows| ==> rows[i].key != rows[j].key
      invariant forall b :: b in times ==> b in rest || Timed(b, times[b]) in rows
      decreases |rest|
    {
      var b :| b in rest;
      rows := rows + [Timed(b, times[b])];
      rest := rest - {b};
    }
  }

  method Oldest<K(==,!new)>(times: map<K, int>, limit: nat) returns (list: seq<K>)
    ensures IsOldest(times, limit, list)
  {
    hide AllTimed, IsOldest, InOrder;
    var rows := CollectTimes(times);
    var sorted := Sort(rows, Sooner);
    SortedApart(sorted, rows, times);
    list := [];
    while |list| < limit && |list| < |sorted|
      invariant |list| <= limit && |list| <= |sorted|
      invariant forall i :: 0 <= i < |list| ==> list[i] == sorted[i].key
    {
      list := list + [sorted[|list|].key];
    }
    FirstRows(times, limit, sorted, list);
  }
}

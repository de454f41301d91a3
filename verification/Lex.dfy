/**
 The order the database sorts keys in: lexicographic by code point, which is also the byte
 order of their UTF-8 form. Sets of keys have one strictly increasing listing.
 */
module Lex {

  predicate Less(a: string, b: string) {
    if b == "" then false
    else if a == "" then true
    else a[0] < b[0] || (a[0] == b[0] && Less(a[1..], b[1..]))
  }

  /** The first place where two keys differ decides. */
  ghost predicate DiffersAt(a: string, b: string, i: nat) {
    i < |a| && i < |b| && a[..i] == b[..i] && a[i] < b[i]
  }
  /** One key is before another exactly if it is a proper prefix of it, or has the smaller
      character where they first differ. */
  lemma {:induction false} LessIff(a: string, b: string)
    ensures Less(a, b) <==> a < b || exists i: nat :: DiffersAt(a, b, i)
  {
    if a == "" || b == "" {
    } else if a[0] != b[0] {
      if Less(a, b) { assert DiffersAt(a, b, 0); }
      if i: nat :| DiffersAt(a, b, i) { FirstDiffers(a, b, i); }
    } else {
      LessIff(a[1..], b[1..]);
      assert a == [a[0]] + a[1..] && b == [b[0]] + b[1..];
      if i: nat :| DiffersAt(a[1..], b[1..], i) {
        assert a[..i + 1] == [a[0]] + a[1..][..i] && b[..i + 1] == [b[0]] + b[1..][..i];
        assert DiffersAt(a, b, i + 1);
      }
      if i: nat :| DiffersAt(a, b, i) {
        assert a[1..][..i - 1] == a[..i][1..] && b[1..][..i - 1] == b[..i][1..];
        assert DiffersAt(a[1..], b[1..], i - 1);
      }
    }
  }

  lemma FirstDiffers(a: string, b: string, i: nat)
    requires DiffersAt(a, b, i)
    ensures if i == 0 then a[0] < b[0] else a[0] == b[0]
  {
    if 0 < i { assert a[..i][0] == a[0] && b[..i][0] == b[0]; }
  }

  lemma {:induction false} Irreflexive(a: string)
    ensures !Less(a, a)
  {
    if a != "" { Irreflexive(a[1..]); }
  }

  lemma {:induction false} Transitive(a: string, b: string, c: string)
    requires Less(a, b) && Less(b, c)
    ensures Less(a, c)
  {
    if a != "" && a[0] == b[0] == c[0] { Transitive(a[1..], b[1..], c[1..]); }
  }

  lemma {:induction false} Total(a: string, b: string)
    ensures a == b || Less(a, b) || Less(b, a)
  {
    if a != "" && b != "" && a[0] == b[0] {
      Total(a[1..], b[1..]);
      if a[1..] == b[1..] { assert a == [a[0]] + a[1..] && b == [b[0]] + b[1..]; }
    }
  }

  lemma Asymmetric(a: string, b: string)
    requires Less(a, b)
    ensures !Less(b, a) && a != b
  {
    if Less(b, a) { Transitive(a, b, a); }
    Irreflexive(a);
  }

  /** A key is not before its own prefixes. */
  lemma {:induction false} PrefixFirst(p: string, k: string)
    requires p <= k
    ensures p == k || Less(p, k)
  {
    if p != "" {
      PrefixFirst(p[1..], k[1..]);
      if p[1..] == k[1..] { assert p == [p[0]] + p[1..] && k == [k[0]] + k[1..]; }
    }
  }

  /** The keys under a prefix sort as one block: what is not under it and comes before or
      after the prefix comes before or after all of them. */
  lemma {:induction false} PrefixBlock(p: string, k: string, f: string)
    requires p <= k && !(p <= f)
    ensures Less(p, f) ==> Less(k, f)
    ensures Less(f, p) ==> Less(f, k)
  {
    if p != "" && f != "" && p[0] == f[0] {
      assert p == [p[0]] + p[1..] && f == [f[0]] + f[1..];
      PrefixBlock(p[1..], k[1..], f[1..]);
    }
  }

  ghost predicate Increasing(s: seq<string>) {
    forall i, j :: 0 <= i < j < |s| ==> Less(s[i], s[j])
  }

  ghost function Min(s: set<string>): (m: string)
    requires s != {}
    ensures m in s && forall x :: x in s && x != m ==> Less(m, x)
    decreases |s|
  {
    var x :| x in s;
    if s == {x} then x
    else
      var m := Min(s - {x});
      assert forall y :: y in s ==> y == x || y in s - {x};
      Total(x, m);
      if Less(x, m) then
        assert forall y :: y in s && y != x ==> Less(x, y) by {
          forall y | y in s && y != x ensures Less(x, y) { if y != m { Transitive(x, m, y); } }
        }
        x
      else m
  }

  /** The increasing listing of a set of keys. */
  ghost function Sorted(s: set<string>): (r: seq<string>)
    ensures Increasing(r) && forall x :: x in r <==> x in s
    decreases |s|
  {
    if s == {} then []
    else
      var m := Min(s);
      var rest := Sorted(s - {m});
      assert forall i :: 0 <= i < |rest| ==> rest[i] in s - {m};
      [m] + rest
  }

  lemma NotEmpty(a: seq<string>, b: seq<string>)
    requires b != [] && forall x :: x in b ==> x in a
    ensures a != []
  {
    assert b[0] in a;
  }

  /** There is only one. */
  lemma {:induction false} SortedIsUnique(a: seq<string>, b: seq<string>)
    requires Increasing(a) && Increasing(b) && forall x :: x in a <==> x in b
    ensures a == b
  {
    if b != [] { NotEmpty(a, b); }
    if a != [] {
      NotEmpty(b, a);
      assert a[0] in b;
      assert b[0] in a;
      var i :| 0 <= i < |a| && a[i] == b[0];
      var j :| 0 <= j < |b| && b[j] == a[0];
      if i != 0 && j != 0 { Asymmetric(a[0], a[i]); }
      assert a[0] == b[0];
      forall x ensures x in a[1..] <==> x in b[1..] {
        if x in a[1..] {
          var k :| 1 <= k < |a| && a[k] == x;
          Asymmetric(a[0], x);
          assert x in b;
        }
        if x in b[1..] {
          var k :| 1 <= k < |b| && b[k] == x;
          Asymmetric(b[0], x);
          assert x in a;
        }
      }
      assert forall i, j :: 0 <= i < j < |a[1..]| ==> a[1..][i] == a[i + 1] && a[1..][j] == a[j + 1];
      assert forall i, j :: 0 <= i < j < |b[1..]| ==> b[1..][i] == b[i + 1] && b[1..][j] == b[j + 1];
      SortedIsUnique(a[1..], b[1..]);
    }
  }

  lemma SortedIs(a: seq<string>, s: set<string>)
    requires Increasing(a) && forall x :: x in a <==> x in s
    ensures a == Sorted(s)
  {
    SortedIsUnique(a, Sorted(s));
  }

  /** Listings of a set split at a key: first what is not after it, then what is. */
  lemma Append(a: seq<string>, b: seq<string>)
    requires Increasing(a) && Increasing(b)
    requires forall x, y :: x in a && y in b ==> Less(x, y)
    ensures Increasing(a + b)
  {
    forall i, j | 0 <= i < j < |a + b| ensures Less((a + b)[i], (a + b)[j]) {
      if i < |a| { assert (a + b)[i] in a; }
      if j >= |a| { assert (a + b)[j] in b; }
    }
  }
}

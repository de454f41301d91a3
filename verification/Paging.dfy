/**
 Keyset paging over the keys of a bucket: a page is the next `limit` keys after a cursor,
 and its own last key is the cursor of the page that follows.
 */
module Paging {
  import opened Ledger
  import opened Lex

  datatype Page = Page(items: seq<string>, next: string)
  datatype Result<+T> = Ok(value: T) | BadLimit

  function Above(keys: set<string>, after: string): set<string> {
    set k | k in keys && Less(after, k)
  }

  /** One row more than the limit is asked for, only to learn whether there is a next page. */
  ghost function PageOf(keys: set<string>, after: string, limit: nat): Page
    requires 1 <= limit
  {
    var rows := Sorted(Above(keys, after));
    if |rows| > limit then Page(rows[..limit], rows[limit - 1]) else Page(rows, "")
  }

  /** The keys a listing asks for, as the query filters them. */
  function Matching(objects: map<Slot, Object>, b: Id, prefix: string): set<string> {
    set s | s in objects && s.bucket == b && objects[s].ready && !Less(s.key, prefix) && prefix <= s.key :: s.key
  }

  /** The range condition the query adds for its index removes nothing. */
  lemma RangeConditionIsRedundant(objects: map<Slot, Object>, b: Id, prefix: string)
    ensures Matching(objects, b, prefix) == set s | s in objects && s.bucket == b && objects[s].ready && prefix <= s.key :: s.key
  {
    forall s | s in objects && prefix <= s.key ensures !Less(s.key, prefix) {
      PrefixFirst(prefix, s.key);
      if prefix == s.key { Irreflexive(prefix); } else { Asymmetric(prefix, s.key); }
    }
  }

  // ---------- A traversal while the table changes ----------

  type PageLimit = n: nat | 1 <= n witness 1

  /** One page request: the table as it is by then, and the limit asked for. */
  datatype Read = Read(table: set<string>, limit: PageLimit)

  /** A client asks for page after page until a page names no next cursor. */
  ghost predicate Traversal(asked: seq<Read>, after: string) {
    asked != [] &&
    var page := PageOf(asked[0].table, after, asked[0].limit);
    if |asked| == 1 then page.next == "" else page.next != "" && Traversal(asked[1..], page.next)
  }

  /** All it is given, in the order it is given. */
  ghost function Listed(asked: seq<Read>, after: string): seq<string> {
    if asked == [] then []
    else
      var page := PageOf(asked[0].table, after, asked[0].limit);
      page.items + Listed(asked[1..], page.next)
  }

  /** A full page holds exactly the keys up to its own last one. */
  lemma PageCuts(keys: set<string>, after: string, limit: nat)
    requires 1 <= limit
    ensures var page := PageOf(keys, after, limit);
      && Increasing(page.items)
      && (forall k :: k in page.items ==> k in keys && Less(after, k))
      && (page.next == "" ==> forall k :: k in keys && Less(after, k) ==> k in page.items)
      && (page.next != "" ==>
            && |page.items| == limit && page.next in page.items && Less(after, page.next)
            && (forall k :: k in page.items ==> k == page.next || Less(k, page.next))
            && (forall k :: k in keys && Less(after, k) && !Less(page.next, k) ==> k in page.items))
  {
    var rows := Sorted(Above(keys, after));
    var page := PageOf(keys, after, limit);
    forall k | k in page.items ensures k in keys && Less(after, k) { assert k in rows; }
    if |rows| > limit {
      assert rows[limit - 1] in rows;
      assert page.items[limit - 1] == page.next;
      forall k | k in keys && Less(after, k) && !Less(page.next, k) ensures k in page.items {
        assert k in rows;
        var i :| 0 <= i < |rows| && rows[i] == k;
        assert i < limit;
        assert page.items[i] == k;
      }
    }
  }

  /** A page followed by keys that are all after its cursor. */
  lemma PageThen(keys: set<string>, after: string, limit: nat, rest: seq<string>)
    requires 1 <= limit && PageOf(keys, after, limit).next != ""
    requires Increasing(rest) && forall k :: k in rest ==> Less(PageOf(keys, after, limit).next, k)
    ensures Increasing(PageOf(keys, after, limit).items + rest)
    ensures forall k :: k in rest ==> Less(after, k)
  {
    var page := PageOf(keys, after, limit);
    PageCuts(keys, after, limit);
    forall x, y | x in page.items && y in rest ensures Less(x, y) {
      if x != page.next { Transitive(x, page.next, y); }
    }
    Append(page.items, rest);
    forall k | k in rest ensures Less(after, k) { Transitive(after, page.next, k); }
  }

  /** Whatever is inserted or deleted between the pages, a completed traversal returns its
      keys in strictly increasing order, so none twice; every key it returns was in the table
      one of its pages was read from; and a key that was there for every page is returned. */
  lemma {:induction false} TraversalIsStable(asked: seq<Read>, after: string)
    requires Traversal(asked, after)
    ensures Increasing(Listed(asked, after))
    ensures forall k :: k in Listed(asked, after) ==> Less(after, k) && exists r :: r in asked && k in r.table
    ensures forall k :: Less(after, k) && (forall r :: r in asked ==> k in r.table) ==> k in Listed(asked, after)
  {
    var page := PageOf(asked[0].table, after, asked[0].limit);
    PageCuts(asked[0].table, after, asked[0].limit);
    assert asked[0] in asked;
    if |asked| == 1 {
      assert Listed(asked[1..], page.next) == [];
      assert Listed(asked, after) == page.items;
    } else {
      TraversalIsStable(asked[1..], page.next);
      assert forall r :: r in asked[1..] ==> r in asked;
      PageThen(asked[0].table, after, asked[0].limit, Listed(asked[1..], page.next));
    }
  }

  // ---------- A traversal of a table that stands still ----------

  /** The pages of a full traversal; every page takes its keys off what is left. */
  ghost function Pages(keys: set<string>, after: string, limit: nat): seq<Page>
    requires 1 <= limit
    decreases |Above(keys, after)|
  {
    var page := PageOf(keys, after, limit);
    if page.next == "" then [page]
    else
      PageCuts(keys, after, limit);
      Advance(keys, after, page.next);
      [page] + Pages(keys, page.next, limit)
  }

  lemma Advance(keys: set<string>, after: string, next: string)
    requires next in keys && Less(after, next)
    ensures Above(keys, next) < Above(keys, after) && |Above(keys, next)| < |Above(keys, after)|
  {
    forall k | k in Above(keys, next) ensures k in Above(keys, after) { Transitive(after, next, k); }
    Irreflexive(next);
    assert next in Above(keys, after) && next !in Above(keys, next);
    Smaller(Above(keys, next), Above(keys, after));
  }
  lemma {:induction false} Smaller(a: set<string>, b: set<string>)
    requires a < b
    ensures |a| < |b|
  {
    var x :| x in b && x !in a;
    assert a <= b - {x};
    SmallerOrEqual(a, b - {x});
  }
  lemma {:induction false} SmallerOrEqual(a: set<string>, b: set<string>)
    requires a <= b
    ensures |a| <= |b|
    decreases |a|
  {
    if a != {} {
      var x :| x in a;
      SmallerOrEqual(a - {x}, b - {x});
    }
  }

  ghost function Items(pages: seq<Page>): seq<string> {
    if pages == [] then [] else pages[0].items + Items(pages[1..])
  }

  /** On a table that stands still the traversal ends, its pages together are the sorted
      keys. */
  lemma {:induction false} PagesAreTheListing(keys: set<string>, after: string, limit: nat)
    requires 1 <= limit
    ensures Items(Pages(keys, after, limit)) == Sorted(Above(keys, after))
    decreases |Above(keys, after)|
  {
    var page := PageOf(keys, after, limit);
    PageCuts(keys, after, limit);
    if page.next == "" {
      assert Pages(keys, after, limit)[1..] == [];
    } else {
      Advance(keys, after, page.next);
      var rest := Pages(keys, page.next, limit);
      PagesAreTheListing(keys, page.next, limit);
      assert Pages(keys, after, limit)[1..] == rest;
      PageThenRest(keys, after, limit);
    }
  }

  lemma {:induction false} AllButTheLastAreFull(keys: set<string>, after: string, limit: nat, i: nat)
    requires 1 <= limit && i < |Pages(keys, after, limit)| - 1
    ensures |Pages(keys, after, limit)[i].items| == limit
    decreases i
  {
    var page := PageOf(keys, after, limit);
    if 0 < i {
      AllButTheLastAreFull(keys, page.next, limit, i - 1);
    } else {
      PageCuts(keys, after, limit);
    }
  }

  lemma PageThenRest(keys: set<string>, after: string, limit: nat)
    requires 1 <= limit && PageOf(keys, after, limit).next != ""
    ensures PageOf(keys, after, limit).items + Sorted(Above(keys, PageOf(keys, after, limit).next)) == Sorted(Above(keys, after))
  {
    var page := PageOf(keys, after, limit);
    var rest := Sorted(Above(keys, page.next));
    PageCuts(keys, after, limit);
    PageThen(keys, after, limit, rest);
    assert forall k :: k in page.items + rest <==> k in page.items || k in rest;
    SortedIs(page.items + rest, Above(keys, after));
  }

  // ---------- The queries ----------

  method Least(keys: set<string>) returns (m: string)
    requires keys != {}
    ensures m == Min(keys)
  {
    m :| m in keys;
    var rest := keys - {m};
    while rest != {}
      invariant m in keys && rest <= keys
      invariant forall k :: k in keys && k !in rest && k != m ==> Less(m, k)
      decreases |rest|
    {
      var k :| k in rest;
      Total(m, k);
      if Less(k, m) {
        forall x | x in keys && x !in rest - {k} && x != k ensures Less(k, x) {
          if x != m { Transitive(k, m, x); }
        }
        m := k;
      }
      rest := rest - {k};
    }
    if m != Min(keys) { Asymmetric(m, Min(keys)); }
  }

  /** `SELECT k FROM keys WHERE k > after ORDER BY k LIMIT n` */
  method SelectKeys(keys: set<string>, after: string, n: nat) returns (rows: seq<string>)
    ensures var all := Sorted(Above(keys, after)); rows == if |all| <= n then all else all[..n]
  {
    hide Above, Sorted;
    var rest := Above(keys, after);
    ghost var all := Sorted(rest);
    rows := [];
    while |rows| < n && rest != {}
      invariant |rows| <= n && rows + Sorted(rest) == all
      decreases |rest|
    {
      var m := Least(rest);
      TakeLeast(rows, rest, m);
      rows := rows + [m];
      rest := rest - {m};
    }
    NoneLeft(rest);
    Prefix(rows, Sorted(rest), all, n);
  }

  lemma NoneLeft(keys: set<string>)
    ensures keys == {} ==> Sorted(keys) == []
  {
  }
  lemma Prefix(rows: seq<string>, rest: seq<string>, all: seq<string>, n: nat)
    requires rows + rest == all && |rows| <= n && (|rows| == n || rest == [])
    ensures rows == if |all| <= n then all else all[..n]
  {
  }
  lemma TakeLeast(rows: seq<string>, keys: set<string>, m: string)
    requires keys != {} && m == Min(keys)
    ensures rows + Sorted(keys) == rows + [m] + Sorted(keys - {m})
  {
  }

  /** Having asked for one row too many tells the two kinds of page apart. */
  lemma PageFromRows(keys: set<string>, after: string, limit: nat, rows: seq<string>)
    requires 1 <= limit
    requires var all := Sorted(Above(keys, after)); rows == if |all| <= limit + 1 then all else all[..limit + 1]
    ensures PageOf(keys, after, limit) == if |rows| > limit then Page(rows[..limit], rows[limit - 1]) else Page(rows, "")
  {
  }

  lemma ListedIsThere(objects: map<Slot, Object>, b: Id, prefix: string, after: string, k: string)
    requires k in Sorted(Above(Matching(objects, b, prefix), after))
    ensures Slot(b, k) in objects
  {
  }

  method ListObjectsPage(objects: map<Slot, Object>, b: Id, prefix: string, after: string, limit: int)
    returns (r: Result<(seq<(string, Object)>, string)>)
    ensures r.BadLimit? <==> !(1 <= limit <= 1000)
    ensures r.Ok? ==>
      var page := PageOf(Matching(objects, b, prefix), after, limit);
      && r.value.1 == page.next && |r.value.0| == |page.items|
      && forall i :: 0 <= i < |page.items| ==>
           Slot(b, page.items[i]) in objects && r.value.0[i] == (page.items[i], objects[Slot(b, page.items[i])])
  {
    hide PageOf, Above, Sorted, Matching;
    if limit < 1 || limit > 1000 { return BadLimit; }
    var keys := Matching(objects, b, prefix);
    var rows := SelectKeys(keys, after, limit + 1);
    ghost var all := Sorted(Above(keys, after));
    var out: seq<(string, Object)> := [];
    var i := 0;
    while i < |rows|
      invariant 0 <= i <= |rows| && |out| == i
      invariant forall j :: 0 <= j < i ==> Slot(b, rows[j]) in objects && out[j] == (rows[j], objects[Slot(b, rows[j])])
    {
      assert rows[i] in all;
      ListedIsThere(objects, b, prefix, after, rows[i]);
      out := out + [(rows[i], objects[Slot(b, rows[i])])];
      i := i + 1;
    }
    PageFromRows(keys, after, limit, rows);
    if |out| > limit {
      r := Ok((out[..limit], out[limit - 1].0));
    } else {
      r := Ok((out, ""));
    }
  }
}

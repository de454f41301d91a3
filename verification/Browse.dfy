/**
 Folder browsing: the keys under a prefix are grouped by their next path segment, and the
 groups are paged like keys. Following every folder over all its pages lists the files.
 */
module Browse {
  import opened Ledger
  import opened Lex
  import opened Paging

  predicate IsFolder(entry: string) { entry != "" && entry[|entry| - 1] == '/' }

  function IndexOf(s: string, c: char): (i: nat)
    requires c in s
    ensures i < |s| && s[i] == c && c !in s[..i]
  {
    if s[0] == c then 0 else 1 + IndexOf(s[1..], c)
  }

  lemma {:induction false} FirstIndex(s: string, c: char, i: nat)
    requires i < |s| && s[i] == c && c !in s[..i]
    ensures IndexOf(s, c) == i
  {
    if 0 < i {
      assert s[0] == s[..i][0];
      assert s[1..][..i - 1] == s[..i][1..];
      FirstIndex(s[1..], c, i - 1);
    }
  }

  /** The row a key shows up as: its next segment with the slash, or the key itself. */
  function Entry(prefix: string, key: string): string
    requires prefix <= key
  {
    var rest := key[|prefix|..];
    if '/' in rest then prefix + rest[..IndexOf(rest, '/') + 1] else key
  }

  /** The ready keys of a bucket. */
  function Ready(objects: map<Slot, Object>, b: Id): set<string> {
    set s | s in objects && s.bucket == b && objects[s].ready :: s.key
  }

  lemma ReadyIff(objects: map<Slot, Object>, b: Id, key: string)
    ensures key in Ready(objects, b) <==> Slot(b, key) in objects && objects[Slot(b, key)].ready
  {
    if Slot(b, key) in objects && objects[Slot(b, key)].ready { assert Slot(b, key).key == key; }
  }

  function Entries(keys: set<string>, prefix: string): set<string> {
    set k | k in keys && !Less(k, prefix) && prefix <= k && k != prefix :: Entry(prefix, k)
  }

  /** A folder entry stands for every key that starts with it, any other for that key. */
  predicate Covers(entry: string, key: string) {
    if IsFolder(entry) then entry <= key else entry == key
  }

  lemma NotBefore(prefix: string, key: string)
    requires prefix <= key
    ensures !Less(key, prefix)
  {
    PrefixFirst(prefix, key);
    if prefix == key { Irreflexive(prefix); } else { Asymmetric(prefix, key); }
  }

  lemma EntryShape(prefix: string, key: string)
    requires prefix <= key && key != prefix
    ensures var e := Entry(prefix, key);
      && prefix <= e <= key && |prefix| < |e|
      && (IsFolder(e) <==> '/' in key[|prefix|..])
      && (IsFolder(e) ==> '/' !in e[|prefix|..|e| - 1])
      && (!IsFolder(e) ==> e == key && '/' !in e[|prefix|..])
  {
    var rest := key[|prefix|..];
    assert key == prefix + rest;
    if '/' in rest {
      var i := IndexOf(rest, '/');
      assert Entry(prefix, key)[|prefix|..|prefix| + i] == rest[..i];
    } else {
      assert key[|key| - 1] == rest[|rest| - 1];
    }
  }

  /** A key under an entry has that entry: a slash that ends one entry starts no other. */
  lemma CoveredHasEntry(prefix: string, k: string, key: string)
    requires prefix <= k && k != prefix && Covers(Entry(prefix, k), key)
    ensures prefix <= key && key != prefix && Entry(prefix, key) == Entry(prefix, k)
  {
    EntryShape(prefix, k);
    if IsFolder(Entry(prefix, k)) { FolderIsEntry(prefix, Entry(prefix, k), key); }
  }
  lemma FolderIsEntry(prefix: string, e: string, key: string)
    requires prefix <= e <= key && |prefix| < |e| && IsFolder(e) && '/' !in e[|prefix|..|e| - 1]
    ensures Entry(prefix, key) == e
  {
    var rest, i := key[|prefix|..], |e| - |prefix| - 1;
    assert rest[i] == '/' && rest[..i] == e[|prefix|..|e| - 1];
    FirstIndex(rest, '/', i);
    assert rest[..i + 1] == e[|prefix|..];
    assert e == prefix + e[|prefix|..];
  }

  /** At every level, each matching key other than the prefix falls under exactly one entry,
      and the folder flag says whether a path segment is still to come. */
  lemma ExactlyOneEntry(keys: set<string>, prefix: string, key: string)
    requires key in keys && prefix <= key && key != prefix
    ensures Entry(prefix, key) in Entries(keys, prefix)
    ensures forall e :: e in Entries(keys, prefix) ==> (Covers(e, key) <==> e == Entry(prefix, key))
    ensures IsFolder(Entry(prefix, key)) <==> '/' in key[|prefix|..]
  {
    EntryShape(prefix, key);
    NotBefore(prefix, key);
    forall e | e in Entries(keys, prefix) ensures Covers(e, key) <==> e == Entry(prefix, key) {
      var k :| k in keys && prefix <= k && k != prefix && e == Entry(prefix, k);
      if Covers(e, key) { CoveredHasEntry(prefix, k, key); }
    }
  }

  /** No entry is empty: some key other than the prefix falls under it. */
  lemma EntriesCover(keys: set<string>, prefix: string, e: string)
    requires e in Entries(keys, prefix)
    ensures exists k :: k in keys && prefix <= k && k != prefix && Covers(e, k)
  {
    var k :| k in keys && prefix <= k && k != prefix && e == Entry(prefix, k);
    EntryShape(prefix, k);
    assert Covers(e, k);
  }

  // ---------- Following every folder ----------

  /** The files a prefix stands for. A key that ends in a slash only ever shows as a folder. */
  function Files(keys: set<string>, prefix: string): set<string> {
    set k | k in keys && prefix <= k && k != prefix && !IsFolder(k)
  }

  ghost function LongestKey(keys: set<string>): (n: nat)
    ensures forall k :: k in keys ==> |k| <= n
    decreases |keys|
  {
    if keys == {} then 0
    else
      var k :| k in keys;
      var n := LongestKey(keys - {k});
      assert forall j :: j in keys ==> j == k || j in keys - {k};
      if n < |k| then |k| else n
  }

  function Room(n: nat, prefix: string): nat { if n < |prefix| then 0 else n - |prefix| + 1 }

  /** A client that opens a prefix, reads all its pages and opens every folder it sees. */
  ghost function Crawl(keys: set<string>, prefix: string, limit: nat): seq<string>
    requires 1 <= limit
    decreases Room(LongestKey(keys), prefix), 1, 0
  {
    PagesAreTheListing(Entries(keys, prefix), "", limit);
    var entries := Items(Pages(Entries(keys, prefix), "", limit));
    assert forall e :: e in entries ==> e in Entries(keys, prefix);
    CrawlAll(keys, prefix, entries, limit)
  }

  ghost function CrawlAll(keys: set<string>, prefix: string, entries: seq<string>, limit: nat): seq<string>
    requires 1 <= limit && forall e :: e in entries ==> e in Entries(keys, prefix)
    decreases Room(LongestKey(keys), prefix), 0, |entries|
  {
    if entries == [] then []
    else
      EntriesGrow(keys, prefix, entries[0]);
      (if IsFolder(entries[0]) then Crawl(keys, entries[0], limit) else [entries[0]]) + CrawlAll(keys, prefix, entries[1..], limit)
  }

  lemma EntriesGrow(keys: set<string>, prefix: string, e: string)
    requires e in Entries(keys, prefix)
    ensures prefix <= e && |prefix| < |e| && e != "" && Less("", e)
    ensures Room(LongestKey(keys), e) < Room(LongestKey(keys), prefix)
    ensures !IsFolder(e) ==> e in keys
  {
    var k :| k in keys && prefix <= k && k != prefix && e == Entry(prefix, k);
    EntryShape(prefix, k);
    assert |e| <= |k| <= LongestKey(keys);
  }

  /** The files one entry stands for. */
  function Block(keys: set<string>, e: string): set<string> {
    if IsFolder(e) then Files(keys, e) else {e}
  }

  /** Everything under an earlier entry sorts before everything under a later one. */
  lemma BlocksInOrder(keys: set<string>, prefix: string, e: string, f: string, x: string, y: string)
    requires e in Entries(keys, prefix) && f in Entries(keys, prefix) && Less(e, f)
    requires x in Block(keys, e) && y in Block(keys, f)
    ensures Less(x, y)
  {
    if IsFolder(e) {
      var k :| k in keys && prefix <= k && k != prefix && e == Entry(prefix, k);
      var l :| l in keys && prefix <= l && l != prefix && f == Entry(prefix, l);
      EntryShape(prefix, l);
      if e <= f {
        CoveredHasEntry(prefix, k, l);
        Irreflexive(e);
      }
      PrefixBlock(e, x, f);
    }
    assert Less(x, f);
    if IsFolder(f) {
      PrefixFirst(f, y);
      Transitive(x, f, y);
    }
  }

  lemma FirstBlock(keys: set<string>, prefix: string, entries: seq<string>, x: string, y: string)
    requires entries != [] && Increasing(entries) && forall e :: e in entries ==> e in Entries(keys, prefix)
    requires x in Block(keys, entries[0]) && exists f :: f in entries[1..] && y in Block(keys, f)
    ensures Less(x, y)
  {
    var f :| f in entries[1..] && y in Block(keys, f);
    var i :| 0 < i < |entries| && entries[i] == f;
    assert Less(entries[0], entries[i]);
    BlocksInOrder(keys, prefix, entries[0], f, x, y);
  }

  lemma {:induction false} CrawlAllSorts(keys: set<string>, prefix: string, entries: seq<string>, limit: nat)
    requires 1 <= limit && Increasing(entries) && forall e :: e in entries ==> e in Entries(keys, prefix)
    ensures Increasing(CrawlAll(keys, prefix, entries, limit))
    ensures forall x :: x in CrawlAll(keys, prefix, entries, limit) <==> exists e :: e in entries && x in Block(keys, e)
    decreases Room(LongestKey(keys), prefix), 0, |entries|
  {
    if entries != [] {
      var e, rest := entries[0], entries[1..];
      EntriesGrow(keys, prefix, e);
      var head := if IsFolder(e) then Crawl(keys, e, limit) else [e];
      if IsFolder(e) { CrawlListsTheFiles(keys, e, limit); }
      assert forall x :: x in head <==> x in Block(keys, e);
      assert forall i, j :: 0 <= i < j < |rest| ==> rest[i] == entries[i + 1] && rest[j] == entries[j + 1];
      CrawlAllSorts(keys, prefix, rest, limit);
      var tail := CrawlAll(keys, prefix, rest, limit);
      forall x, y | x in head && y in tail ensures Less(x, y) { FirstBlock(keys, prefix, entries, x, y); }
      Append(head, tail);
      assert CrawlAll(keys, prefix, entries, limit) == head + tail;
      assert forall f :: f in entries <==> f == e || f in rest;
    }
  }

  /** Following every folder from any prefix, with any page size, ends and lists exactly the
      ready keys under it that do not end in a slash, each once and in order. */
  lemma {:induction false} CrawlListsTheFiles(keys: set<string>, prefix: string, limit: nat)
    requires 1 <= limit
    ensures Crawl(keys, prefix, limit) == Sorted(Files(keys, prefix))
    decreases Room(LongestKey(keys), prefix), 1, 0
  {
    PagesAreTheListing(Entries(keys, prefix), "", limit);
    var entries := Items(Pages(Entries(keys, prefix), "", limit));
    forall e | e in Entries(keys, prefix) ensures e in entries { EntriesGrow(keys, prefix, e); }
    CrawlAllSorts(keys, prefix, entries, limit);
    forall x ensures x in Crawl(keys, prefix, limit) <==> x in Files(keys, prefix) {
      BlocksAreTheFiles(keys, prefix, x);
      assert forall e :: e in entries <==> e in Entries(keys, prefix);
    }
    SortedIs(Crawl(keys, prefix, limit), Files(keys, prefix));
  }

  lemma BlocksAreTheFiles(keys: set<string>, prefix: string, x: string)
    ensures x in Files(keys, prefix) <==> exists e :: e in Entries(keys, prefix) && x in Block(keys, e)
  {
    if x in Files(keys, prefix) {
      ExactlyOneEntry(keys, prefix, x);
      EntryShape(prefix, x);
      assert x in Block(keys, Entry(prefix, x));
    }
    if e :| e in Entries(keys, prefix) && x in Block(keys, e) {
      EntriesGrow(keys, prefix, e);
    }
  }

  // ---------- The query and its lookups ----------

  datatype EntryRow = EntryRow(key: string, folder: bool, file: Option<Object>)

  predicate Present(now: map<Slot, Object>, b: Id, e: string) { IsFolder(e) || Slot(b, e) in now }
  function KeysOf(ready: seq<EntryRow>): seq<string> { seq(|ready|, i requires 0 <= i < |ready| => ready[i].key) }

  /** The rows are those of the folders and of the files still there, each once and in order,
      and every file comes with its object as it is then. */
  ghost predicate Fetches(ready: seq<EntryRow>, items: seq<string>, now: map<Slot, Object>, b: Id) {
    && KeysOf(ready) == Sorted(set e | e in items && Present(now, b, e))
    && forall i :: 0 <= i < |ready| ==>
         var e := ready[i].key;
         if IsFolder(e) then ready[i] == EntryRow(e, true, None)
         else Slot(b, e) in now && ready[i] == EntryRow(e, false, Some(now[Slot(b, e)]))
  }

  /** Unless a file goes between the query and its lookup, the rows are the whole page. */
  lemma NothingIsLost(ready: seq<EntryRow>, items: seq<string>, now: map<Slot, Object>, b: Id)
    requires Increasing(items) && Fetches(ready, items, now, b)
    requires forall e :: e in items && !IsFolder(e) ==> Slot(b, e) in now
    ensures KeysOf(ready) == items
  {
    SortedIs(items, set e | e in items && Present(now, b, e));
  }
  /** What a page lists as a file was there when the page was read. */
  lemma FilesWereThere(objects: map<Slot, Object>, b: Id, prefix: string, e: string)
    requires e in Entries(Ready(objects, b), prefix) && !IsFolder(e)
    ensures Slot(b, e) in objects && objects[Slot(b, e)].ready
  {
    EntriesGrow(Ready(objects, b), prefix, e);
  }

  /** Each entry that is no folder is looked up again; one that is gone by then is left out. */
  method FetchEntries(entries: seq<string>, now: map<Slot, Object>, b: Id) returns (ready: seq<EntryRow>)
    requires Increasing(entries)
    ensures Fetches(ready, entries, now, b)
  {
    ready := [];
    var i := 0;
    while i < |entries|
      invariant 0 <= i <= |entries| && Increasing(KeysOf(ready))
      invariant forall e :: e in KeysOf(ready) <==> e in entries[..i] && Present(now, b, e)
      invariant forall j :: 0 <= j < |ready| ==>
        var e := ready[j].key;
        if IsFolder(e) then ready[j] == EntryRow(e, true, None)
        else Slot(b, e) in now && ready[j] == EntryRow(e, false, Some(now[Slot(b, e)]))
    {
      assert entries[..i + 1] == entries[..i] + [entries[i]];
      ghost var were := ready;
      if IsFolder(entries[i]) {
        ready := ready + [EntryRow(entries[i], true, None)];
      } else if Slot(b, entries[i]) in now {
        ready := ready + [EntryRow(entries[i], false, Some(now[Slot(b, entries[i])]))];
      }
      if Present(now, b, entries[i]) { LastKey(were, ready, entries, i); }
      i := i + 1;
    }
    assert entries[..i] == entries;
    SortedIs(KeysOf(ready), set e | e in entries && Present(now, b, e));
  }
  lemma LastKey(were: seq<EntryRow>, ready: seq<EntryRow>, entries: seq<string>, i: nat)
    requires i < |entries| && Increasing(entries) && Increasing(KeysOf(were))
    requires forall e :: e in KeysOf(were) ==> e in entries[..i]
    requires |ready| == |were| + 1 && ready[..|were|] == were && ready[|were|].key == entries[i]
    ensures KeysOf(ready) == KeysOf(were) + [entries[i]] && Increasing(KeysOf(ready))
  {
    assert KeysOf(ready) == KeysOf(were) + [entries[i]] by {
      forall j | 0 <= j < |were| ensures ready[j] == were[j] { assert ready[..|were|][j] == were[j]; }
    }
    forall x | x in KeysOf(were) ensures Less(x, entries[i]) {
      var j :| 0 <= j < i && entries[..i][j] == x;
      assert Less(entries[j], entries[i]);
    }
    Append(KeysOf(were), [entries[i]]);
  }

  /** `objects` is the table the entries are read from and `now` the one the objects are. */
  method BrowseObjectsPage(objects: map<Slot, Object>, now: map<Slot, Object>, b: Id, prefix: string, after: string, limit: int)
    returns (r: Result<(seq<EntryRow>, string)>)
    ensures r.BadLimit? <==> !(1 <= limit <= 1000)
    ensures r.Ok? ==>
      var page := PageOf(Entries(Ready(objects, b), prefix), after, limit);
      r.value.1 == page.next && Fetches(r.value.0, page.items, now, b)
  {
    if limit < 1 || limit > 1000 { return BadLimit; }
    var keys := Entries(Ready(objects, b), prefix);
    var entries := SelectKeys(keys, after, limit + 1);
    PageFromRows(keys, after, limit, entries);
    PageIncreases(keys, after, limit);
    var next := "";
    if |entries| > limit {
      next := entries[limit - 1];
      entries := entries[..limit];
    }
    var ready := FetchEntries(entries, now, b);
    r := Ok((ready, next));
  }
  lemma PageIncreases(keys: set<string>, after: string, limit: nat)
    requires 1 <= limit
    ensures Increasing(PageOf(keys, after, limit).items)
  {
    PageCuts(keys, after, limit);
  }
}

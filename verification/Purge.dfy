/**
 Emptying a bucket's prefix on an S3 source. A provider hands out what it stores page by
 page, in pages it chooses; calls may fail. A versioned source keeps every version of a key
 and answers a plain DELETE with one more version, a delete marker.
 */
module Purge {
  import opened Names

  /** One stored version. Later versions of a key have larger numbers. */
  datatype Item = Item(key: string, number: nat, marker: bool)

  datatype Listing<+T> = Listed(page: T, truncated: bool) | Unsupported | Failed

  ghost predicate Current(items: set<Item>, i: Item) {
    i in items && forall j :: j in items && j.key == i.key ==> j.number <= i.number
  }
  /** A plain GET finds the key: its current version is not a delete marker. */
  ghost predicate Visible(items: set<Item>, key: string) {
    exists i :: Current(items, i) && i.key == key && !i.marker
  }
  function Under(items: set<Item>, prefix: string): set<Item> { set i | i in items && prefix <= i.key }
  function Outside(items: set<Item>, prefix: string): set<Item> { set i | i in items && !(prefix <= i.key) }
  ghost function VisibleUnder(items: set<Item>, prefix: string): set<string> {
    set i | i in items && prefix <= i.key && Visible(items, i.key) :: i.key
  }

  class S3 {
    const ready: bool
    /** The source keeps old versions, and its API can list them. */
    const keepsVersions: bool
    const listsVersions: bool
    var items: set<Item>
    /** How often a call failed, or a listing was not one of the prefix that gets anywhere. */
    ghost var faults: nat

    constructor (ready: bool, keepsVersions: bool, listsVersions: bool)
      ensures Valid() && items == {}
      ensures this.ready == ready && this.keepsVersions == keepsVersions && this.listsVersions == listsVersions
    {
      this.ready, this.keepsVersions, this.listsVersions := ready, keepsVersions, listsVersions;
      items := {};
    }

    /** No two versions of a key have one number; an unversioned source has no history. */
    ghost predicate Valid()
      reads this
    {
      && (forall i, j :: i in items && j in items && i.key == j.key && i.number == j.number ==> i == j)
      && (!keepsVersions ==> forall i, j :: i in items && j in items && i.key == j.key ==> i == j)
      && (!keepsVersions ==> forall i :: i in items ==> !i.marker)
    }

    // ---------- The provider ----------

    /** Any of what is stored, and nothing of it left out when the page is not truncated. A
        page should hold only what is under the prefix, and something if there is more. */
    method ListVersions(prefix: string) returns (r: Listing<set<Item>>)
      modifies `faults
      ensures faults == old(faults) +
        if r.Failed? || (r.Listed? && (!(r.page <= Under(items, prefix)) || (r.page == {} && r.truncated))) then 1 else 0
      ensures !listsVersions ==> !r.Listed?
      ensures listsVersions ==> !r.Unsupported?
      ensures r.Listed? ==> r.page <= items && (!r.truncated ==> Under(items, prefix) <= r.page)
    {
      if * { faults := faults + 1; return Failed; }
      if !listsVersions { return Unsupported; }
      var page, rest := {}, items;
      while rest != {}
        invariant rest <= items && page <= items
        decreases |rest|
      {
        var i :| i in rest;
        if * { page := page + {i}; }
        rest := rest - {i};
      }
      var more: bool := *;
      r := Listed(page, more || !(Under(items, prefix) <= page));
      if !(r.page <= Under(items, prefix)) || (r.page == {} && r.truncated) { faults := faults + 1; }
    }

    method DeleteVersion(i: Item) returns (ok: bool)
      requires Valid()
      modifies `items, `faults
      ensures Valid() && items == if ok then old(items) - {i} else old(items)
      ensures faults == old(faults) + if ok then 0 else 1
    {
      ok := *;
      if ok { items := items - {i}; } else { faults := faults + 1; }
    }

    method IsVisible(key: string) returns (b: bool)
      ensures b == Visible(items, key)
    {
      b := exists i :: i in items && i.key == key && !i.marker && forall j :: j in items && j.key == i.key ==> j.number <= i.number;
      if b {
        var i :| i in items && i.key == key && !i.marker && forall j :: j in items && j.key == i.key ==> j.number <= i.number;
        assert Current(items, i);
      }
    }

    /** The same for the keys a plain listing shows. */
    method ListObjects(prefix: string) returns (r: Listing<set<string>>)
      modifies `faults
      ensures faults == old(faults) +
        if r.Failed? || (r.Listed? && (!(forall k :: k in r.page ==> prefix <= k) || (r.page == {} && r.truncated))) then 1 else 0
      ensures !r.Unsupported?
      ensures r.Listed? ==> (forall k :: k in r.page ==> Visible(items, k)) && (!r.truncated ==> VisibleUnder(items, prefix) <= r.page)
    {
      if * { faults := faults + 1; return Failed; }
      var page, rest, complete := {}, items, true;
      while rest != {}
        invariant rest <= items && faults == old(faults)
        invariant forall k :: k in page ==> Visible(items, k)
        invariant complete ==> forall i :: i in items && i !in rest && prefix <= i.key && Visible(items, i.key) ==> i.key in page
        decreases |rest|
      {
        var i :| i in rest;
        var shown := IsVisible(i.key);
        if shown {
          if * { page := page + {i.key}; } else { complete := false; }
        }
        rest := rest - {i};
      }
      var more: bool := *;
      r := Listed(page, more || !complete);
      var astray := exists k :: k in r.page && !(prefix <= k);
      if astray || (r.page == {} && r.truncated) { faults := faults + 1; }
    }

    method Delete(key: string) returns (ok: bool)
      requires Valid() && Visible(items, key)
      modifies `items, `faults
      ensures faults == old(faults) + if ok then 0 else 1
      ensures Valid() && (!ok ==> items == old(items))
      ensures forall i: Item :: i.key != key ==> (i in items <==> i in old(items))
      ensures ok ==> !Visible(items, key)
      ensures ok && !keepsVersions ==> forall i :: i in items ==> i.key != key
      ensures keepsVersions ==> old(items) <= items
    {
      ok := *;
      if ok {
        if keepsVersions {
          var n := NextNumber(items);
          var marker := Item(key, n, true);
          items := items + {marker};
        } else {
          items := set i | i in items && i.key != key;
        }
      } else {
        faults := faults + 1;
      }
    }

    // ---------- The purge ----------

    /** One page of versions, each checked to be under the prefix before it is deleted. */
    method DeleteVersions(page: set<Item>, prefix: string) returns (ok: bool)
      requires Valid() && page <= items
      modifies `items, `faults
      ensures Valid() && items <= old(items) && Outside(items, prefix) == old(Outside(items, prefix))
      ensures ok ==> items == old(items) - page
      ensures faults >= old(faults) && (page <= old(Under(items, prefix)) ==> ok || faults > old(faults))
    {
      var rest := page;
      while rest != {}
        invariant Valid() && rest <= page && items == old(items) - (page - rest) && faults >= old(faults)
        invariant forall i :: i in page && i !in rest ==> prefix <= i.key
        decreases |rest|
      {
        var i :| i in rest;
        if !(prefix <= i.key) { return false; }
        var deleted := DeleteVersion(i);
        if !deleted { return false; }
        rest := rest - {i};
      }
      return true;
    }

    /** The first loop: every version and delete marker, if the source can list them. */
    method PurgeVersions(prefix: string) returns (ok: bool)
      requires Valid()
      modifies `items, `faults
      ensures faults >= old(faults) && (ok || faults > old(faults))
      ensures Valid() && Outside(items, prefix) == old(Outside(items, prefix)) && items <= old(items)
      ensures ok && listsVersions ==> Under(items, prefix) == {}
      ensures !listsVersions ==> items == old(items)
    {
      while true
        invariant Valid() && Outside(items, prefix) == old(Outside(items, prefix)) && items <= old(items) && faults >= old(faults)
        invariant !listsVersions ==> items == old(items)
        decreases |items|
      {
        var r := ListVersions(prefix);
        if r.Unsupported? { return true; }
        if r.Failed? { return false; }
        ghost var before := items;
        var deleted := DeleteVersions(r.page, prefix);
        if !deleted { return false; }
        if !r.truncated { return true; }
        if r.page == {} { return false; }
        Fewer(before, r.page);
      }
    }

    /** One page of a plain listing. */
    method DeleteObjects(page: set<string>, prefix: string) returns (ok: bool)
      requires Valid() && forall k :: k in page ==> Visible(items, k)
      modifies `items, `faults
      ensures faults >= old(faults) && ((forall k :: k in page ==> prefix <= k) ==> ok || faults > old(faults))
      ensures Valid() && Outside(items, prefix) == old(Outside(items, prefix))
      ensures keepsVersions ==> old(items) <= items
      ensures old(Under(items, prefix)) == {} ==> items == old(items)
      ensures forall k :: Visible(items, k) ==> old(Visible(items, k))
      ensures ok ==> forall k :: k in page ==> prefix <= k && !Visible(items, k)
    {
      hide Visible, Outside, Under;
      var rest := page;
      while rest != {}
        invariant faults >= old(faults)
        invariant Valid() && rest <= page && Outside(items, prefix) == old(Outside(items, prefix))
        invariant keepsVersions ==> old(items) <= items
        invariant old(Under(items, prefix)) == {} ==> items == old(items)
        invariant forall k :: k in rest ==> Visible(items, k)
        invariant forall k :: Visible(items, k) ==> old(Visible(items, k))
        invariant forall k :: k in page && k !in rest ==> prefix <= k && !Visible(items, k)
        decreases |rest|
      {
        var k :| k in rest;
        if !(prefix <= k) { return false; }
        ghost var were := items;
        VisibleIsStored(items, k, prefix);
        var deleted := Delete(k);
        OutsideKept(were, items, k, prefix);
        if !deleted { return false; }
        OthersStayVisible(were, items, k);
        rest := rest - {k};
      }
      return true;
    }

    /** The second loop: whatever a plain listing still shows. */
    method PurgeObjects(prefix: string) returns (ok: bool)
      requires Valid()
      modifies `items, `faults
      ensures faults >= old(faults) && (ok || faults > old(faults))
      ensures Valid() && Outside(items, prefix) == old(Outside(items, prefix))
      ensures ok ==> VisibleUnder(items, prefix) == {}
      ensures keepsVersions ==> old(items) <= items
      ensures old(Under(items, prefix)) == {} ==> items == old(items)
    {
      while true
        invariant Valid() && Outside(items, prefix) == old(Outside(items, prefix)) && faults >= old(faults)
        invariant keepsVersions ==> old(items) <= items
        invariant old(Under(items, prefix)) == {} ==> items == old(items)
        decreases |VisibleKeys(items)|
      {
        var r := ListObjects(prefix);
        if r.Failed? { return false; }
        ghost var before := items;
        var deleted := DeleteObjects(r.page, prefix);
        if !deleted { return false; }
        if r.page == {} && !r.truncated { return true; }
        if r.page == {} { return false; }
        FewerVisible(before, items, r.page);
      }
    }

    /** A purge that reports success leaves no object to be found under the prefix, and never
        touches any other key. It leaves no version and no marker there either exactly when
        the source can list its versions, or keeps none, or there were none to begin with.
        Only a failing or useless answer of the provider can keep it from succeeding. */
    method PurgePrefix(prefix: string) returns (ok: bool)
      requires Valid()
      modifies `items, `faults
      ensures Valid() && forall i: Item :: !(prefix <= i.key) ==> (i in items <==> i in old(items))
      ensures !ready || !ValidPurgePrefix(prefix) ==> !ok && items == old(items)
      ensures ready && ValidPurgePrefix(prefix) ==> ok || faults > old(faults)
      ensures ok ==> forall k :: prefix <= k ==> !Visible(items, k)
      ensures ok ==>
        ((forall i :: i in items ==> !(prefix <= i.key))
         <==> listsVersions || !keepsVersions || forall i :: i in old(items) ==> !(prefix <= i.key))
    {
      if !ready || !ValidPurgePrefix(prefix) { return false; }
      hide Visible, VisibleUnder;
      ghost var were := items;
      ok := PurgeVersions(prefix);
      if ok {
        ok := PurgeObjects(prefix);
        if ok && !keepsVersions { EverythingIsVisible(items, prefix); }
      }
      SameOutside(were, items, prefix);
      if ok { NothingVisible(items, prefix); }
      NothingUnder(were, prefix);
      NothingUnder(items, prefix);
    }
  }

  lemma SameOutside(were: set<Item>, are: set<Item>, prefix: string)
    requires Outside(are, prefix) == Outside(were, prefix)
    ensures forall i: Item :: !(prefix <= i.key) ==> (i in are <==> i in were)
  {
    forall i: Item | !(prefix <= i.key) ensures i in are <==> i in were {
      assert i in are <==> i in Outside(are, prefix);
      assert i in were <==> i in Outside(were, prefix);
    }
  }
  lemma NothingVisible(items: set<Item>, prefix: string)
    requires VisibleUnder(items, prefix) == {}
    ensures forall k :: prefix <= k ==> !Visible(items, k)
  {
    forall k | prefix <= k ensures !Visible(items, k) { SeenUnder(items, prefix, k); }
  }
  lemma SeenUnder(items: set<Item>, prefix: string, key: string)
    requires prefix <= key
    ensures Visible(items, key) ==> key in VisibleUnder(items, prefix)
  {
    if Visible(items, key) {
      var i :| Current(items, i) && i.key == key && !i.marker;
    }
  }
  lemma NothingUnder(items: set<Item>, prefix: string)
    ensures Under(items, prefix) == {} <==> forall i :: i in items ==> !(prefix <= i.key)
  {
    forall i | i in items && prefix <= i.key ensures i in Under(items, prefix) {}
  }

  method NextNumber(items: set<Item>) returns (n: nat)
    ensures forall i :: i in items ==> i.number < n
  {
    n := 0;
    var rest := items;
    while rest != {}
      invariant rest <= items && forall i :: i in items && i !in rest ==> i.number < n
      decreases |rest|
    {
      var i :| i in rest;
      if n <= i.number { n := i.number + 1; }
      rest := rest - {i};
    }
  }

  lemma Fewer(items: set<Item>, page: set<Item>)
    requires page <= items && page != {}
    ensures |items - page| < |items|
  {
    assert items == (items - page) + page;
  }
  ghost function VisibleKeys(items: set<Item>): set<string> {
    set i | i in items && Visible(items, i.key) :: i.key
  }
  lemma FewerVisible(were: set<Item>, are: set<Item>, page: set<string>)
    requires page != {} && forall k :: k in page ==> Visible(were, k) && !Visible(are, k)
    requires forall k :: Visible(are, k) ==> Visible(were, k)
    ensures |VisibleKeys(are)| < |VisibleKeys(were)|
  {
    forall k | Visible(were, k) ensures k in VisibleKeys(were) {
      var i :| Current(were, i) && i.key == k && !i.marker;
    }
    var k :| k in page;
    var now, before := VisibleKeys(are), VisibleKeys(were);
    assert k in before - now && before == now + (before - now);
  }

  lemma VisibleIsStored(items: set<Item>, key: string, prefix: string)
    requires Visible(items, key) && prefix <= key
    ensures Under(items, prefix) != {}
  {
    var i :| Current(items, i) && i.key == key && !i.marker;
    assert i in Under(items, prefix);
  }
  lemma OutsideKept(were: set<Item>, are: set<Item>, key: string, prefix: string)
    requires prefix <= key && forall i: Item :: i.key != key ==> (i in are <==> i in were)
    ensures Outside(are, prefix) == Outside(were, prefix)
  {
  }

  lemma OthersStayVisible(were: set<Item>, are: set<Item>, key: string)
    requires forall i: Item :: i.key != key ==> (i in are <==> i in were)
    ensures forall k :: k != key ==> (Visible(are, k) <==> Visible(were, k))
  {
    forall k | k != key ensures Visible(are, k) <==> Visible(were, k) {
      assert forall i: Item :: i.key == k ==> (Current(are, i) <==> Current(were, i));
    }
  }

  lemma EverythingIsVisible(items: set<Item>, prefix: string)
    requires forall i, j :: i in items && j in items && i.key == j.key ==> i == j
    requires forall i :: i in items ==> !i.marker
    requires VisibleUnder(items, prefix) == {}
    ensures Under(items, prefix) == {}
  {
    forall i | i in Under(items, prefix) ensures i.key in VisibleUnder(items, prefix) {
      assert Current(items, i);
    }
  }
}

/**
 Physical key names. Committed bytes live under rosemary/{bucket}/, uploads in transit under
 rosemary-staging/{bucket}/, and a purge accepts only one bucket's own prefix of either kind.
 Ids contain no slash; that is all the names' unambiguity rests on.
 */
module Names {
  import opened Ledger

  predicate NoSlash(s: string) { '/' !in s }

  function Decimal(n: nat): string {
    if n < 10 then ["0123456789"[n]] else Decimal(n / 10) + ["0123456789"[n % 10]]
  }

  /** The number a string of digits stands for. */
  function Number(digits: string): int {
    if digits == "" then 0 else Number(digits[..|digits| - 1]) * 10 + (digits[|digits| - 1] as int - '0' as int)
  }
  lemma {:induction false} DecimalMeans(n: nat)
    ensures Number(Decimal(n)) == n
    ensures forall c :: c in Decimal(n) ==> '0' <= c <= '9'
    ensures Decimal(n) != "" && (0 < n ==> Decimal(n)[0] != '0')
  {
    if 10 <= n {
      DecimalMeans(n / 10);
      assert Decimal(n)[..|Decimal(n)| - 1] == Decimal(n / 10);
    }
  }

  function Physical(bucket: Id, generation: nat, key: string): string {
    "rosemary/" + (bucket + "/" + ("g" + Decimal(generation) + "/" + TrimPrefix(key, "/")))
  }
  function Staging(bucket: Id, uploadId: Id, key: string): string {
    "rosemary-staging/" + (bucket + "/" + (uploadId + "/" + TrimPrefix(key, "/")))
  }
  function FinalPrefix(bucket: Id): string { "rosemary/" + (bucket + "/") }
  function StagingPrefix(bucket: Id): string { "rosemary-staging/" + (bucket + "/") }

  /** How the names read. */
  lemma NamesRead()
    ensures Physical("b", 12, "/a/c") == Physical("b", 12, "a/c") == "rosemary/b/g12/a/c" && FinalPrefix("b") == "rosemary/b/"
    ensures Staging("b", "obj_1", "/a") == "rosemary-staging/b/obj_1/a" && StagingPrefix("b") == "rosemary-staging/b/"
  {
    assert Decimal(12) == Decimal(1) + ['2'] == "12";
    assert TrimPrefix("/a/c", "/") == "a/c" && TrimPrefix("/a", "/") == "a";
    assert "a/c"[0] == 'a' && "/"[0] == '/';
    assert "a/c" == TrimPrefix("a/c", "/");
    assert "g" + Decimal(12) + "/" + TrimPrefix("a/c", "/") == "g12/a/c";
    assert "rosemary/" + ("b" + "/" + "g12/a/c") == "rosemary/b/g12/a/c";
    assert "rosemary/" + ("b" + "/") == "rosemary/b/" && "rosemary-staging/" + ("b" + "/") == "rosemary-staging/b/";
    assert "rosemary-staging/" + ("b" + "/" + ("obj_1" + "/" + "a")) == "rosemary-staging/b/obj_1/a";
  }

  // ---------- Unambiguity ----------

  /** A slash-free head is cut off at the first slash. */
  lemma {:induction false} CutUnique(a: string, b: string, x: string, y: string)
    requires NoSlash(a) && NoSlash(b) && a + "/" + x == b + "/" + y
    ensures a == b && x == y
  {
    var l, r := a + "/" + x, b + "/" + y;
    assert l[0] == '/' <==> a == "" by { if a != "" { assert l[0] == a[0]; } }
    assert r[0] == '/' <==> b == "" by { if b != "" { assert r[0] == b[0]; } }
    if a != "" {
      assert l[0] == a[0] && r[0] == b[0];
      assert l[1..] == a[1..] + "/" + x && r[1..] == b[1..] + "/" + y;
      CutUnique(a[1..], b[1..], x, y);
    } else {
      assert l[1..] == x && r[1..] == y;
    }
  }

  lemma {:induction false} DecimalDigits(n: nat)
    ensures NoSlash(Decimal(n)) && Decimal(n) != ""
  {
    if 10 <= n { DecimalDigits(n / 10); }
  }

  lemma {:induction false} DecimalInjective(m: nat, n: nat)
    requires Decimal(m) == Decimal(n)
    ensures m == n
  {
    if 10 <= m { DecimalDigits(m / 10); }
    if 10 <= n { DecimalDigits(n / 10); }
    var d, e := Decimal(m), Decimal(n);
    assert d[|d| - 1] == "0123456789"[m % 10] && e[|e| - 1] == "0123456789"[n % 10];
    if 10 <= m && 10 <= n {
      assert d[..|d| - 1] == Decimal(m / 10) && e[..|e| - 1] == Decimal(n / 10);
      DecimalInjective(m / 10, n / 10);
    }
  }

  lemma AfterHead(head: string, x: string, y: string)
    requires head + x == head + y
    ensures x == y
  {
    assert (head + x)[|head|..] == x && (head + y)[|head|..] == y;
  }

  /** Two physical keys are the same only for the same bucket, generation and key, up to one
      leading slash of the key. */
  lemma PhysicalInjective(b: Id, g: nat, k: string, b': Id, g': nat, k': string)
    requires NoSlash(b) && NoSlash(b') && Physical(b, g, k) == Physical(b', g', k')
    ensures b == b' && g == g' && TrimPrefix(k, "/") == TrimPrefix(k', "/")
  {
    var t, t' := "g" + Decimal(g) + "/" + TrimPrefix(k, "/"), "g" + Decimal(g') + "/" + TrimPrefix(k', "/");
    AfterHead("rosemary/", b + "/" + t, b' + "/" + t');
    CutUnique(b, b', t, t');
    DecimalDigits(g);
    DecimalDigits(g');
    CutUnique("g" + Decimal(g), "g" + Decimal(g'), TrimPrefix(k, "/"), TrimPrefix(k', "/"));
    AfterHead("g", Decimal(g), Decimal(g'));
    DecimalInjective(g, g');
  }

  lemma StagingInjective(b: Id, u: Id, k: string, b': Id, u': Id, k': string)
    requires NoSlash(b) && NoSlash(b') && NoSlash(u) && NoSlash(u') && Staging(b, u, k) == Staging(b', u', k')
    ensures b == b' && u == u' && TrimPrefix(k, "/") == TrimPrefix(k', "/")
  {
    var t, t' := u + "/" + TrimPrefix(k, "/"), u' + "/" + TrimPrefix(k', "/");
    AfterHead("rosemary-staging/", b + "/" + t, b' + "/" + t');
    CutUnique(b, b', t, t');
    CutUnique(u, u', TrimPrefix(k, "/"), TrimPrefix(k', "/"));
  }

  /** The ninth character tells the two namespaces apart. */
  lemma Ninth(bucket: Id, rest: string)
    ensures |"rosemary/" + rest| > 8 && ("rosemary/" + rest)[8] == '/'
    ensures |"rosemary-staging/" + rest| > 8 && ("rosemary-staging/" + rest)[8] == '-'
  {
  }

  lemma NamespacesAreDisjoint(b: Id, g: nat, k: string, b': Id, u: Id, k': string)
    ensures Physical(b, g, k) != Staging(b', u, k')
    ensures !(FinalPrefix(b) <= Staging(b', u, k')) && !(StagingPrefix(b) <= Physical(b', g, k'))
  {
    Ninth(b, b + "/" + ("g" + Decimal(g) + "/" + TrimPrefix(k, "/")));
    Ninth(b, b' + "/" + (u + "/" + TrimPrefix(k', "/")));
    Ninth(b, b' + "/" + ("g" + Decimal(g) + "/" + TrimPrefix(k', "/")));
    Ninth(b, b + "/");
    assert FinalPrefix(b)[8] == '/' && StagingPrefix(b)[8] == '-';
  }

  lemma PrefixUnique(head: string, b: Id, b': Id, rest: string)
    requires NoSlash(b) && NoSlash(b')
    ensures head + (b + "/") <= head + (b' + "/" + rest) <==> b == b'
  {
    var p, k := head + (b + "/"), head + (b' + "/" + rest);
    if p <= k {
      var y := k[|p|..];
      assert k == head + (b + "/" + y);
      AfterHead(head, b + "/" + y, b' + "/" + rest);
      CutUnique(b, b', y, rest);
    }
    if b == b' {
      assert k == p + rest;
    }
  }

  /** A bucket's purge prefixes cover its own keys and no other bucket's. */
  lemma PurgeIsIsolated(b: Id, b': Id, g: nat, u: Id, k: string)
    requires NoSlash(b) && NoSlash(b')
    ensures FinalPrefix(b) <= Physical(b', g, k) <==> b == b'
    ensures StagingPrefix(b) <= Staging(b', u, k) <==> b == b'
  {
    PrefixUnique("rosemary/", b, b', "g" + Decimal(g) + "/" + TrimPrefix(k, "/"));
    PrefixUnique("rosemary-staging/", b, b', u + "/" + TrimPrefix(k, "/"));
  }

  // ---------- The purge guard ----------

  /** Splitting at every slash. */
  function Split(s: string): (parts: seq<string>)
    ensures parts != []
  {
    if s == "" then [""]
    else
      var rest := Split(s[1..]);
      if s[0] == '/' then [""] + rest else [[s[0]] + rest[0]] + rest[1..]
  }

  predicate ValidPurgePrefix(prefix: string) {
    var p := Split(prefix);
    |p| == 3 && (p[0] == "rosemary" || p[0] == "rosemary-staging") && p[1] != "" && p[1] != "." && p[1] != ".." && p[2] == ""
  }

  lemma {:induction false} SplitHead(a: string, rest: string)
    requires NoSlash(a)
    ensures Split(a + "/" + rest) == [a] + Split(rest)
    ensures Split(a) == [a]
  {
    var s := a + "/" + rest;
    if a == "" {
      assert s[1..] == rest;
    } else {
      assert s[1..] == a[1..] + "/" + rest;
      SplitHead(a[1..], rest);
      assert s[0] == a[0] && a == [a[0]] + a[1..];
    }
  }

  /** The first part is everything up to the first slash. */
  lemma {:induction false} SplitCuts(s: string)
    ensures NoSlash(Split(s)[0])
    ensures |Split(s)| == 1 ==> s == Split(s)[0]
    ensures |Split(s)| > 1 ==>
      |Split(s)[0]| < |s| && s == Split(s)[0] + "/" + s[|Split(s)[0]| + 1..] && Split(s)[1..] == Split(s[|Split(s)[0]| + 1..])
  {
    if s != "" {
      SplitCuts(s[1..]);
      var rest := Split(s[1..]);
      if s[0] == '/' {
        assert s == "/" + s[1..];
      } else if |rest| > 1 {
        assert s[1..][|rest[0]| + 1..] == s[|rest[0]| + 2..];
      }
    }
  }

  predicate ProperId(b: Id) { NoSlash(b) && b != "" && b != "." && b != ".." }

  lemma ValidPrefixParts(prefix: string) returns (b: Id)
    requires ValidPurgePrefix(prefix)
    ensures ProperId(b) && (prefix == FinalPrefix(b) || prefix == StagingPrefix(b))
  {
    var p := Split(prefix);
    b := p[1];
    SplitCuts(prefix);
    var tail := prefix[|p[0]| + 1..];
    assert Split(tail) == p[1..];
    SplitCuts(tail);
    var end := tail[|b| + 1..];
    assert Split(end) == [""];
    SplitCuts(end);
    assert tail == b + "/" + "" == b + "/";
    assert prefix == p[0] + "/" + (b + "/");
  }

  lemma ThreeParts(head: string, b: Id)
    requires NoSlash(head) && NoSlash(b)
    ensures Split(head + "/" + (b + "/")) == [head, b, ""]
  {
    SplitHead(b, "");
    assert b + "/" == b + "/" + "";
    SplitHead(head, b + "/");
    var empty := "";
    assert Split(empty) == [""];
  }

  lemma BucketPrefixIsValid(prefix: string, head: string, b: Id)
    requires ProperId(b) && (head == "rosemary" || head == "rosemary-staging") && prefix == head + "/" + (b + "/")
    ensures ValidPurgePrefix(prefix)
  {
    ThreeParts(head, b);
  }

  /** The guard accepts exactly the two prefixes of a proper bucket id: no root, no other
      top-level name, no part of an id and nothing below it. */
  lemma ValidPrefixesAreBucketPrefixes(prefix: string)
    ensures ValidPurgePrefix(prefix) <==> exists b :: ProperId(b) && (prefix == FinalPrefix(b) || prefix == StagingPrefix(b))
  {
    if ValidPurgePrefix(prefix) {
      var b := ValidPrefixParts(prefix);
    }
    if b :| ProperId(b) && (prefix == FinalPrefix(b) || prefix == StagingPrefix(b)) {
      var head := if prefix == FinalPrefix(b) then "rosemary" else "rosemary-staging";
      assert prefix == head + "/" + (b + "/");
      BucketPrefixIsValid(prefix, head, b);
    }
  }

  /** No purge reaches the platform's own files. */
  lemma PlatformFilesAreSafe(prefix: string, key: string)
    requires ValidPurgePrefix(prefix) && "virsree-system/" <= key
    ensures !(prefix <= key)
  {
    var b := ValidPrefixParts(prefix);
    assert key[0] == 'v' && prefix[0] == 'r';
  }
}

/**
 The canonical query string a request signature covers: parameters sorted by name and value,
 percent-escaped and joined. It must depend only on which parameters there are, and two
 different lists of parameters must never print alike.
 */
module Query {
  import opened Ledger
  import opened Lex
  import opened Sorting

  type Byte = c: char | c as int < 256 witness 'a'
  type Bytes = seq<Byte>
  type Values = map<Bytes, seq<Bytes>>

  datatype Pair = Pair(name: Bytes, value: Bytes)

  const SIGNATURE: Bytes := "X-Amz-Signature"
  const HEX := "0123456789ABCDEF"

  // ---------- Escaping ----------

  /** Section 2.3 of RFC 3986. */
  predicate Unreserved(c: char) {
    'A' <= c <= 'Z' || 'a' <= c <= 'z' || '0' <= c <= '9' || c == '-' || c == '_' || c == '.' || c == '~'
  }
  /** Section 2.1 of RFC 3986, with upper-case digits. */
  function Triplet(c: Byte): string {
    ['%', HEX[c as int / 16], HEX[c as int % 16]]
  }
  function Percent(s: Bytes): string {
    if s == [] then "" else (if Unreserved(s[0]) then [s[0]] else Triplet(s[0])) + Percent(s[1..])
  }

  /** The library's form encoding: as above, but a space becomes a plus sign. */
  function QueryEscape(s: Bytes): string {
    if s == [] then ""
    else (if Unreserved(s[0]) then [s[0]] else if s[0] == ' ' then "+" else Triplet(s[0])) + QueryEscape(s[1..])
  }
  function ReplacePlus(s: string): string {
    if s == "" then "" else (if s[0] == '+' then "%20" else [s[0]]) + ReplacePlus(s[1..])
  }
  function AwsEscape(s: Bytes): string { ReplacePlus(QueryEscape(s)) }

  lemma {:induction false} ReplaceOverConcat(a: string, b: string)
    ensures ReplacePlus(a + b) == ReplacePlus(a) + ReplacePlus(b)
  {
    if a == "" {
      assert a + b == b;
    } else {
      assert (a + b)[0] == a[0] && (a + b)[1..] == a[1..] + b;
      ReplaceOverConcat(a[1..], b);
    }
  }
  lemma {:induction false} NothingToReplace(s: string)
    requires '+' !in s
    ensures ReplacePlus(s) == s
  {
    if s != "" {
      NothingToReplace(s[1..]);
      assert s == [s[0]] + s[1..];
    }
  }

  /** Every plus sign the form encoding leaves stands for a space, so replacing them gives
      the plain percent-encoding. */
  lemma {:induction false} AwsEscapeIsPercentEncoding(s: Bytes)
    ensures AwsEscape(s) == Percent(s)
  {
    if s != [] {
      var head := if Unreserved(s[0]) then [s[0]] else if s[0] == ' ' then "+" else Triplet(s[0]);
      ReplaceOverConcat(head, QueryEscape(s[1..]));
      AwsEscapeIsPercentEncoding(s[1..]);
      if !Unreserved(s[0]) && s[0] != ' ' {
        NothingToReplace(Triplet(s[0]));
      } else {
        assert head[1..] == "";
      }
    }
  }

  /** The unreserved characters by their codes. */
  lemma UnreservedCodes(c: char)
    ensures Unreserved(c) <==>
      48 <= c as int <= 57 || 65 <= c as int <= 90 || 97 <= c as int <= 122 || c as int in {45, 46, 95, 126}
  {
  }
  /** Whatever is escaped is escaped with upper-case digits. */
  lemma {:induction false} DigitsAreUpper(c: Byte)
    ensures var t := Triplet(c); |t| == 3 && t[0] == '%' && forall i :: 1 <= i < 3 ==> '0' <= t[i] <= '9' || 'A' <= t[i] <= 'F'
  {
    DigitOfHex(c as int / 16);
    DigitOfHex(c as int % 16);
  }
  /** Character by character: an unreserved one stays, any other becomes a triplet. */
  lemma {:induction false} EscapeJoins(a: Bytes, b: Bytes)
    ensures AwsEscape(a + b) == AwsEscape(a) + AwsEscape(b)
  {
    AwsEscapeIsPercentEncoding(a);
    AwsEscapeIsPercentEncoding(b);
    AwsEscapeIsPercentEncoding(a + b);
    PercentJoins(a, b);
  }
  lemma {:induction false} PercentJoins(a: Bytes, b: Bytes)
    ensures Percent(a + b) == Percent(a) + Percent(b)
  {
    if a == [] {
      assert a + b == b;
    } else {
      assert (a + b)[0] == a[0] && (a + b)[1..] == a[1..] + b;
      PercentJoins(a[1..], b);
    }
  }
  lemma OneEscaped(c: Byte)
    ensures Unreserved(c) ==> AwsEscape([c]) == [c]
    ensures !Unreserved(c) ==> AwsEscape([c]) == Triplet(c)
  {
    hide Unreserved, Triplet, QueryEscape, ReplacePlus, AwsEscape;
    AwsEscapeIsPercentEncoding([c]);
    assert [c][1..] == [];
  }
  lemma SpaceAndPlus()
    ensures Triplet(' ') == "%20" && Triplet('+') == "%2B" && Triplet('/') == "%2F"
  {
  }

  function Digit(c: char): (d: Option<nat>)
    ensures d.Some? ==> d.value < 16 && HEX[d.value] == c
  {
    if '0' <= c <= '9' then Some(c as int - '0' as int)
    else if 'A' <= c <= 'F' then Some(c as int - 'A' as int + 10)
    else None
  }
  lemma DigitOfHex(d: nat)
    requires d < 16
    ensures Digit(HEX[d]) == Some(d) && Unreserved(HEX[d]) && ('0' <= HEX[d] <= '9' || 'A' <= HEX[d] <= 'F')
  {
  }

  function Cons(c: Byte, rest: Option<Bytes>): Option<Bytes> {
    if rest.Some? then Some([c] + rest.value) else None
  }
  function Unescape(s: string): Option<Bytes> {
    if s == "" then Some([])
    else if s[0] == '%' then
      if |s| < 3 || Digit(s[1]).None? || Digit(s[2]).None? then None
      else Cons((Digit(s[1]).value * 16 + Digit(s[2]).value) as char, Unescape(s[3..]))
    else if Unreserved(s[0]) then Cons(s[0], Unescape(s[1..]))
    else None
  }

  lemma TripletDecodes(c: Byte, rest: string)
    ensures Unescape(Triplet(c) + rest) == Cons(c, Unescape(rest))
  {
    var s := Triplet(c) + rest;
    DigitOfHex(c as int / 16);
    DigitOfHex(c as int % 16);
    assert s[0] == '%' && s[1] == HEX[c as int / 16] && s[2] == HEX[c as int % 16] && s[3..] == rest;
  }

  /** Escaping can be undone, and leaves nothing that could be taken for a separator. */
  lemma {:induction false} EscapeDecodes(s: Bytes)
    ensures Unescape(Percent(s)) == Some(s)
    ensures forall c :: c in Percent(s) ==> Unreserved(c) || c == '%'
  {
    if s != [] {
      EscapeDecodes(s[1..]);
      var rest := Percent(s[1..]);
      assert s == [s[0]] + s[1..];
      if Unreserved(s[0]) {
        assert Percent(s)[0] == s[0] && Percent(s)[1..] == rest;
      } else {
        TripletDecodes(s[0], rest);
        DigitOfHex(s[0] as int / 16);
        DigitOfHex(s[0] as int % 16);
      }
    }
  }

  // ---------- Joining ----------

  function Item(p: Pair): string { AwsEscape(p.name) + "=" + AwsEscape(p.value) }
  function Items(pairs: seq<Pair>): seq<string> { seq(|pairs|, i requires 0 <= i < |pairs| => Item(pairs[i])) }
  function Join(items: seq<string>): string {
    if items == [] then "" else if |items| == 1 then items[0] else items[0] + "&" + Join(items[1..])
  }
  function Print(pairs: seq<Pair>): string { Join(Items(pairs)) }

  /** The first place of `c`, or the end. */
  function Find(s: string, c: char): (n: nat)
    ensures n <= |s| && c !in s[..n] && (n < |s| ==> s[n] == c)
  {
    if s == "" || s[0] == c then 0 else
      var n := Find(s[1..], c);
      assert s[..n + 1] == [s[0]] + s[1..][..n];
      n + 1
  }
  lemma {:induction false} FindIs(s: string, c: char, n: nat)
    requires n <= |s| && c !in s[..n] && (n < |s| ==> s[n] == c)
    ensures Find(s, c) == n
  {
    if n > 0 {
      assert s[..n] == [s[0]] + s[1..][..n - 1];
      FindIs(s[1..], c, n - 1);
    }
  }
  lemma FindAfter(a: string, c: char, b: string)
    requires c !in a
    ensures Find(a, c) == |a| && Find(a + [c] + b, c) == |a|
    ensures (a + [c] + b)[..|a|] == a && (a + [c] + b)[|a| + 1..] == b
  {
    assert a[..|a|] == a && (a + [c] + b)[..|a|] == a;
    FindIs(a, c, |a|);
    FindIs(a + [c] + b, c, |a|);
  }

  function ParseItem(s: string): Option<Pair> {
    var n := Find(s, '=');
    if n == |s| || Unescape(s[..n]).None? || Unescape(s[n + 1..]).None? then None
    else Some(Pair(Unescape(s[..n]).value, Unescape(s[n + 1..]).value))
  }
  function Parse(s: string): Option<seq<Pair>>
    decreases |s|
  {
    if s == "" then Some([])
    else
      var n := Find(s, '&');
      var rest := if n == |s| then Some([]) else Parse(s[n + 1..]);
      if ParseItem(s[..n]).None? || rest.None? then None else Some([ParseItem(s[..n]).value] + rest.value)
  }

  lemma ItemParses(p: Pair)
    ensures ParseItem(Item(p)) == Some(p) && '&' !in Item(p) && Item(p) != ""
  {
    hide Percent, AwsEscape, Unescape, Unreserved, Find;
    AwsEscapeIsPercentEncoding(p.name);
    AwsEscapeIsPercentEncoding(p.value);
    CleanText(p.name);
    CleanText(p.value);
    FindAfter(Percent(p.name), '=', Percent(p.value));
  }
  lemma CleanText(s: Bytes)
    ensures Unescape(Percent(s)) == Some(s) && '&' !in Percent(s) && '=' !in Percent(s)
  {
    EscapeDecodes(s);
  }

  lemma PrintMore(p: Pair, rest: seq<Pair>)
    ensures Print([p] + rest) == if rest == [] then Item(p) else Item(p) + ['&'] + Print(rest)
  {
    assert Items([p] + rest)[1..] == Items(rest);
  }

  /** What was printed can be read back. */
  lemma {:induction false} PrintParses(pairs: seq<Pair>)
    ensures Parse(Print(pairs)) == Some(pairs)
  {
    hide Item, ParseItem, Find, Print;
    if pairs == [] {
      assert Print(pairs) == "" by { PrintNothing(); }
    } else {
      var p, rest := pairs[0], pairs[1..];
      assert pairs == [p] + rest;
      ItemParses(p);
      PrintParses(rest);
      PrintMore(p, rest);
      FindAfter(Item(p), '&', Print(rest));
      assert Item(p)[..|Item(p)|] == Item(p);
    }
  }
  lemma PrintNothing()
    ensures Print([]) == ""
  {
  }

  // ---------- Sorting ----------

  predicate TextLess(a: Bytes, b: Bytes) { Less(a, b) }
  predicate PairLess(a: Pair, b: Pair) {
    Less(a.name, b.name) || (a.name == b.name && Less(a.value, b.value))
  }

  lemma PairsOrdered()
    ensures Ordering(PairLess) && Ordering(TextLess)
  {
    forall a: Bytes, b: Bytes | TextLess(a, b) ensures !TextLess(b, a) { Asymmetric(a, b); }
    forall a: Bytes, b: Bytes, c: Bytes | !TextLess(b, a) && !TextLess(c, b) ensures !TextLess(c, a) { NotLess(a, b, c); }
    forall a: Pair, b: Pair | PairLess(a, b) ensures !PairLess(b, a) {
      if Less(a.name, b.name) { Asymmetric(a.name, b.name); } else { Asymmetric(a.value, b.value); }
    }
    forall a: Pair, b: Pair, c: Pair | !PairLess(b, a) && !PairLess(c, b) ensures !PairLess(c, a) { PairNotLess(a, b, c); }
  }
  lemma NotLess(a: string, b: string, c: string)
    requires !Less(b, a) && !Less(c, b)
    ensures !Less(c, a)
  {
    Total(a, b);
    if Less(c, a) && a != b { Transitive(c, a, b); }
  }
  lemma PairNotLess(a: Pair, b: Pair, c: Pair)
    requires !PairLess(b, a) && !PairLess(c, b)
    ensures !PairLess(c, a)
  {
    NotLess(a.name, b.name, c.name);
    Total(a.name, b.name);
    Total(b.name, c.name);
    if a.name == b.name == c.name {
      NotLess(a.value, b.value, c.value);
    } else if a.name == c.name {
      Asymmetric(a.name, b.name);
    }
  }

  /** Sorting leaves no freedom: equal pairs are the only ones that tie. */
  lemma FirstsAgree(a: seq<Pair>, b: seq<Pair>)
    requires InOrder(a, PairLess) && InOrder(b, PairLess) && multiset(a) == multiset(b) && a != [] && b != []
    ensures a[0] == b[0]
  {
    hide Less;
    assert a[0] in multiset(b);
    assert b[0] in multiset(a);
    var i :| 0 <= i < |b| && b[i] == a[0];
    var j :| 0 <= j < |a| && a[j] == b[0];
    Total(a[0].name, b[0].name);
    Total(a[0].value, b[0].value);
  }
  lemma {:induction false} OneOrder(a: seq<Pair>, b: seq<Pair>)
    requires InOrder(a, PairLess) && InOrder(b, PairLess) && multiset(a) == multiset(b)
    ensures a == b
  {
    hide PairLess;
    assert |multiset(a)| == |multiset(b)|;
    if a != [] {
      FirstsAgree(a, b);
      RestOf(a);
      RestOf(b);
      OneOrder(a[1..], b[1..]);
    }
  }
  lemma RestOf(a: seq<Pair>)
    requires a != []
    ensures multiset(a[1..]) == multiset(a) - multiset{a[0]} && a == [a[0]] + a[1..]
  {
    assert a == [a[0]] + a[1..];
  }

  // ---------- The canonical query ----------

  /** How often a query holds a parameter. */
  function Count(q: Values, p: Pair): nat {
    if p.name in q then multiset(q[p.name])[p.value] else 0
  }
  /** The sorted listing of a query's parameters. */
  ghost predicate Lists(pairs: seq<Pair>, q: Values) {
    InOrder(pairs, PairLess) && forall p :: multiset(pairs)[p] == Count(q, p)
  }
  ghost predicate IsCanonical(q: Values, s: string) {
    exists pairs :: Lists(pairs, q) && s == Print(pairs)
  }
  function Signed(q: Values, dropSignature: bool): Values {
    if dropSignature then q - {SIGNATURE} else q
  }

  /** Two queries have one canonical string exactly when they hold the same parameters the
      same number of times, in whatever order they arrive. */
  lemma CanonicalIff(q: Values, q': Values, s: string, s': string)
    requires IsCanonical(q, s) && IsCanonical(q', s')
    ensures s == s' <==> forall p :: Count(q, p) == Count(q', p)
  {
    hide Print, Parse, Count, InOrder;
    var a :| Lists(a, q) && s == Print(a);
    var b :| Lists(b, q') && s' == Print(b);
    PrintParses(a);
    PrintParses(b);
    if forall p :: Count(q, p) == Count(q', p) {
      SameCounts(a, b);
      OneOrder(a, b);
    }
    if s == s' {
      forall p ensures Count(q, p) == Count(q', p) { assert multiset(a)[p] == multiset(b)[p]; }
    }
  }
  /** Read back, it gives exactly the query's parameters. */
  lemma CanonicalDecodes(q: Values, s: string)
    requires IsCanonical(q, s)
    ensures Parse(s).Some? && Lists(Parse(s).value, q)
  {
    var pairs :| Lists(pairs, q) && s == Print(pairs);
    PrintParses(pairs);
  }
  lemma SameCounts(a: seq<Pair>, b: seq<Pair>)
    requires forall p :: multiset(a)[p] == multiset(b)[p]
    ensures multiset(a) == multiset(b)
  {
  }

  // ---------- The printer ----------

  function PairsFor(name: Bytes, values: seq<Bytes>): seq<Pair> {
    seq(|values|, i requires 0 <= i < |values| => Pair(name, values[i]))
  }

  /** The listing holds exactly the parameters with these names. */
  ghost predicate Holds(pairs: seq<Pair>, names: set<Bytes>, q: Values) {
    forall p: Pair :: multiset(pairs)[p] == if p.name in names then Count(q, p) else 0
  }

  /** Adding the sorted values of a later name keeps the listing sorted and complete. */
  lemma NameInOrder(pairs: seq<Pair>, names: set<Bytes>, q: Values, name: Bytes, values: seq<Bytes>)
    requires InOrder(pairs, PairLess) && Holds(pairs, names, q) && InOrder(values, TextLess)
    requires forall n :: n in names ==> Less(n, name)
    ensures InOrder(pairs + PairsFor(name, values), PairLess)
  {
    Irreflexive(name);
    hide Less, Count;
    var all := pairs + PairsFor(name, values);
    forall i, j | 0 <= i < j < |all| ensures !PairLess(all[j], all[i]) {
      if i < |pairs| <= j {
        assert pairs[i] in multiset(pairs);
        Asymmetric(pairs[i].name, name);
      }
    }
  }
  lemma NameCounted(pairs: seq<Pair>, names: set<Bytes>, q: Values, name: Bytes, values: seq<Bytes>)
    requires Holds(pairs, names, q) && name in q && name !in names && multiset(values) == multiset(q[name])
    ensures Holds(pairs + PairsFor(name, values), names + {name}, q)
  {
    var more := PairsFor(name, values);
    assert multiset(pairs + more) == multiset(pairs) + multiset(more);
    forall p: Pair ensures multiset(pairs + more)[p] == if p.name in names + {name} then Count(q, p) else 0 {
      CountFor(name, values, p);
    }
  }
  lemma {:induction false} CountFor(name: Bytes, values: seq<Bytes>, p: Pair)
    ensures multiset(PairsFor(name, values))[p] == if p.name == name then multiset(values)[p.value] else 0
  {
    if values != [] {
      var n := |values| - 1;
      CountFor(name, values[..n], p);
      assert values == values[..n] + [values[n]];
      assert PairsFor(name, values) == PairsFor(name, values[..n]) + [Pair(name, values[n])];
    }
  }

  method CanonicalQuery(query: Values, dropSignature: bool) returns (s: string)
    ensures IsCanonical(Signed(query, dropSignature), s)
    ensures IsCanonical(if dropSignature then query - {"X-Amz-Signature"} else query, s)
  {
    var q := query;
    if dropSignature { q := q - {SIGNATURE}; }
    var keys := SortedNames(q);
    var out: seq<string> := [];
    ghost var pairs: seq<Pair> := [];
    ghost var names: set<Bytes> := {};
    var i := 0;
    while i < |keys|
      invariant 0 <= i <= |keys| && out == Items(pairs) && InOrder(pairs, PairLess)
      invariant forall n :: n in names <==> n in keys[..i]
      invariant Holds(pairs, names, q)
    {
      hide Less, PairLess, Count, Items, PairsFor;
      var k := keys[i];
      PairsOrdered();
      var values := Sort(q[k], TextLess);
      var printed := PrintName(k, values);
      Irreflexive(k);
      NameInOrder(pairs, names, q, k, values);
      NameCounted(pairs, names, q, k, values);
      ItemsJoin(pairs, PairsFor(k, values));
      assert keys[..i + 1] == keys[..i] + [k];
      out := out + printed;
      pairs := pairs + PairsFor(k, values);
      names := names + {k};
      i := i + 1;
    }
    assert keys[..i] == keys;
    assert Lists(pairs, q);
    return Join(out);
  }

  lemma ItemsJoin(a: seq<Pair>, b: seq<Pair>)
    ensures Items(a + b) == Items(a) + Items(b)
  {
  }

  method SortedNames(q: Values) returns (keys: seq<Bytes>)
    ensures Increasing(keys) && forall k :: k in keys <==> k in q
  {
    var rest := q.Keys;
    keys := [];
    while rest != {}
      invariant rest <= q.Keys && forall k :: k in keys <==> k in q && k !in rest
      invariant multiset(keys) == multiset(q.Keys - rest)
      decreases |rest|
    {
      var k :| k in rest;
      assert q.Keys - (rest - {k}) == (q.Keys - rest) + {k};
      keys := keys + [k];
      rest := rest - {k};
    }
    assert q.Keys - rest == q.Keys;
    PairsOrdered();
    keys := Sort(keys, TextLess);
    DistinctIncrease(keys, q.Keys);
  }
  lemma DistinctIncrease(keys: seq<Bytes>, all: set<Bytes>)
    requires InOrder(keys, TextLess) && multiset(keys) == multiset(all)
    ensures Increasing(keys) && forall k :: k in keys <==> k in all
  {
    forall k ensures k in keys <==> k in all { assert k in keys <==> k in multiset(keys); }
    forall i, j | 0 <= i < j < |keys| ensures Less(keys[i], keys[j]) {
      Total(keys[i], keys[j]);
      assert keys == keys[..i] + [keys[i]] + keys[i + 1..j] + [keys[j]] + keys[j + 1..];
      assert multiset(keys)[keys[i]] <= 1;
    }
  }

  method PrintName(name: Bytes, values: seq<Bytes>) returns (out: seq<string>)
    ensures out == Items(PairsFor(name, values))
  {
    out := [];
    var i := 0;
    while i < |values|
      invariant 0 <= i <= |values| && out == Items(PairsFor(name, values[..i]))
    {
      assert PairsFor(name, values[..i + 1]) == PairsFor(name, values[..i]) + [Pair(name, values[i])];
      out := out + [AwsEscape(name) + "=" + AwsEscape(values[i])];
      i := i + 1;
    }
    assert values[..i] == values;
  }
}

/**
 Which configured source is primary, and why it stays unlimited while an unlimited bucket
 exists. The primary is picked three times: by the database's ORDER BY, by the check made
 before a source is added or updated, and from the sources held in memory, where Go's map
 order decides between sources of equal priority and age.
 */
module Sources {
  import opened Ledger
  import opened Lex
  import opened Sorting
  import opened Store

  datatype Row = Row(id: Id, meta: Source)
  /** The stand-in for the backend from before there were sources: a large, finite capacity. */
  const LEGACY := Row("", Source(0, 0, 0x4000_0000_0000_0000, false, true))

  /** The order of the sources in memory: by priority, then age. */
  predicate Ahead(a: Row, b: Row) {
    a.meta.priority < b.meta.priority || (a.meta.priority == b.meta.priority && a.meta.created < b.meta.created)
  }
  /** `ORDER BY priority,created_at,id`, and the order the check before a write sorts by. */
  predicate Before(a: Row, b: Row) {
    Ahead(a, b) || (a.meta.priority == b.meta.priority && a.meta.created == b.meta.created && Less(a.id, b.id))
  }

  /** The rows of the sources with these ids. */
  function RowsOf(sources: map<Id, Source>, ids: set<Id>): set<Row> {
    set id | id in sources && id in ids :: Row(id, sources[id])
  }
  function Enabled(sources: map<Id, Source>): set<Id> {
    set id | id in sources && sources[id].enabled
  }

  /** The rows of a set, each once, in an order in which none precedes one ahead of it. */
  ghost predicate Arranges(rows: seq<Row>, all: set<Row>, less: (Row, Row) -> bool) {
    multiset(rows) == multiset(all) && InOrder(rows, less)
  }

  lemma BothAreOrderings()
    ensures Ordering(Ahead) && Ordering(Before)
  {
    forall a: Row, b: Row | Less(a.id, b.id) ensures !Less(b.id, a.id) { Asymmetric(a.id, b.id); }
    forall a: Row, b: Row, c: Row | !Before(b, a) && !Before(c, b) ensures !Before(c, a) { BeforeComposes(a, b, c); }
  }
  lemma BeforeComposes(a: Row, b: Row, c: Row)
    requires !Before(b, a) && !Before(c, b)
    ensures !Before(c, a)
  {
    Total(a.id, b.id);
    Total(b.id, c.id);
    if Before(c, a) && Less(c.id, a.id) {
      if a.id != b.id && Less(a.id, b.id) { Transitive(c.id, a.id, b.id); }
    }
  }

  /** Lower priority first, then older. */
  predicate NotAfter(a: Source, b: Source) {
    a.priority <= b.priority && (a.priority == b.priority ==> a.created <= b.created)
  }
  predicate Tie(a: Row, b: Row) {
    a.id != b.id && a.meta.priority == b.meta.priority && a.meta.created == b.meta.created
  }
  /** What being in either order means for the rows' own columns. */
  lemma OrderMeans(rows: seq<Row>, i: nat, j: nat)
    requires i < j < |rows|
    ensures InOrder(rows, Ahead) ==> NotAfter(rows[i].meta, rows[j].meta)
    ensures InOrder(rows, Before) ==> NotAfter(rows[i].meta, rows[j].meta)
    ensures InOrder(rows, Before) && Tie(rows[i], rows[j]) ==> Less(rows[i].id, rows[j].id)
  {
    if InOrder(rows, Ahead) { assert !Ahead(rows[j], rows[i]); }
    if InOrder(rows, Before) {
      assert !Before(rows[j], rows[i]);
      Total(rows[i].id, rows[j].id);
    }
  }

  // ---------- The primary ----------

  /** First in the database's order among the enabled sources. */
  ghost predicate IsPrimary(sources: map<Id, Source>, id: Id) {
    && id in sources && sources[id].enabled
    && forall other :: other in sources && sources[other].enabled && other != id ==>
         Before(Row(id, sources[id]), Row(other, sources[other]))
  }
  /** First in some order the in-memory sort may produce. */
  ghost predicate MayLead(sources: map<Id, Source>, ready: set<Id>, id: Id) {
    && id in sources && sources[id].enabled && id in ready
    && forall other :: other in sources && sources[other].enabled && other in ready ==>
         !Ahead(Row(other, sources[other]), Row(id, sources[id]))
  }

  lemma PrimaryIsUnique(sources: map<Id, Source>, a: Id, b: Id)
    requires IsPrimary(sources, a) && IsPrimary(sources, b)
    ensures a == b
  {
    if a != b {
      assert Before(Row(a, sources[a]), Row(b, sources[b])) && Before(Row(b, sources[b]), Row(a, sources[a]));
      BothAreOrderings();
    }
  }

  lemma FirstOfTheListing(rows: seq<Row>, sources: map<Id, Source>)
    requires InOrder(rows, Before) && rows != [] && forall row :: row in rows <==> row in RowsOf(sources, Enabled(sources))
    ensures IsPrimary(sources, rows[0].id) && rows[0].meta == sources[rows[0].id]
  {
    var id := rows[0].id;
    assert rows[0] in RowsOf(sources, Enabled(sources));
    forall other | other in sources && sources[other].enabled && other != id
      ensures Before(Row(id, sources[id]), Row(other, sources[other]))
    {
      var row := Row(other, sources[other]);
      assert row in rows;
      var i :| 0 <= i < |rows| && rows[i] == row;
      assert !Before(rows[i], rows[0]);
      Total(id, other);
    }
  }

  lemma FirstInMemory(rows: seq<Row>, sources: map<Id, Source>, ready: set<Id>)
    requires Arranges(rows, RowsOf(sources, Enabled(sources) * ready), Ahead) && rows != []
    ensures MayLead(sources, ready, rows[0].id) && rows[0].meta == sources[rows[0].id]
  {
    var id := rows[0].id;
    assert rows[0] in multiset(rows);
    assert rows[0] in RowsOf(sources, Enabled(sources) * ready);
    forall other | other in sources && sources[other].enabled && other in ready
      ensures !Ahead(Row(other, sources[other]), Row(id, sources[id]))
    {
      var row := Row(other, sources[other]);
      assert row in RowsOf(sources, Enabled(sources) * ready) && row in multiset(rows);
      var i :| 0 <= i < |rows| && rows[i] == row;
      assert i > 0 ==> !Ahead(rows[i], rows[0]);
    }
  }

  /** The sources in memory agree with the database on the primary, whatever order the map is
      walked in, exactly when the database's primary is ready and no other ready source has
      its priority and age. */
  lemma SamePrimaryIff(sources: map<Id, Source>, ready: set<Id>, primary: Id)
    requires IsPrimary(sources, primary)
    ensures (MayLead(sources, ready, primary) && forall id :: MayLead(sources, ready, id) ==> id == primary)
      <==> primary in ready && forall id :: id in sources && sources[id].enabled && id in ready && id != primary ==>
             Ahead(Row(primary, sources[primary]), Row(id, sources[id]))
  {
    var top := Row(primary, sources[primary]);
    BothAreOrderings();
    if primary in ready {
      forall id | id in sources && sources[id].enabled && id in ready ensures !Ahead(Row(id, sources[id]), top) {
        assert id != primary ==> Before(top, Row(id, sources[id]));
      }
      assert MayLead(sources, ready, primary);
      forall id | id in sources && sources[id].enabled && id in ready && id != primary && !Ahead(top, Row(id, sources[id]))
        ensures MayLead(sources, ready, id)
      {
        forall other | other in sources && sources[other].enabled && other in ready
          ensures !Ahead(Row(other, sources[other]), Row(id, sources[id]))
        {
          assert other != primary ==> Before(top, Row(other, sources[other]));
        }
      }
    }
  }

  // ---------- The rule ----------

  ghost predicate HasUnlimited(buckets: map<Id, Bucket>) {
    exists b :: b in buckets && buckets[b].unlimited
  }
  ghost predicate HasEnabled(sources: map<Id, Source>) {
    exists id :: id in sources && sources[id].enabled
  }
  ghost predicate PrimaryIsUnlimited(sources: map<Id, Source>) {
    exists id :: IsPrimary(sources, id) && sources[id].unlimited
  }
  /** While an unlimited bucket exists the primary source is unlimited. */
  ghost predicate Backed(t: Tables) {
    HasUnlimited(t.buckets) ==> PrimaryIsUnlimited(t.sources)
  }
  /** No two enabled sources share both priority and age. */
  ghost predicate NoTies(sources: map<Id, Source>) {
    forall a, b :: a in sources && b in sources && a != b && sources[a].enabled && sources[b].enabled ==>
      sources[a].priority != sources[b].priority || sources[a].created != sources[b].created
  }
  /** What the check before a source is written allows. */
  ghost predicate Allowed(t: Tables, id: SourceId, s: Source) {
    HasUnlimited(t.buckets) && HasEnabled(t.sources[id := s]) ==> PrimaryIsUnlimited(t.sources[id := s])
  }

  /** The enabled sources as the check sorts them. */
  ghost predicate SortedEnabled(rows: seq<Row>, sources: map<Id, Source>) {
    InOrder(rows, Before) && forall row :: row in rows <==> row in RowsOf(sources, Enabled(sources))
  }
  /** The check before a source is written: with the candidate in the listing, the first of
      the sorted enabled sources is unlimited if any bucket is. */
  ghost predicate CheckPasses(t: Tables, id: SourceId, s: Source) {
    HasUnlimited(t.buckets) ==> SortsUnlimited(t.sources[id := s])
  }
  ghost predicate SortsUnlimited(sources: map<Id, Source>) {
    exists rows: seq<Row> :: ShowsUnlimited(rows, sources)
  }
  ghost predicate ShowsUnlimited(rows: seq<Row>, sources: map<Id, Source>) {
    SortedEnabled(rows, sources) && (rows == [] || rows[0].meta.unlimited)
  }
  /** What the sources in memory may answer when asked whether the primary is unlimited: the
      truth about some source that may lead them, or no if none can. */
  ghost predicate Tells(sources: map<Id, Source>, ready: set<Id>, told: bool) {
    || (exists id :: MayLead(sources, ready, id) && sources[id].unlimited == told)
    || (!told && Enabled(sources) * ready == {})
  }

  lemma FirstAllowed(rows: seq<Row>, sources: map<Id, Source>)
    requires SortedEnabled(rows, sources)
    ensures rows == [] || rows[0].meta.unlimited <==> (HasEnabled(sources) ==> PrimaryIsUnlimited(sources))
  {
    if rows == [] {
      forall id | id in sources ensures !sources[id].enabled { assert Row(id, sources[id]) !in rows; }
    } else {
      FirstOfTheListing(rows, sources);
      if PrimaryIsUnlimited(sources) {
        var p :| IsPrimary(sources, p) && sources[p].unlimited;
        PrimaryIsUnique(sources, p, rows[0].id);
      }
    }
  }
  lemma PassedIsAllowed(t: Tables, id: SourceId, s: Source)
    requires CheckPasses(t, id, s)
    ensures Allowed(t, id, s)
  {
    if HasUnlimited(t.buckets) {
      var rows: seq<Row> :| ShowsUnlimited(rows, t.sources[id := s]);
      FirstAllowed(rows, t.sources[id := s]);
    }
  }
  lemma CheckedBy(t: Tables, id: SourceId, s: Source, rows: seq<Row>)
    requires SortedEnabled(rows, t.sources[id := s]) && HasUnlimited(t.buckets)
    ensures CheckPasses(t, id, s) <==> rows == [] || rows[0].meta.unlimited
    ensures Allowed(t, id, s) <==> rows == [] || rows[0].meta.unlimited
  {
    hide PrimaryIsUnlimited, SortedEnabled;
    FirstAllowed(rows, t.sources[id := s]);
    if CheckPasses(t, id, s) { PassedIsAllowed(t, id, s); }
    assert ShowsUnlimited(rows, t.sources[id := s]) <==> rows == [] || rows[0].meta.unlimited;
  }
  lemma LeaderIsPrimary(sources: map<Id, Source>, ready: set<Id>, id: Id)
    requires MayLead(sources, ready, id)
    ensures NoTies(sources) && sources.Keys <= ready ==> IsPrimary(sources, id) && (sources[id].unlimited <==> PrimaryIsUnlimited(sources))
  {
    if NoTies(sources) && sources.Keys <= ready && PrimaryIsUnlimited(sources) {
      var p :| IsPrimary(sources, p) && sources[p].unlimited;
      PrimaryIsUnique(sources, p, id);
    }
  }
  /** With every source ready and no ties the answer is the truth about the real primary. */
  lemma TellsTheTruth(sources: map<Id, Source>, ready: set<Id>, told: bool)
    requires Tells(sources, ready, told) && NoTies(sources) && sources.Keys <= ready
    ensures told <==> PrimaryIsUnlimited(sources)
  {
    if id :| MayLead(sources, ready, id) && sources[id].unlimited == told {
      LeaderIsPrimary(sources, ready, id);
    } else {
      forall id | id in sources ensures !sources[id].enabled { assert id in Enabled(sources) * ready <==> sources[id].enabled; }
    }
  }

  // ---------- Runs of the service's own requests ----------

  /** A request as the service serves it. For a bucket, the sources that are ready then and
      what memory answers about the primary. */
  datatype Request =
    | AddSource(sid: SourceId, source: Source)
    | ChangeSource(sid: SourceId, priority: int, capacity: int, unlimited: bool)
    | CreateBucket(id: Id, bucket: Bucket, ready: set<Id>, told: bool)
    | ChangeBucket(id: Id, bucket: Bucket, ready: set<Id>, told: bool)
    | Other(op: Op)

  function Changed(s: Source, priority: int, capacity: int, unlimited: bool): Source {
    s.(priority := priority, capacity := capacity, unlimited := unlimited, enabled := true)
  }
  ghost function WriteSource(t: Tables, c: Limits, id: SourceId, s: Source, op: Op): Tables {
    if CheckPasses(t, id, s) then Next(t, c, op) else t
  }
  ghost function Serve(t: Tables, c: Limits, r: Request): Tables {
    match r
    case AddSource(id, s) => WriteSource(t, c, id, s.(enabled := true), NewSource(id, s.(enabled := true)))
    case ChangeSource(id, p, cap, u) =>
      if id !in t.sources then t
      else WriteSource(t, c, id, Changed(t.sources[id], p, cap, u), EditSource(id, Changed(t.sources[id], p, cap, u)))
    case CreateBucket(id, b, _, told) => Next(t, c, Op.NewBucket(id, b, told))
    case ChangeBucket(id, b, _, told) => Next(t, c, Op.EditBucket(id, b, told))
    case Other(op) => Next(t, c, op)
  }
  /** What memory may answer; every other operation leaves buckets' quotas and sources alone. */
  ghost predicate Possible(t: Tables, r: Request) {
    match r
    case CreateBucket(_, _, ready, told) => Tells(t.sources, ready, told)
    case ChangeBucket(_, _, ready, told) => Tells(t.sources, ready, told)
    case Other(op) => !op.NewBucket? && !op.EditBucket? && !op.NewSource? && !op.EditSource?
    case _ => true
  }
  predicate AllReady(t: Tables, r: Request) {
    r.CreateBucket? || r.ChangeBucket? ==> t.sources.Keys <= r.ready
  }
  ghost predicate ServedRun(t: Tables, c: Limits, rs: seq<Request>)
    decreases rs
  {
    rs == [] || (Possible(t, rs[0]) && NoTies(t.sources) && AllReady(t, rs[0]) && ServedRun(Serve(t, c, rs[0]), c, rs[1..]))
  }
  ghost function ServeAll(t: Tables, c: Limits, rs: seq<Request>): Tables
    decreases rs
  {
    if rs == [] then t else ServeAll(Serve(t, c, rs[0]), c, rs[1..])
  }

  lemma SourcesUntouched(t: Tables, c: Limits, op: Op)
    requires !op.NewSource? && !op.EditSource?
    ensures Next(t, c, op).sources == t.sources
  {
    hide ReserveRefusal, CommitRefusal;
  }
  lemma UnlimitedComesVetted(t: Tables, c: Limits, op: Op)
    requires HasUnlimited(Next(t, c, op).buckets) && !HasUnlimited(t.buckets)
    ensures (op.NewBucket? || op.EditBucket?) && op.primaryUnlimited
  {
    hide ReserveRefusal, CommitRefusal;
  }

  /** A source write that got past the check leaves the rule in force. */
  lemma WriteStaysBacked(t: Tables, c: Limits, id: SourceId, s: Source, op: Op)
    requires Backed(t) && s.enabled && ((op.NewSource? || op.EditSource?) && op.sid == id && op.source == s)
    ensures Backed(WriteSource(t, c, id, s, op))
  {
    if CheckPasses(t, id, s) {
      PassedIsAllowed(t, id, s);
      hide PrimaryIsUnlimited, CheckPasses;
      assert id in t.sources[id := s] && t.sources[id := s][id].enabled;
    }
  }
  lemma BucketStaysBacked(t: Tables, c: Limits, op: Op)
    requires Backed(t) && (op.NewBucket? || op.EditBucket?) && (op.primaryUnlimited ==> PrimaryIsUnlimited(t.sources))
    ensures Backed(Next(t, c, op))
  {
    hide Next, PrimaryIsUnlimited;
    SourcesUntouched(t, c, op);
    if HasUnlimited(Next(t, c, op).buckets) && !HasUnlimited(t.buckets) { UnlimitedComesVetted(t, c, op); }
  }
  lemma OtherStaysBacked(t: Tables, c: Limits, op: Op)
    requires Backed(t) && Possible(t, Other(op))
    ensures Backed(Next(t, c, op))
  {
    hide Next, PrimaryIsUnlimited;
    SourcesUntouched(t, c, op);
    if HasUnlimited(Next(t, c, op).buckets) && !HasUnlimited(t.buckets) { UnlimitedComesVetted(t, c, op); }
  }

  lemma RequestStaysBacked(t: Tables, c: Limits, r: Request)
    requires Backed(t) && Possible(t, r) && NoTies(t.sources) && AllReady(t, r)
    ensures Backed(Serve(t, c, r))
  {
    hide Backed, NoTies, Tells, PrimaryIsUnlimited, WriteSource, Next;
    match r
    case AddSource(id, s) => WriteStaysBacked(t, c, id, s.(enabled := true), NewSource(id, s.(enabled := true)));
    case ChangeSource(id, p, cap, u) =>
      if id in t.sources {
        WriteStaysBacked(t, c, id, Changed(t.sources[id], p, cap, u), EditSource(id, Changed(t.sources[id], p, cap, u)));
      }
    case CreateBucket(id, b, ready, told) =>
      TellsTheTruth(t.sources, ready, told);
      BucketStaysBacked(t, c, Op.NewBucket(id, b, told));
    case ChangeBucket(id, b, ready, told) =>
      TellsTheTruth(t.sources, ready, told);
      BucketStaysBacked(t, c, Op.EditBucket(id, b, told));
    case Other(op) => OtherStaysBacked(t, c, op);
  }

  /** Over every serialised run of the service's requests in which all sources are ready and
      none tie, an unlimited bucket is backed by an unlimited primary. */
  lemma {:induction false} RunsStayBacked(t: Tables, c: Limits, rs: seq<Request>)
    requires Backed(t) && ServedRun(t, c, rs)
    ensures Backed(ServeAll(t, c, rs))
    decreases rs
  {
    if rs != [] {
      RequestStaysBacked(t, c, rs[0]);
      RunsStayBacked(Serve(t, c, rs[0]), c, rs[1..]);
    }
  }

  const LIMITED := Source(1, 5, 10, false, true)
  const ENDLESS := Source(1, 5, 0, true, true)
  const LATER := Source(2, 6, 0, true, true)

  /** Two sources of one priority and age: memory may put the unlimited one first while the
      database's primary is the limited one, so an unlimited bucket is created unbacked; or
      the other way round, so one is refused that would be backed. */
  lemma TiesSplitThePrimary(t: Tables, c: Limits)
    requires t.buckets == map[] && t.sources == map["a" := LIMITED, "b" := ENDLESS]
    ensures var r := CreateBucket("n", Bucket(false, 0, true), {"a", "b"}, true);
      Possible(t, r) && AllReady(t, r) && Backed(t) && !Backed(Serve(t, c, r))
    ensures var swapped: map<Id, Source> := map["a" := ENDLESS, "b" := LIMITED];
      PrimaryIsUnlimited(swapped) && Tells(swapped, {"a", "b"}, false)
  {
    assert Less("a", "b");
    assert MayLead(t.sources, {"a", "b"}, "b");
    assert IsPrimary(t.sources, "a");
    OnlyPrimary(t.sources, "a");
    UnlimitedCreated(t, c);
    var swapped: map<Id, Source> := map["a" := ENDLESS, "b" := LIMITED];
    assert IsPrimary(swapped, "a") && MayLead(swapped, {"a", "b"}, "b");
  }
  /** A limited primary that is not ready is skipped in memory, so an unlimited bucket is
      created that it does not back. */
  lemma AnUnreadyPrimaryIsSkipped(t: Tables, c: Limits)
    requires t.buckets == map[] && t.sources == map["a" := LIMITED, "b" := LATER]
    ensures var r := CreateBucket("n", Bucket(false, 0, true), {"b"}, true);
      Possible(t, r) && NoTies(t.sources) && Backed(t) && !Backed(Serve(t, c, r))
  {
    assert MayLead(t.sources, {"b"}, "b");
    assert IsPrimary(t.sources, "a");
    OnlyPrimary(t.sources, "a");
    UnlimitedCreated(t, c);
  }
  lemma OnlyPrimary(sources: map<Id, Source>, id: Id)
    requires IsPrimary(sources, id)
    ensures PrimaryIsUnlimited(sources) <==> sources[id].unlimited
  {
    if PrimaryIsUnlimited(sources) {
      var p :| IsPrimary(sources, p) && sources[p].unlimited;
      PrimaryIsUnique(sources, p, id);
    }
  }
  lemma UnlimitedCreated(t: Tables, c: Limits)
    requires t.buckets == map[]
    ensures var t' := Next(t, c, Op.NewBucket("n", Bucket(false, 0, true), true)); HasUnlimited(t'.buckets) && t'.sources == t.sources
  {
    var t' := Next(t, c, Op.NewBucket("n", Bucket(false, 0, true), true));
    assert t'.buckets == map["n" := Bucket(false, 0, true)];
    assert "n" in t'.buckets && t'.buckets["n"].unlimited;
  }

  // ---------- The storage manager ----------

  lemma OneMoreRow(sources: map<Id, Source>, ids: set<Id>, id: Id)
    requires id in sources && id !in ids
    ensures multiset(RowsOf(sources, ids + {id})) == multiset(RowsOf(sources, ids)) + multiset{Row(id, sources[id])}
  {
    assert RowsOf(sources, ids + {id}) == RowsOf(sources, ids) + {Row(id, sources[id])};
    assert Row(id, sources[id]) !in RowsOf(sources, ids);
  }

  function Rewritten(row: Row, id: Id, s: Source): Row {
    if row.id == id then Row(id, s) else row
  }

  lemma RewrittenRows(was: seq<Row>, rows: seq<Row>, sources: map<Id, Source>, id: Id, s: Source)
    requires forall row :: row in was <==> row in RowsOf(sources, sources.Keys)
    requires |rows| >= |was| && forall k :: 0 <= k < |was| ==> rows[k] == Rewritten(was[k], id, s)
    requires rows[|was|..] == if id in sources then [] else [Row(id, s)]
    ensures forall row :: row in rows <==> row in RowsOf(sources[id := s], sources[id := s].Keys)
  {
    var now := sources[id := s];
    forall row | row in rows ensures row in RowsOf(now, now.Keys) {
      var k :| 0 <= k < |rows| && rows[k] == row;
      if k < |was| { assert was[k] in was; } else { assert rows[|was|..][k - |was|] == row; }
      assert row.id in now && row == Row(row.id, now[row.id]);
    }
    forall row | row in RowsOf(now, now.Keys) ensures row in rows {
      if row.id in sources {
        var previous := Row(row.id, sources[row.id]);
        assert previous in was;
        var k :| 0 <= k < |was| && was[k] == previous;
        assert rows[k] == row;
      } else {
        assert row == rows[|was|];
      }
    }
  }

  class StorageManager {
    const db: Store
    var sources: map<Id, Source>

    /** The sources in memory are those in the database. */
    ghost predicate Valid()
      reads this, db
    {
      db.Valid() && sources == db.tables.sources
    }

    /** Loads every source the database lists. */
    constructor (db: Store)
      requires db.Valid()
      ensures Valid() && this.db == db
    {
      this.db := db;
      sources := map[];
      new;
      var rows := List();
      ListedRows(rows, db.tables.sources);
      var i := 0;
      while i < |rows|
        invariant 0 <= i <= |rows|
        invariant forall id :: id in sources ==> id in db.tables.sources && sources[id] == db.tables.sources[id]
        invariant forall k :: 0 <= k < i ==> rows[k].id in sources
      {
        assert rows[i] in RowsOf(db.tables.sources, db.tables.sources.Keys);
        sources := sources[rows[i].id := rows[i].meta];
        i := i + 1;
      }
      forall id | id in db.tables.sources ensures id in sources {
        assert Row(id, db.tables.sources[id]) in rows;
      }
    }

    /** The rows of the wanted sources, in whatever order the map is walked. */
    static method Collect(from: map<Id, Source>, wanted: set<Id>) returns (rows: seq<Row>)
      ensures multiset(rows) == multiset(RowsOf(from, wanted))
    {
      rows := [];
      var rest := from.Keys;
      while rest != {}
        invariant rest <= from.Keys
        invariant multiset(rows) == multiset(RowsOf(from, wanted * (from.Keys - rest)))
        decreases |rest|
      {
        var id :| id in rest;
        ghost var seen := from.Keys - rest;
        if id in wanted {
          OneMoreRow(from, wanted * seen, id);
          rows := rows + [Row(id, from[id])];
        }
        rest := rest - {id};
        assert wanted * (from.Keys - rest) == wanted * seen + if id in wanted then {id} else {};
      }
      assert RowsOf(from, wanted * (from.Keys - rest)) == RowsOf(from, wanted);
    }

    /** Where uploads may go, best first. `ready` are the sources whose backends are ready;
        only when there is none does a ready legacy backend stand in. */
    method Candidates(ready: set<Id>, legacyReady: bool) returns (out: seq<Row>)
      ensures Enabled(sources) * ready != {} ==> Arranges(out, RowsOf(sources, Enabled(sources) * ready), Ahead) && out != []
      ensures Enabled(sources) * ready == {} ==> out == if legacyReady then [LEGACY] else []
      ensures !(exists id :: id in sources && sources[id].enabled && id in ready) ==>
        out == if legacyReady then [Row("", Source(0, 0, 4611686018427387904, false, true))] else []
      ensures (exists id :: id in sources && sources[id].enabled && id in ready) ==>
        && (forall row :: row in out <==> row.id in sources && row.meta == sources[row.id] && row.meta.enabled && row.id in ready)
        && (forall i, j :: 0 <= i < j < |out| ==> NotAfter(out[i].meta, out[j].meta))
    {
      BothAreOrderings();
      var rows := Collect(sources, Enabled(sources) * ready);
      out := Sort(rows, Ahead);
      assert (exists id :: id in sources && sources[id].enabled && id in ready) <==> Enabled(sources) * ready != {} by {
        if id :| id in sources && sources[id].enabled && id in ready { assert id in Enabled(sources) * ready; }
        if id :| id in Enabled(sources) * ready { assert id in sources && sources[id].enabled && id in ready; }
      }
      if out == [] {
        NobodyLeads(sources, ready);
        if legacyReady { out := [LEGACY]; }
      } else {
        SomebodyLeads(sources, ready, out[0], out);
        ArrangedRows(out, sources, Enabled(sources) * ready);
        forall i, j | 0 <= i < j < |out| ensures NotAfter(out[i].meta, out[j].meta) { OrderMeans(out, i, j); }
      }
    }

    /** `SELECT ... FROM storage_sources ORDER BY priority,created_at,id` */
    method List() returns (out: seq<Row>)
      ensures Arranges(out, RowsOf(db.tables.sources, db.tables.sources.Keys), Before)
      ensures forall row :: row in out <==> row.id in db.tables.sources && row.meta == db.tables.sources[row.id]
      ensures forall i, j :: 0 <= i < j < |out| ==> NotAfter(out[i].meta, out[j].meta)
      ensures forall i, j :: 0 <= i < j < |out| && Tie(out[i], out[j]) ==> Less(out[i].id, out[j].id)
    {
      BothAreOrderings();
      var rows := Collect(db.tables.sources, db.tables.sources.Keys);
      out := Sort(rows, Before);
      ArrangedRows(out, db.tables.sources, db.tables.sources.Keys);
      forall i, j | 0 <= i < j < |out|
        ensures NotAfter(out[i].meta, out[j].meta)
        ensures Tie(out[i], out[j]) ==> Less(out[i].id, out[j].id)
      {
        OrderMeans(out, i, j);
      }
    }

    /** The legacy backend is never unlimited. */
    method PrimaryUnlimited(ready: set<Id>, legacyReady: bool) returns (yes: bool)
      ensures Tells(sources, ready, yes)
      ensures NoTies(sources) && sources.Keys <= ready ==> (yes <==> PrimaryIsUnlimited(sources))
    {
      var out := Candidates(ready, legacyReady);
      if Enabled(sources) * ready != {} { FirstInMemory(out, sources, ready); }
      yes := out != [] && out[0].meta.unlimited;
      if NoTies(sources) && sources.Keys <= ready { TellsTheTruth(sources, ready, yes); }
    }

    /** Before a source is written: would the primary still be unlimited if it must be? */
    method ValidatePrimaryCapacity(id: SourceId, candidate: Source) returns (ok: bool)
      requires Valid()
      ensures ok <==> Allowed(db.tables, id, candidate)
      ensures ok <==> CheckPasses(db.tables, id, candidate)
    {
      hide PrimaryIsUnlimited, IsPrimary, SortedEnabled;
      if !(exists b :: b in db.tables.buckets && db.tables.buckets[b].unlimited) { return true; }
      var rows := List();
      ListedRows(rows, sources);
      rows := Rewrite(rows, id, candidate);
      rows := OnlyEnabled(rows);
      BothAreOrderings();
      var enabled := Sort(rows, Before);
      SortedListing(rows, enabled, sources[id := candidate]);
      CheckedBy(db.tables, id, candidate, enabled);
      ok := |enabled| == 0 || enabled[0].meta.unlimited;
    }

    /** Puts the candidate in the listing, over its own row if it has one. */
    method Rewrite(was: seq<Row>, id: SourceId, s: Source) returns (rows: seq<Row>)
      requires Valid() && forall row :: row in was <==> row in RowsOf(sources, sources.Keys)
      ensures forall row :: row in rows <==> row in RowsOf(sources[id := s], sources[id := s].Keys)
    {
      rows := was;
      var found := false;
      var i := 0;
      while i < |rows|
        invariant 0 <= i <= |rows| == |was|
        invariant forall k :: 0 <= k < i ==> rows[k] == Rewritten(was[k], id, s)
        invariant forall k :: i <= k < |rows| ==> rows[k] == was[k]
        invariant found <==> exists k :: 0 <= k < i && was[k].id == id
      {
        if rows[i].id == id {
          rows := rows[i := Row(id, s)];
          found := true;
        }
        i := i + 1;
      }
      FoundIffListed(was, sources, id);
      if !found { rows := rows + [Row(id, s)]; }
      RewrittenRows(was, rows, sources, id, s);
    }

    method OnlyEnabled(rows: seq<Row>) returns (enabled: seq<Row>)
      ensures forall row :: row in enabled <==> row in rows && row.meta.enabled
    {
      enabled := [];
      var i := 0;
      while i < |rows|
        invariant 0 <= i <= |rows| && forall row :: row in enabled <==> row in rows[..i] && row.meta.enabled
      {
        assert rows[..i + 1] == rows[..i] + [rows[i]];
        if rows[i].meta.enabled { enabled := enabled + [rows[i]]; }
        i := i + 1;
      }
      assert rows[..i] == rows;
    }

    method Add(id: SourceId, s: Source) returns (err: Option<Error>)
      requires Valid()
      modifies this, db
      ensures Valid()
      ensures err == if !s.unlimited && s.capacity <= 0 then Some(BadCapacity)
                     else if !Allowed(old(db.tables), id, s.(enabled := true)) then Some(NeedsUnlimitedPrimary)
                     else Reply(Ledger.AddSource(old(db.tables), id, s.(enabled := true)))
      ensures err == None ==> db.tables == old(db.tables).(sources := old(db.tables).sources[id := s.(enabled := true)])
      ensures err != None ==> db.tables == old(db.tables)
      ensures forall c: Limits :: db.tables == Serve(old(db.tables), c, Request.AddSource(id, s))
    {
      if !s.unlimited && s.capacity <= 0 { return Some(BadCapacity); }
      var v := s.(enabled := true);
      var ok := ValidatePrimaryCapacity(id, v);
      if !ok { return Some(NeedsUnlimitedPrimary); }
      err := db.CreateStorageSource(id, v);
      if err == None { sources := sources[id := v]; }
    }

    /** The age of a source is never changed. */
    method Update(id: SourceId, priority: int, capacity: int, unlimited: bool) returns (err: Option<Error>)
      requires Valid()
      modifies this, db
      ensures Valid()
      ensures id !in old(db.tables).sources ==> err == Some(NoRows)
      ensures id in old(db.tables).sources ==>
        var v := old(db.tables).sources[id].(priority := priority, capacity := capacity, unlimited := unlimited, enabled := true);
        err == if !unlimited && capacity <= 0 then Some(BadCapacity)
               else if !Allowed(old(db.tables), id, v) then Some(NeedsUnlimitedPrimary)
               else Reply(UpdateSource(old(db.tables), id, v))
      ensures err == None ==> id in old(db.tables).sources && db.tables == old(db.tables).(
        sources := old(db.tables).sources[id := old(db.tables).sources[id].(
          priority := priority, capacity := capacity, unlimited := unlimited, enabled := true)])
      ensures err != None ==> db.tables == old(db.tables)
      ensures forall c: Limits :: db.tables == Serve(old(db.tables), c, ChangeSource(id, priority, capacity, unlimited))
    {
      hide Serve, CheckPasses, Allowed, Next;
      ServesChange(db.tables, id, priority, capacity, unlimited);
      if id !in db.tables.sources { return Some(NoRows); }
      if !unlimited && capacity <= 0 { return Some(BadCapacity); }
      var v := db.tables.sources[id].(priority := priority, capacity := capacity, unlimited := unlimited, enabled := true);
      var ok := ValidatePrimaryCapacity(id, v);
      if !ok { return Some(NeedsUnlimitedPrimary); }
      err := db.UpdateStorageSource(id, v);
      if err == None { sources := sources[id := v]; }
    }

    /** Creating and editing a bucket: the database is told whether the primary in memory is
        unlimited, which with every source ready and no ties is whether the real one is. */
    method NewBucket(c: Limits, id: Id, b: Bucket, ready: set<Id>, legacyReady: bool) returns (err: Option<Error>, told: bool)
      requires Valid()
      modifies db
      ensures Valid()
      ensures var r := Ledger.CreateBucket(old(db.tables), c, id, b, told); db.tables == After(old(db.tables), r) && err == Reply(r)
      ensures Possible(old(db.tables), Request.CreateBucket(id, b, ready, told))
      ensures db.tables == Serve(old(db.tables), c, Request.CreateBucket(id, b, ready, told))
      ensures NoTies(sources) && sources.Keys <= ready ==> (told <==> PrimaryIsUnlimited(sources))
    {
      hide Tells, PrimaryIsUnlimited, Ledger.CreateBucket;
      told := PrimaryUnlimited(ready, legacyReady);
      SourcesUntouched(db.tables, c, Op.NewBucket(id, b, told));
      err := db.CreateBucket(c, id, b, told);
    }

    method UpdateBucket(c: Limits, id: Id, b: Bucket, ready: set<Id>, legacyReady: bool) returns (err: Option<Error>, told: bool)
      requires Valid()
      modifies db
      ensures Valid()
      ensures var r := Ledger.UpdateBucket(old(db.tables), c, id, b, told); db.tables == After(old(db.tables), r) && err == Reply(r)
      ensures Possible(old(db.tables), Request.ChangeBucket(id, b, ready, told))
      ensures db.tables == Serve(old(db.tables), c, Request.ChangeBucket(id, b, ready, told))
      ensures NoTies(sources) && sources.Keys <= ready ==> (told <==> PrimaryIsUnlimited(sources))
    {
      hide Tells, PrimaryIsUnlimited, Ledger.UpdateBucket;
      told := PrimaryUnlimited(ready, legacyReady);
      SourcesUntouched(db.tables, c, Op.EditBucket(id, b, told));
      err := db.UpdateBucket(c, id, b, told);
    }
  }

  lemma NobodyLeads(sources: map<Id, Source>, ready: set<Id>)
    requires multiset(RowsOf(sources, Enabled(sources) * ready)) == multiset([])
    ensures Enabled(sources) * ready == {}
    ensures sources.Keys <= ready ==> !PrimaryIsUnlimited(sources)
  {
    var all := RowsOf(sources, Enabled(sources) * ready);
    forall row ensures row !in all { assert row in all <==> row in multiset(all); }
    forall id | id in Enabled(sources) ensures id !in ready { assert Row(id, sources[id]) !in all; }
    if sources.Keys <= ready {
      forall id | id in sources ensures !sources[id].enabled { assert id in Enabled(sources) <==> sources[id].enabled; }
    }
  }
  lemma ServesChange(t: Tables, id: SourceId, p: int, cap: int, u: bool)
    ensures var t' := if id in t.sources && CheckPasses(t, id, Changed(t.sources[id], p, cap, u))
                      then After(t, Ledger.UpdateSource(t, id, Changed(t.sources[id], p, cap, u))) else t;
      forall c: Limits :: Serve(t, c, ChangeSource(id, p, cap, u)) == t'
  {
    hide CheckPasses;
  }
  lemma SomebodyLeads(sources: map<Id, Source>, ready: set<Id>, row: Row, out: seq<Row>)
    requires multiset(RowsOf(sources, Enabled(sources) * ready)) == multiset(out) && row in out
    ensures Enabled(sources) * ready != {}
  {
    assert row in multiset(out);
    assert row in RowsOf(sources, Enabled(sources) * ready);
    assert row.id in Enabled(sources) * ready;
  }
  lemma SortedListing(rows: seq<Row>, enabled: seq<Row>, sources: map<Id, Source>)
    requires forall row :: row in rows <==> row in RowsOf(sources, sources.Keys) && row.meta.enabled
    requires InOrder(enabled, Before) && multiset(enabled) == multiset(rows)
    ensures SortedEnabled(enabled, sources)
  {
    forall row ensures row in enabled <==> row in RowsOf(sources, Enabled(sources)) {
      assert row in enabled <==> row in multiset(enabled);
      assert row in rows <==> row in multiset(rows);
    }
  }
  lemma ArrangedRows(rows: seq<Row>, sources: map<Id, Source>, ids: set<Id>)
    requires multiset(rows) == multiset(RowsOf(sources, ids))
    ensures forall row :: row in rows <==> row.id in sources && row.id in ids && row.meta == sources[row.id]
  {
    forall row ensures row in rows <==> row.id in sources && row.id in ids && row.meta == sources[row.id] {
      assert row in rows <==> row in multiset(rows);
      assert row in RowsOf(sources, ids) <==> row.id in sources && row.id in ids && row == Row(row.id, sources[row.id]);
    }
  }
  lemma ListedRows(rows: seq<Row>, sources: map<Id, Source>)
    requires multiset(rows) == multiset(RowsOf(sources, sources.Keys))
    ensures forall row :: row in rows <==> row in RowsOf(sources, sources.Keys)
  {
    forall row ensures row in rows <==> row in RowsOf(sources, sources.Keys) {
      assert row in rows <==> row in multiset(rows);
    }
  }
  lemma FoundIffListed(rows: seq<Row>, sources: map<Id, Source>, id: Id)
    requires forall row :: row in rows <==> row in RowsOf(sources, sources.Keys)
    ensures (exists k :: 0 <= k < |rows| && rows[k].id == id) <==> id in sources
  {
    if id in sources {
      assert Row(id, sources[id]) in rows;
      var k :| 0 <= k < |rows| && rows[k] == Row(id, sources[id]);
      assert rows[k].id == id;
    }
    forall k | 0 <= k < |rows| && rows[k].id == id ensures id in sources { assert rows[k] in rows; }
  }
}

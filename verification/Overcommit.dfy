/**
 Where the limits fail: a run that ends above the quota, the capacity and the object limit, how
 much room a delete under a pending replacement opens, and the exact conditions under which
 the uploads already pending can take a bucket past its quota or its object limit.
 */
module Overcommit {
  import opened Sums
  import opened Ledger
  import opened Store
  import opened Quota
  import opened Counts

  // ---------- A run that ends above the quota ----------

  const B := "b"
  const K := Slot(B, "k")
  const J := Slot(B, "j")
  const LIMITS := Limits(1, 2, 1000)

  const SRC: SourceId := "src"

  function Asking(id: Id, physical: string, size: nat): Request { Request(id, SRC, physical, size, 60) }
  function Pended(id: Id, physical: string, size: nat, reserved: nat): Upload { Upload(id, SRC, physical, size, reserved, reserved, 60) }
  function Stored(id: Id, physical: string, size: nat): Object { Object(id, SRC, physical, size, true, 1) }

  function State(objects: map<Slot, Object>, uploads: map<Slot, Upload>, grants: map<Id, Grant>): Tables {
    WITH_SOURCE.(buckets := map[B := Bucket(false, 200, false)], objects := objects, uploads := uploads, grants := grants)
  }
  const WITH_SOURCE := EMPTY.(sources := map[SRC := Source(0, 0, 200, false, true)])
  const G := Grant(B, 60)

  const RUN: seq<Op> := [
    NewSource(SRC, Source(0, 0, 200, false, true)), NewBucket(B, Bucket(false, 200, false), false),
    Reserve(K, Asking("obj_1", "s1", 100)), Commit(K, "obj_1", "p1", 100),
    Reserve(K, Asking("obj_2", "s2", 150)), Delete("obj_1"),
    Reserve(J, Asking("obj_3", "s3", 150)), Commit(K, "obj_2", "p2", 150),
    Commit(J, "obj_3", "p3", 150)]

  lemma One<K, V>(k: K, v: V, w: (K, V) -> int)
    ensures Sum(map[k := v], w) == w(k, v)
  {
    Put(map[], w, k, v);
  }

  lemma SumsOf(t: Tables, s: Slot)
    ensures t.objects == map[] ==> Used(t, B) == 0 && ReadyObjects(t, B) == 0 && SourceUsed(t, SRC) == 0
    ensures t.objects.Keys == {s} && s.bucket == B && t.objects[s].ready ==> Used(t, B) == t.objects[s].size && ReadyObjects(t, B) == 1
    ensures t.objects.Keys == {s} && t.objects[s].source == SRC && t.objects[s].ready ==> SourceUsed(t, SRC) == t.objects[s].size
    ensures t.uploads == map[] ==> Reserved(t, B) == 0 && Pending(t, B) == 0 && SourceReserved(t, SRC) == 0
    ensures t.uploads.Keys == {s} && s.bucket == B ==> Reserved(t, B) == t.uploads[s].reserved && Pending(t, B) == 1
    ensures t.uploads.Keys == {s} && t.uploads[s].source == SRC ==> SourceReserved(t, SRC) == t.uploads[s].sourceReserved
  {
    if t.objects.Keys == {s} {
      assert t.objects == map[s := t.objects[s]];
      One(s, t.objects[s], ObjectBytes(B));
      One(s, t.objects[s], ObjectRows(B));
      One(s, t.objects[s], PlacedBytes(SRC));
    }
    if t.uploads.Keys == {s} {
      assert t.uploads == map[s := t.uploads[s]];
      One(s, t.uploads[s], UploadBytes(B));
      One(s, t.uploads[s], UploadRows(B));
      One(s, t.uploads[s], PlacedUploads(SRC));
    }
  }

  ghost predicate EndsAtS7(t: Tables, i: nat)
    requires i <= |RUN|
  {
    HonestRun(t, LIMITS, RUN[i..]) && Run(t, LIMITS, RUN[i..]) == S7
  }
  lemma OneStep(i: nat, t: Tables, t': Tables)
    requires i < |RUN| && Honest(t, RUN[i]) && Next(t, LIMITS, RUN[i]) == t' && EndsAtS7(t', i + 1)
    ensures EndsAtS7(t, i)
  {
    assert RUN[i..][0] == RUN[i] && RUN[i..][1..] == RUN[i + 1..];
  }

  const S0 := State(map[], map[], map[])
  const S1 := State(map[], map[K := Pended("obj_1", "s1", 100, 100)], map["obj_1" := G])
  const S2 := State(map[K := Stored("obj_1", "p1", 100)], map[], map["obj_1" := G])
  const S3 := State(map[K := Stored("obj_1", "p1", 100)], map[K := Pended("obj_2", "s2", 150, 50)], map["obj_1" := G, "obj_2" := G])
  const S4 := State(map[], map[K := Pended("obj_2", "s2", 150, 50)], map["obj_1" := G, "obj_2" := G])
  const S5 := State(map[], map[K := Pended("obj_2", "s2", 150, 50), J := Pended("obj_3", "s3", 150, 150)],
                    map["obj_1" := G, "obj_2" := G, "obj_3" := G])
  const S6 := State(map[K := Stored("obj_2", "p2", 150)], map[J := Pended("obj_3", "s3", 150, 150)],
                    map["obj_1" := G, "obj_2" := G, "obj_3" := G])
  const S7 := State(map[K := Stored("obj_2", "p2", 150), J := Stored("obj_3", "p3", 150)], map[],
                    map["obj_1" := G, "obj_2" := G, "obj_3" := G])

  lemma Names()
    ensures ObjectId("obj_1") == "obj_1" && ObjectId("obj_2") == "obj_2" && ObjectId("obj_3") == "obj_3"
  {
    assert "obj_1"[4..] == "1" && "obj_2"[4..] == "2" && "obj_3"[4..] == "3";
    assert "obj_" <= "obj_1" && "obj_" <= "obj_2" && "obj_" <= "obj_3";
    assert "obj_" + "1" == "obj_1" && "obj_" + "2" == "obj_2" && "obj_" + "3" == "obj_3";
  }

  lemma Steps01()
    ensures Next(EMPTY, LIMITS, RUN[0]) == WITH_SOURCE && Next(WITH_SOURCE, LIMITS, RUN[1]) == S0
  {
    assert Sum(WITH_SOURCE.buckets, Quotas()) == 0;
  }
  lemma Step2()
    ensures Next(S0, LIMITS, RUN[2]) == S1
  {
    SumsOf(S0, K);
  }
  lemma Step3()
    ensures Next(S1, LIMITS, RUN[3]) == S2
  {
    Names();
    assert K in S1.uploads && S1.uploads - {K} == map[];
  }
  lemma Steps012()
    ensures Next(EMPTY, LIMITS, RUN[0]) == WITH_SOURCE && Next(WITH_SOURCE, LIMITS, RUN[1]) == S0
    ensures Next(S0, LIMITS, RUN[2]) == S1 && Next(S1, LIMITS, RUN[3]) == S2
  {
    hide Next;
    Steps01();
    Step2();
    Step3();
  }

  lemma Steps34()
    ensures Next(S2, LIMITS, RUN[4]) == S3 && Next(S3, LIMITS, RUN[5]) == S4
  {
    SumsOf(S2, K);
    assert S2.objects == map[K := Stored("obj_1", "p1", 100)];
    assert K in S3.objects && S3.objects - {K} == map[];
    assert ObjectHas(S3.objects, "obj_1");
  }

  lemma Step5()
    ensures Next(S4, LIMITS, RUN[6]) == S5
  {
    SumsOf(S4, K);
    assert S4.uploads == map[K := Pended("obj_2", "s2", 150, 50)];
  }
  lemma Step6()
    ensures Next(S5, LIMITS, RUN[7]) == S6
  {
    Names();
    assert S5.uploads - {K} == S6.uploads;
  }

  lemma Step7()
    ensures Next(S6, LIMITS, RUN[8]) == S7
  {
    Names();
    assert S6.uploads - {J} == map[];
  }

  lemma From4()
    ensures EndsAtS7(S4, 6)
  {
    Step7();
    OneStep(8, S6, S7);
    Step6();
    OneStep(7, S5, S6);
    Step5();
    OneStep(6, S4, S5);
  }
  lemma From2()
    ensures EndsAtS7(S2, 4)
  {
    From4();
    Steps34();
    OneStep(5, S3, S4);
    OneStep(4, S2, S3);
  }
  lemma FromEmpty()
    ensures EndsAtS7(EMPTY, 0)
  {
    From2();
    Steps012();
    OneStep(3, S1, S2);
    OneStep(2, S0, S1);
    OneStep(1, WITH_SOURCE, S0);
    OneStep(0, EMPTY, WITH_SOURCE);
  }

  /** A reachable overrun: replace k (100 bytes) by 150, delete k while that is pending,
      reserve 150 more under another key, commit both. Quota and capacity are 200 and bucket
      and source end with 300 used; the bucket may hold one object and ends with two. */
  lemma LimitsCanBeExceeded()
    ensures HonestRun(EMPTY, LIMITS, RUN)
    ensures var t := Run(EMPTY, LIMITS, RUN);
      && B in t.buckets && t.buckets[B] == Bucket(false, 200, false) && Used(t, B) == 300
      && SRC in t.sources && t.sources[SRC] == Source(0, 0, 200, false, true) && SourceUsed(t, SRC) == 300
      && ReadyObjects(t, B) == 2 && LIMITS.maxObjects == 1
  {
    FromEmpty();
    assert RUN[0..] == RUN;
    var first := map[K := Stored("obj_2", "p2", 150)];
    One(K, first[K], ObjectBytes(B));
    One(K, first[K], ObjectRows(B));
    One(K, first[K], PlacedBytes(SRC));
    Put(first, PlacedBytes(SRC), J, S7.objects[J]);
    Put(first, ObjectBytes(B), J, S7.objects[J]);
    Put(first, ObjectRows(B), J, S7.objects[J]);
    assert first[J := S7.objects[J]] == S7.objects;
  }

  // ---------- How much room a delete opens ----------

  /** The room the quota check cannot see: what pending uploads will add beyond their
      reservations. */
  ghost function Unseen(t: Tables, b: Id): int { Exposure(t, b) - Used(t, b) - Reserved(t, b) }

  /** Deleting an object under a pending upload of its key leaves as many bytes unseen as the
      upload had counted on the object to give back, and none otherwise. */
  lemma DeleteOpensRoom(t: Tables, id: Id)
    requires WellFormed(t) && ObjectHas(t.objects, id)
    ensures var s := ObjectSlot(t.objects, id);
      Unseen(DeleteObject(t, id).tables, s.bucket) == Unseen(t, s.bucket) +
        if s !in t.uploads then 0
        else if t.uploads[s].size < t.objects[s].size then t.uploads[s].size else t.objects[s].size
  {
    var slot := ObjectSlot(t.objects, id);
    GrowthElsewhere(t.uploads, t.objects, t.objects - {slot}, slot, slot.bucket);
    ObjectDrop(t.objects, slot);
  }

  // ---------- Exactly when the pending uploads can break the quota ----------

  /** Object ids that commits of the pending uploads would create are not taken. */
  ghost predicate IdsFree(objects: map<Slot, Object>, uploads: map<Slot, Upload>) {
    && (forall s, s' :: s in uploads && s' in objects && s != s' ==> ObjectId(uploads[s].id) != objects[s'].id)
    && (forall s, s' :: s in uploads && s' in uploads && s != s' ==> ObjectId(uploads[s].id) != ObjectId(uploads[s'].id))
  }

  /** An id as uploads are given it, and no earlier upload was. */
  predicate Unused(op: Op, used: set<Id>) {
    op.Reserve? ==> "obj_" <= op.request.id && op.request.id !in used
  }
  function IdsAfter(op: Op, used: set<Id>): set<Id> { if op.Reserve? then used + {op.request.id} else used }
  ghost predicate FreshRun(t: Tables, c: Limits, ops: seq<Op>, used: set<Id>)
    decreases ops
  {
    ops == [] || (Unused(ops[0], used) && FreshRun(Next(t, c, ops[0]), c, ops[1..], IdsAfter(ops[0], used)))
  }
  /** Every id in use was given to an upload, and none names both an upload and an object. */
  ghost predicate IdsApart(objects: map<Slot, Object>, uploads: map<Slot, Upload>, used: set<Id>) {
    && (forall s :: s in objects ==> objects[s].id in used)
    && (forall s :: s in uploads ==> uploads[s].id in used && "obj_" <= uploads[s].id)
    && (forall s, s' :: s in uploads && s' in objects ==> uploads[s].id != objects[s'].id)
  }

  lemma OwnId(id: Id)
    requires "obj_" <= id
    ensures ObjectId(id) == id
  {
    assert id == "obj_" + id[4..];
  }
  lemma ApartIsFree(objects: map<Slot, Object>, uploads: map<Slot, Upload>, used: set<Id>)
    requires IdsApart(objects, uploads, used) && UploadsDistinct(uploads)
    ensures IdsFree(objects, uploads)
  {
    hide ObjectId;
    forall s | s in uploads ensures ObjectId(uploads[s].id) == uploads[s].id { OwnId(uploads[s].id); }
  }

  lemma StepKeepsApart(t: Tables, c: Limits, op: Op, used: set<Id>)
    requires WellFormed(t) && IdsApart(t.objects, t.uploads, used) && Unused(op, used)
    ensures IdsApart(Next(t, c, op).objects, Next(t, c, op).uploads, IdsAfter(op, used))
  {
    if !TouchesRows(op) {
      RowsUntouched(t, c, op);
    } else if op.Reserve? {
      ReserveKeepsApart(t, c, op.slot, op.request, used);
    } else if op.Commit? {
      CommitKeepsApart(t, op.slot, op.id, op.physical, op.actual, used);
    } else {
      RowsShrink(t, c, op);
    }
  }
  lemma ReserveKeepsApart(t: Tables, c: Limits, slot: Slot, q: Request, used: set<Id>)
    requires IdsApart(t.objects, t.uploads, used) && "obj_" <= q.id && q.id !in used
    ensures var t' := After(t, ReserveObject(t, c, slot, q)); IdsApart(t'.objects, t'.uploads, used + {q.id})
  {
    hide ReserveRefusal;
  }
  lemma CommitKeepsApart(t: Tables, slot: Slot, id: Id, physical: string, actual: nat, used: set<Id>)
    requires WellFormed(t) && IdsApart(t.objects, t.uploads, used)
    ensures var t' := After(t, CommitUpload(t, slot, id, physical, actual)); IdsApart(t'.objects, t'.uploads, used)
  {
    if CommitUpload(t, slot, id, physical, actual).Done? { OwnId(t.uploads[slot].id); }
  }

  /** In every run that gives each upload an id of its own, the pending uploads of every active
      bucket can all be committed: the conditions below apply to every such state. */
  lemma {:induction false} RunsStayCommittable(t: Tables, c: Limits, ops: seq<Op>, used: set<Id>, b: Id)
    requires WellFormed(t) && Covered(t, b) && IdsApart(t.objects, t.uploads, used) && FreshRun(t, c, ops, used)
    ensures var t' := Run(t, c, ops); b in t'.buckets && b !in t'.deletions ==> Committable(t', b)
    decreases ops
  {
    if ops == [] {
      ApartIsFree(t.objects, t.uploads, used);
    } else {
      StepKeepsWellFormed(t, c, ops[0]);
      CoveredKept(t, c, ops[0], b);
      StepKeepsApart(t, c, ops[0], used);
      RunsStayCommittable(Next(t, c, ops[0]), c, ops[1..], IdsAfter(ops[0], used), b);
    }
  }

  ghost predicate Commits(ops: seq<Op>) {
    forall i :: 0 <= i < |ops| ==> ops[i].Commit?
  }

  ghost function Longest(objects: map<Slot, Object>): (n: nat)
    ensures forall s :: s in objects ==> |objects[s].physical| <= n
    decreases |objects|
  {
    if objects == map[] then 0
    else
      var s := Pick(objects);
      assert (objects - {s}).Keys == objects.Keys - {s};
      var n := Longest(objects - {s});
      assert forall r :: r in objects ==> r == s || r in objects - {s};
      if n < |objects[s].physical| then |objects[s].physical| else n
  }
  ghost function UnusedKey(objects: map<Slot, Object>): (k: string)
    ensures forall s :: s in objects ==> objects[s].physical != k
  {
    seq(Longest(objects) + 1, _ => 'x')
  }

  lemma {:induction false} CommitsNeverExceedExposure(t: Tables, c: Limits, ops: seq<Op>, b: Id)
    requires WellFormed(t) && Covered(t, b) && Commits(ops) && HonestRun(t, c, ops)
    ensures var t' := Run(t, c, ops); Used(t', b) + Reserved(t', b) <= Exposure(t, b)
    decreases ops
  {
    if ops == [] {
      CheckSeesExposure(t, b);
    } else {
      StepKeepsWellFormed(t, c, ops[0]);
      CoveredKept(t, c, ops[0], b);
      OnlyReservationsRaiseExposure(t, c, ops[0], b);
      CommitsNeverExceedExposure(Next(t, c, ops[0]), c, ops[1..], b);
    }
  }

  lemma FirstThen(t: Tables, c: Limits, op: Op, rest: seq<Op>)
    requires Honest(t, op) && HonestRun(Next(t, c, op), c, rest)
    ensures HonestRun(t, c, [op] + rest) && Run(t, c, [op] + rest) == Run(Next(t, c, op), c, rest)
  {
    assert ([op] + rest)[1..] == rest;
  }

  /** The pending uploads of an active bucket can be committed one after the other. */
  ghost predicate Committable(t: Tables, b: Id) {
    WellFormed(t) && Covered(t, b) && IdsFree(t.objects, t.uploads) && b in t.buckets && b !in t.deletions
  }

  /** This pending upload can be committed. */
  ghost predicate CanCommit(t: Tables, slot: Slot) {
    WellFormed(t) && IdsFree(t.objects, t.uploads) && slot in t.uploads && slot.bucket !in t.deletions
  }
  lemma CommitGoes(t: Tables, slot: Slot)
    requires CanCommit(t, slot)
    ensures CommitUpload(t, slot, t.uploads[slot].id, UnusedKey(t.objects), t.uploads[slot].size).Done?
  {
    hide UploadsDistinct, LinksFit, DeletionsFit, UnusedKey;
  }

  /** The commit of this pending upload, under a key nothing has. */
  lemma CommitAny(t: Tables, c: Limits, slot: Slot) returns (op: Op, t': Tables)
    requires CanCommit(t, slot)
    ensures op.Commit? && Honest(t, op) && op.slot == slot && op.id == t.uploads[slot].id && op.actual == t.uploads[slot].size
    ensures CommitUpload(t, slot, op.id, op.physical, op.actual) == Outcome.Done(t') && t' == Next(t, c, op)
    ensures WellFormed(t') && IdsFree(t'.objects, t'.uploads)
    ensures t'.uploads == t.uploads - {slot} && t'.buckets == t.buckets && t'.deletions == t.deletions
  {
    hide WellFormed, CommitRefusal;
    var u := t.uploads[slot];
    op := Commit(slot, u.id, UnusedKey(t.objects), u.size);
    t' := Next(t, c, op);
    CommitGoes(t, slot);
    StepKeepsWellFormed(t, c, op);
  }
  lemma CommitIn(t: Tables, c: Limits, b: Id, slot: Slot) returns (op: Op, t': Tables)
    requires Committable(t, b) && slot in t.uploads && slot.bucket == b
    ensures op.Commit? && Honest(t, op) && op.slot == slot && op.id == t.uploads[slot].id && op.actual == t.uploads[slot].size
    ensures CommitUpload(t, slot, op.id, op.physical, op.actual) == Outcome.Done(t') && t' == Next(t, c, op)
    ensures Committable(t', b) && t'.uploads == t.uploads - {slot}
  {
    hide WellFormed, CommitUpload, IdsFree, Covered, Honest;
    op, t' := CommitAny(t, c, slot);
    CoveredKept(t, c, op, b);
  }

  /** One that is not smaller than its object keeps the exposure. */
  lemma CommitOne(t: Tables, c: Limits, b: Id, slot: Slot) returns (op: Op, t': Tables)
    requires Committable(t, b)
    requires slot in t.uploads && slot.bucket == b && SizeAt(t.objects, slot) <= t.uploads[slot].size
    ensures op.Commit? && Honest(t, op) && t' == Next(t, c, op)
    ensures Committable(t', b) && t'.uploads == t.uploads - {slot} && Exposure(t', b) == Exposure(t, b)
  {
    hide Exposure, CommitUpload, IdsFree, Covered;
    op, t' := CommitIn(t, c, b, slot);
    CommitExposure(t, slot, op.id, op.physical, op.actual, b);
  }

  lemma {:induction false} CommitsReachExposure(t: Tables, c: Limits, b: Id) returns (ops: seq<Op>)
    requires Committable(t, b)
    ensures Commits(ops) && HonestRun(t, c, ops)
    ensures var t' := Run(t, c, ops); Used(t', b) + Reserved(t', b) == Exposure(t, b)
    decreases |t.uploads|
  {
    hide Committable, Exposure, Used, Reserved;
    if slot :| slot in t.uploads && slot.bucket == b && SizeAt(t.objects, slot) <= t.uploads[slot].size {
      var op, t' := CommitOne(t, c, b, slot);
      assert (t.uploads - {slot}).Keys == t.uploads.Keys - {slot};
      var rest := CommitsReachExposure(t', c, b);
      FirstThen(t, c, op, rest);
      ops := [op] + rest;
    } else {
      ops := [];
      NothingLeft(t, b);
    }
  }
  lemma NothingLeft(t: Tables, b: Id)
    requires Committable(t, b) && forall s :: s in t.uploads && s.bucket == b ==> t.uploads[s].size < SizeAt(t.objects, s)
    ensures Used(t, b) + Reserved(t, b) == Exposure(t, b)
  {
    CheckSeesExposure(t, b);
  }

  /** Whatever is pending, no order of commits can take the bucket above `quota` exactly when
      its exposure is within it. The store checks used plus reserved instead, which is the
      same number only while every reservation is tight. */
  lemma PendingIsSafeIff(t: Tables, c: Limits, b: Id, quota: int)
    requires Committable(t, b)
    ensures Exposure(t, b) <= quota <==>
      forall ops :: Commits(ops) && HonestRun(t, c, ops) ==> Used(Run(t, c, ops), b) + Reserved(Run(t, c, ops), b) <= quota
  {
    forall ops | Commits(ops) && HonestRun(t, c, ops)
      ensures Used(Run(t, c, ops), b) + Reserved(Run(t, c, ops), b) <= Exposure(t, b)
    {
      CommitsNeverExceedExposure(t, c, ops, b);
    }
    var worst := CommitsReachExposure(t, c, b);
  }

  // ---------- Exactly when they can break the object limit ----------

  /** Commits turn what is foreseen into objects, and change nothing about how much that is. */
  lemma {:induction false} CommitsKeepForeseen(t: Tables, c: Limits, ops: seq<Op>, b: Id)
    requires WellFormed(t) && Commits(ops)
    ensures Foreseen(Run(t, c, ops), b) == Foreseen(t, b)
    ensures ReadyObjects(Run(t, c, ops), b) <= Foreseen(t, b)
    decreases ops
  {
    hide WellFormed, CommitUpload;
    if ops == [] {
      NonNegative(t.uploads, NewKeys(t.objects, b));
    } else {
      var op := ops[0];
      StepKeepsWellFormed(t, c, op);
      if Apply(t, c, op).Done? { CommitForeseen(t, op.slot, op.id, op.physical, op.actual, b); }
      CommitsKeepForeseen(Next(t, c, op), c, ops[1..], b);
    }
  }

  lemma {:induction false} CommitsReachForeseen(t: Tables, c: Limits, b: Id) returns (ops: seq<Op>)
    requires Committable(t, b)
    ensures Commits(ops) && HonestRun(t, c, ops) && ReadyObjects(Run(t, c, ops), b) == Foreseen(t, b)
    decreases |t.uploads|
  {
    hide Committable, CommitUpload, Foreseen, ReadyObjects;
    if slot :| slot in t.uploads && slot.bucket == b {
      var op, t' := CommitIn(t, c, b, slot);
      CommitKeepsForeseen(t, b, op, slot);
      assert (t.uploads - {slot}).Keys == t.uploads.Keys - {slot};
      var rest := CommitsReachForeseen(t', c, b);
      FirstThen(t, c, op, rest);
      ops := [op] + rest;
    } else {
      ops := [];
      NothingForeseen(t, b);
    }
  }
  lemma CommitKeepsForeseen(t: Tables, b: Id, op: Op, slot: Slot)
    requires Committable(t, b) && op.Commit? && op.slot == slot && CommitUpload(t, slot, op.id, op.physical, op.actual).Done?
    ensures Foreseen(CommitUpload(t, slot, op.id, op.physical, op.actual).tables, b) == Foreseen(t, b)
  {
    hide WellFormed, Foreseen, CommitUpload;
    CommitForeseen(t, slot, op.id, op.physical, op.actual, b);
  }
  lemma NothingForeseen(t: Tables, b: Id)
    requires forall s :: s in t.uploads ==> s.bucket != b
    ensures ReadyObjects(t, b) == Foreseen(t, b)
  {
    Zero(t.uploads, NewKeys(t.objects, b));
  }

  /** No order of commits can take the bucket above `n` objects exactly when its objects and
      the pending uploads of new keys are no more than `n`. The store compares objects alone. */
  lemma CountIsSafeIff(t: Tables, c: Limits, b: Id, n: int)
    requires Committable(t, b)
    ensures Foreseen(t, b) <= n <==>
      forall ops :: Commits(ops) && HonestRun(t, c, ops) ==> ReadyObjects(Run(t, c, ops), b) <= n
  {
    forall ops | Commits(ops) && HonestRun(t, c, ops) ensures ReadyObjects(Run(t, c, ops), b) <= Foreseen(t, b) {
      CommitsKeepForeseen(t, c, ops, b);
    }
    var worst := CommitsReachForeseen(t, c, b);
  }

  const T2 := State(map[], map[K := Pended("obj_1", "s1", 100, 100), J := Pended("obj_2", "s2", 100, 100)],
                    map["obj_1" := G, "obj_2" := G])

  lemma SecondKey()
    ensures Next(S1, LIMITS, Reserve(J, Asking("obj_2", "s2", 100))) == T2
    ensures Foreseen(T2, B) == 2
  {
    SumsOf(S1, K);
    assert S1.uploads == map[K := Pended("obj_1", "s1", 100, 100)];
    One(K, S1.uploads[K], NewKeys(map[], B));
    Put(S1.uploads, NewKeys(map[], B), J, T2.uploads[J]);
    assert S1.uploads[J := T2.uploads[J]] == T2.uploads;
  }

  lemma SecondKeyCommittable()
    ensures Committable(T2, B)
  {
    Names();
  }

  /** The object limit needs no delete to break: two new keys are reserved while there is no
      object, each within the limit of one, and both commit. */
  lemma ObjectLimitBreaksUndeleted() returns (ops: seq<Op>)
    ensures HonestRun(EMPTY, LIMITS, ops) && forall i :: 0 <= i < |ops| ==> !ops[i].Delete?
    ensures ReadyObjects(Run(EMPTY, LIMITS, ops), B) == 2 && LIMITS.maxObjects == 1
  {
    Steps012();
    SecondKey();
    SecondKeyCommittable();
    hide Next, Committable, Foreseen, ReadyObjects;
    ops := CommitsReachForeseen(T2, LIMITS, B);
    FirstThen(S1, LIMITS, Reserve(J, Asking("obj_2", "s2", 100)), ops);
    ops := [Reserve(J, Asking("obj_2", "s2", 100))] + ops;
    FirstThen(S0, LIMITS, RUN[2], ops);
    ops := [RUN[2]] + ops;
    FirstThen(WITH_SOURCE, LIMITS, RUN[1], ops);
    ops := [RUN[1]] + ops;
    FirstThen(EMPTY, LIMITS, RUN[0], ops);
    ops := [RUN[0]] + ops;
  }
}

/**
 Source capacities fail in the same way as quotas: a delete under a pending upload frees bytes
 the upload had counted on. What a source really may come to hold is its exposure, and it is
 safe exactly when that is within its capacity.
 */
module Capacity {
  import opened Sums
  import opened Ledger
  import opened Store
  import opened Quota
  import opened Overcommit

  /** The bytes a pending upload will add to its source if it commits now. */
  function PlacedGrowth(objects: map<Slot, Object>, s: SourceId): (Slot, Upload) -> int {
    (slot: Slot, u: Upload) => if u.source == s then SourceGrowth(objects, slot, u.size, s) else 0
  }
  /** Used bytes plus all that the pending uploads placed on the source would add. */
  ghost function Load(t: Tables, s: SourceId): int {
    SourceUsed(t, s) + Sum(t.uploads, PlacedGrowth(t.objects, s))
  }
  /** No reservation on the source is more than its upload would add now. */
  ghost predicate PlacedCovered(t: Tables, s: SourceId) {
    forall slot :: slot in t.uploads && t.uploads[slot].source == s ==>
      t.uploads[slot].sourceReserved <= SourceGrowth(t.objects, slot, t.uploads[slot].size, s)
  }
  ghost predicate PlacedTight(t: Tables, s: SourceId) {
    forall slot :: slot in t.uploads && t.uploads[slot].source == s ==>
      t.uploads[slot].sourceReserved == SourceGrowth(t.objects, slot, t.uploads[slot].size, s)
  }

  /** What the capacity check sees never exceeds the load, and is the load exactly when every
      reservation on the source is still what its upload would add. */
  lemma CheckSeesLoad(t: Tables, s: SourceId)
    requires PlacedCovered(t, s)
    ensures SourceUsed(t, s) + SourceReserved(t, s) <= Load(t, s)
    ensures SourceUsed(t, s) + SourceReserved(t, s) == Load(t, s) <==> PlacedTight(t, s)
  {
    hide SourceGrowth;
    Monotone(t.uploads, PlacedUploads(s), PlacedGrowth(t.objects, s));
    if SourceUsed(t, s) + SourceReserved(t, s) == Load(t, s) {
      Strict(t.uploads, PlacedUploads(s), PlacedGrowth(t.objects, s));
      forall slot | slot in t.uploads && t.uploads[slot].source == s
        ensures t.uploads[slot].sourceReserved == SourceGrowth(t.objects, slot, t.uploads[slot].size, s)
      {
        assert PlacedUploads(s)(slot, t.uploads[slot]) == PlacedGrowth(t.objects, s)(slot, t.uploads[slot]);
      }
    } else if PlacedTight(t, s) {
      Same(t.uploads, PlacedUploads(s), PlacedGrowth(t.objects, s));
    }
  }

  // ---------- What moves the load ----------

  lemma PlacedElsewhere(uploads: map<Slot, Upload>, objects: map<Slot, Object>, objects': map<Slot, Object>, slot: Slot, s: SourceId)
    requires forall r :: r != slot ==> SizeAt(objects', r) == SizeAt(objects, r) && SourceAt(objects', r) == SourceAt(objects, r)
    ensures Sum(uploads, PlacedGrowth(objects', s)) - At(uploads, PlacedGrowth(objects', s), slot)
         == Sum(uploads, PlacedGrowth(objects, s)) - At(uploads, PlacedGrowth(objects, s), slot)
  {
    Drop(uploads, PlacedGrowth(objects, s), slot);
    Drop(uploads, PlacedGrowth(objects', s), slot);
    Same(uploads - {slot}, PlacedGrowth(objects', s), PlacedGrowth(objects, s));
  }

  lemma ReserveLoad(t: Tables, c: Limits, slot: Slot, q: Request, s: SourceId)
    requires ReserveObject(t, c, slot, q).Done?
    ensures Load(ReserveObject(t, c, slot, q).tables, s) ==
      Load(t, s) + if q.source == s then SourceGrowth(t.objects, slot, q.size, s) else 0
  {
    Put(t.uploads, PlacedGrowth(t.objects, s), slot, Reservation(t.objects, slot, q));
  }

  lemma CommitLoad(t: Tables, slot: Slot, id: Id, physical: string, actual: nat, s: SourceId)
    requires WellFormed(t) && CommitUpload(t, slot, id, physical, actual).Done? && actual == t.uploads[slot].size
    ensures Load(CommitUpload(t, slot, id, physical, actual).tables, s) <= Load(t, s)
    ensures t.uploads[slot].source == s && (SourceAt(t.objects, slot) == s ==> SizeAt(t.objects, slot) <= actual) ==>
      Load(CommitUpload(t, slot, id, physical, actual).tables, s) == Load(t, s)
  {
    hide ObjectsDistinct, UploadsFit, UploadsDistinct, LinksFit, DeletionsFit;
    var t' := CommitUpload(t, slot, id, physical, actual).tables;
    Put(t.objects, PlacedBytes(s), slot, Promoted(t.objects, slot, t.uploads[slot], physical, actual));
    Drop(t.uploads, PlacedGrowth(t.objects, s), slot);
    PlacedElsewhere(t'.uploads, t.objects, t'.objects, slot, s);
  }

  lemma DeleteLoad(t: Tables, id: Id, s: SourceId)
    requires WellFormed(t) && DeleteObject(t, id).Done?
    ensures Load(DeleteObject(t, id).tables, s) <= Load(t, s)
  {
    var slot := ObjectSlot(t.objects, id);
    Drop(t.objects, PlacedBytes(s), slot);
    PlacedElsewhere(t.uploads, t.objects, t.objects - {slot}, slot, s);
  }

  lemma RotateLoad(t: Tables, id: Id, physical: string, generation: int, s: SourceId)
    ensures Load(After(t, RotatePhysicalKey(t, id, physical, generation)), s) == Load(t, s)
  {
    if ObjectHas(t.objects, id) && RotatePhysicalKey(t, id, physical, generation).Done? {
      var slot := ObjectSlot(t.objects, id);
      var row := t.objects[slot].(physical := physical, generation := generation);
      Put(t.objects, PlacedBytes(s), slot, row);
      PlacedElsewhere(t.uploads, t.objects, t.objects[slot := row], slot, s);
    }
  }

  lemma CancelLoad(t: Tables, id: Id, s: SourceId)
    ensures Load(After(t, CancelUpload(t, id)), s) <= Load(t, s)
  {
    if UploadHas(t.uploads, id) { Drop(t.uploads, PlacedGrowth(t.objects, s), UploadSlot(t.uploads, id)); }
  }

  function OthersGrowth(objects: map<Slot, Object>, b: Id, s: SourceId): (Slot, Upload) -> int {
    (slot: Slot, u: Upload) => if slot.bucket == b then 0 else PlacedGrowth(objects, s)(slot, u)
  }
  lemma RowsElsewhere(objects: map<Slot, Object>, b: Id, slot: Slot)
    ensures var objects' := objects - ObjectSlots(objects, b);
      slot.bucket != b ==> SizeAt(objects', slot) == SizeAt(objects, slot) && SourceAt(objects', slot) == SourceAt(objects, slot)
  {
  }
  lemma FinishLoad(t: Tables, now: int, b: Id, s: SourceId)
    requires FinishBucketDeletion(t, now, b).Done?
    ensures Load(FinishBucketDeletion(t, now, b).tables, s) <= Load(t, s)
  {
    var objects' := t.objects - ObjectSlots(t.objects, b);
    ShareOfSource(t.objects, t.uploads, b, s);
    NonNegative(t.objects, BucketPlacedBytes(b, s));
    forall slot | slot in t.uploads
      ensures OthersGrowth(t.objects, b, s)(slot, t.uploads[slot])
           == if slot in UploadSlots(t.uploads, b) then 0 else PlacedGrowth(objects', s)(slot, t.uploads[slot])
    {
      RowsElsewhere(t.objects, b, slot);
      var u := t.uploads[slot];
      if slot.bucket != b {
        assert SourceGrowth(objects', slot, u.size, s) == SourceGrowth(t.objects, slot, u.size, s);
        assert OthersGrowth(t.objects, b, s)(slot, u) == PlacedGrowth(t.objects, s)(slot, u);
      }
    }
    Keep(t.uploads, UploadSlots(t.uploads, b), PlacedGrowth(objects', s), OthersGrowth(t.objects, b, s));
    Monotone(t.uploads, OthersGrowth(t.objects, b, s), PlacedGrowth(t.objects, s));
  }

  /** Only a reservation on the source raises its load, and only by its own growth there. */
  lemma OnlyReservationsRaiseLoad(t: Tables, c: Limits, op: Op, s: SourceId)
    requires WellFormed(t) && Honest(t, op)
    ensures Load(Next(t, c, op), s) <= Load(t, s) +
      if op.Reserve? && Apply(t, c, op).Done? && op.request.source == s
      then SourceGrowth(t.objects, op.slot, op.request.size, s) else 0
  {
    hide WellFormed, Load, CommitUpload, RotatePhysicalKey, FinishBucketDeletion, SourceGrowth;
    if Apply(t, c, op).Done? {
      match op
      case Reserve(slot, q) => ReserveLoad(t, c, slot, q, s);
      case Cancel(id) => CancelLoad(t, id, s);
      case Commit(slot, id, physical, actual) => HonestCommitLoad(t, slot, id, physical, actual, s);
      case Delete(id) => DeleteLoad(t, id, s);
      case Rotate(id, physical, generation) => RotateLoad(t, id, physical, generation, s);
      case Finish(now, id) => FinishLoad(t, now, id, s);
      case _ => OtherLoad(t, c, op, s);
    }
  }
  lemma HonestCommitLoad(t: Tables, slot: Slot, id: Id, physical: string, actual: nat, s: SourceId)
    requires WellFormed(t) && CommitUpload(t, slot, id, physical, actual).Done? && Honest(t, Commit(slot, id, physical, actual))
    ensures Load(CommitUpload(t, slot, id, physical, actual).tables, s) <= Load(t, s)
  {
    hide WellFormed, Load;
    CommitLoad(t, slot, id, physical, actual, s);
  }
  lemma OtherLoad(t: Tables, c: Limits, op: Op, s: SourceId)
    requires !TouchesRows(op)
    ensures Load(Next(t, c, op), s) == Load(t, s)
  {
    hide Next;
    RowsUntouched(t, c, op);
  }

  // ---------- Reservations stay covered ----------

  lemma PlacedCoveredKept(t: Tables, c: Limits, op: Op, s: SourceId)
    requires WellFormed(t) && PlacedCovered(t, s)
    ensures PlacedCovered(Next(t, c, op), s)
  {
    hide Next, PlacedCovered;
    if !TouchesRows(op) {
      OtherCovered(t, c, op, s);
    } else if op.Reserve? {
      ReservePlaced(t, c, op, s);
    } else if op.Commit? {
      CommitPlaced(t, c, op, s);
    } else {
      RowsShrink(t, c, op);
      Uncovering(t, Next(t, c, op), s);
    }
  }
  lemma OtherCovered(t: Tables, c: Limits, op: Op, s: SourceId)
    requires PlacedCovered(t, s) && !TouchesRows(op)
    ensures PlacedCovered(Next(t, c, op), s)
  {
    hide Next;
    RowsUntouched(t, c, op);
  }
  lemma ReservePlaced(t: Tables, c: Limits, op: Op, s: SourceId)
    requires PlacedCovered(t, s) && op.Reserve?
    ensures PlacedCovered(Next(t, c, op), s)
  {
    hide ReserveRefusal;
  }
  lemma CommitPlaced(t: Tables, c: Limits, op: Op, s: SourceId)
    requires PlacedCovered(t, s) && op.Commit?
    ensures PlacedCovered(Next(t, c, op), s)
  {
    hide ObjectClash;
  }
  lemma Uncovering(t: Tables, t': Tables, s: SourceId)
    requires PlacedCovered(t, s) && Shrinks(t, t')
    ensures PlacedCovered(t', s)
  {
  }

  // ---------- Exactly when the pending uploads can break the capacity ----------

  /** The pending uploads placed on the source can be committed one after the other. */
  ghost predicate PlacedCommittable(t: Tables, s: SourceId) {
    && WellFormed(t) && PlacedCovered(t, s) && IdsFree(t.objects, t.uploads)
    && forall slot :: slot in t.uploads && t.uploads[slot].source == s ==> slot.bucket !in t.deletions
  }

  lemma {:induction false} CommitsNeverExceedLoad(t: Tables, c: Limits, ops: seq<Op>, s: SourceId)
    requires WellFormed(t) && PlacedCovered(t, s) && Commits(ops) && HonestRun(t, c, ops)
    ensures var t' := Run(t, c, ops); SourceUsed(t', s) + SourceReserved(t', s) <= Load(t, s)
    decreases ops
  {
    hide WellFormed, PlacedCovered, Load, SourceUsed, SourceReserved, Next;
    if ops == [] {
      CheckSeesLoad(t, s);
    } else {
      StepKeepsWellFormed(t, c, ops[0]);
      PlacedCoveredKept(t, c, ops[0], s);
      OnlyReservationsRaiseLoad(t, c, ops[0], s);
      CommitsNeverExceedLoad(Next(t, c, ops[0]), c, ops[1..], s);
    }
  }

  /** Committing one upload that does not shrink an object on its own source keeps the load. */
  lemma CommitPlacedOne(t: Tables, c: Limits, s: SourceId, slot: Slot) returns (op: Op, t': Tables)
    requires PlacedCommittable(t, s) && slot in t.uploads && t.uploads[slot].source == s
    requires SourceAt(t.objects, slot) == s ==> SizeAt(t.objects, slot) <= t.uploads[slot].size
    ensures op.Commit? && Honest(t, op) && t' == Next(t, c, op)
    ensures PlacedCommittable(t', s) && t'.uploads == t.uploads - {slot} && Load(t', s) == Load(t, s)
  {
    hide WellFormed, Load, CommitUpload, IdsFree, PlacedCovered;
    op, t' := CommitAny(t, c, slot);
    PlacedCoveredKept(t, c, op, s);
    CommitLoad(t, slot, op.id, op.physical, op.actual, s);
  }

  lemma {:induction false} CommitsReachLoad(t: Tables, c: Limits, s: SourceId) returns (ops: seq<Op>)
    requires PlacedCommittable(t, s)
    ensures Commits(ops) && HonestRun(t, c, ops)
    ensures var t' := Run(t, c, ops); SourceUsed(t', s) + SourceReserved(t', s) == Load(t, s)
    decreases |t.uploads|
  {
    hide PlacedCommittable, Load, SourceUsed, SourceReserved;
    if slot :| slot in t.uploads && t.uploads[slot].source == s
               && (SourceAt(t.objects, slot) == s ==> SizeAt(t.objects, slot) <= t.uploads[slot].size) {
      var op, t' := CommitPlacedOne(t, c, s, slot);
      assert (t.uploads - {slot}).Keys == t.uploads.Keys - {slot};
      var rest := CommitsReachLoad(t', c, s);
      FirstThen(t, c, op, rest);
      ops := [op] + rest;
    } else {
      ops := [];
      OnlyShrinking(t, s);
    }
  }
  lemma OnlyShrinking(t: Tables, s: SourceId)
    requires PlacedCommittable(t, s)
    requires forall slot :: slot in t.uploads && t.uploads[slot].source == s ==>
      SourceAt(t.objects, slot) == s && t.uploads[slot].size < SizeAt(t.objects, slot)
    ensures SourceUsed(t, s) + SourceReserved(t, s) == Load(t, s)
  {
    hide WellFormed;
    CheckSeesLoad(t, s);
  }

  /** No order of commits can take the source above `capacity` exactly when its load is within
      it. The store checks used plus reserved instead. */
  lemma LoadIsSafeIff(t: Tables, c: Limits, s: SourceId, capacity: int)
    requires PlacedCommittable(t, s)
    ensures Load(t, s) <= capacity <==>
      forall ops :: Commits(ops) && HonestRun(t, c, ops) ==>
        SourceUsed(Run(t, c, ops), s) + SourceReserved(Run(t, c, ops), s) <= capacity
  {
    forall ops | Commits(ops) && HonestRun(t, c, ops)
      ensures SourceUsed(Run(t, c, ops), s) + SourceReserved(Run(t, c, ops), s) <= Load(t, s)
    {
      CommitsNeverExceedLoad(t, c, ops, s);
    }
    var worst := CommitsReachLoad(t, c, s);
  }

  /** In every run that gives each upload an id of its own, all that is pending on a source can
      be committed unless a bucket of it is being deleted. */
  lemma {:induction false} RunsStayPlaced(t: Tables, c: Limits, ops: seq<Op>, used: set<Id>, s: SourceId)
    requires WellFormed(t) && PlacedCovered(t, s) && IdsApart(t.objects, t.uploads, used) && FreshRun(t, c, ops, used)
    ensures var t' := Run(t, c, ops);
      (forall slot :: slot in t'.uploads && t'.uploads[slot].source == s ==> slot.bucket !in t'.deletions) ==> PlacedCommittable(t', s)
    decreases ops
  {
    hide PlacedCovered, IdsFree, IdsApart, Next;
    if ops == [] {
      ApartIsFree(t.objects, t.uploads, used);
    } else {
      StepKeepsWellFormed(t, c, ops[0]);
      PlacedCoveredKept(t, c, ops[0], s);
      StepKeepsApart(t, c, ops[0], used);
      RunsStayPlaced(Next(t, c, ops[0]), c, ops[1..], IdsAfter(ops[0], used), s);
    }
  }
}

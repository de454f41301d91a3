/**
 What the reservation scheme does guarantee about quotas, capacities and object counts over
 whole runs, and exactly where "used plus reserved never exceeds the quota" fails.

 A pending replacement reserves only its growth over the object it replaces. If that object
 is deleted meanwhile, the reservation is too small by its size, and later reservations are
 let in against room that the pending commit will take.
 */
module Quota {
  import opened Sums
  import opened Ledger
  import opened Store

  /** The bytes a pending upload will add to its bucket if it commits now. */
  function GrowthNow(objects: map<Slot, Object>, b: Id): (Slot, Upload) -> int {
    (s: Slot, u: Upload) => if s.bucket == b then Growth(objects, s, u.size) else 0
  }
  /** Used bytes plus all that the pending uploads would add. */
  ghost function Exposure(t: Tables, b: Id): int {
    Used(t, b) + Sum(t.uploads, GrowthNow(t.objects, b))
  }

  // ---------- Steps and runs ----------

  /** The service commits an upload with the size it declared, having checked it twice. */
  ghost predicate Honest(t: Tables, op: Op) {
    op.Commit? && op.slot in t.uploads ==> op.actual == t.uploads[op.slot].size
  }
  /** No object is deleted while an upload of its key is pending. */
  ghost predicate Calm(t: Tables, op: Op) {
    op.Delete? && ObjectHas(t.objects, op.id) ==> ObjectSlot(t.objects, op.id) !in t.uploads
  }
  ghost predicate HonestRun(t: Tables, c: Limits, ops: seq<Op>)
    decreases ops
  {
    ops == [] || (Honest(t, ops[0]) && HonestRun(Next(t, c, ops[0]), c, ops[1..]))
  }
  ghost predicate CalmRun(t: Tables, c: Limits, ops: seq<Op>)
    decreases ops
  {
    ops == [] || (Calm(t, ops[0]) && CalmRun(Next(t, c, ops[0]), c, ops[1..]))
  }

  // ---------- Runs without a delete under a pending replacement ----------

  /** Every reservation is exactly what its upload would add now. */
  ghost predicate Tight(objects: map<Slot, Object>, uploads: map<Slot, Upload>) {
    forall s :: s in uploads ==>
      && uploads[s].reserved == Growth(objects, s, uploads[s].size)
      && uploads[s].sourceReserved == SourceGrowth(objects, s, uploads[s].size, uploads[s].source)
  }
  ghost predicate WithinQuotas(t: Tables) {
    forall b :: b in t.buckets && !t.buckets[b].unlimited ==> Used(t, b) + Reserved(t, b) <= t.buckets[b].quota
  }
  ghost predicate WithinCapacities(t: Tables) {
    forall s :: s in t.sources && !t.sources[s].unlimited ==> SourceUsed(t, s) + SourceReserved(t, s) <= t.sources[s].capacity
  }

  predicate TouchesRows(op: Op) {
    op.Reserve? || op.Cancel? || op.Commit? || op.Delete? || op.Rotate? || op.Finish?
  }
  lemma RowsUntouched(t: Tables, c: Limits, op: Op)
    requires !TouchesRows(op)
    ensures Next(t, c, op).objects == t.objects && Next(t, c, op).uploads == t.uploads
  {
  }

  lemma TightObject(objects: map<Slot, Object>, uploads: map<Slot, Upload>, objects': map<Slot, Object>, slot: Slot)
    requires Tight(objects, uploads) && slot !in uploads
    requires forall s :: s != slot ==> (s in objects <==> s in objects') && (s in objects ==> objects'[s] == objects[s])
    ensures Tight(objects', uploads)
  {
  }

  lemma TightRotate(t: Tables, id: Id, physical: string, generation: int)
    requires Tight(t.objects, t.uploads)
    ensures Tight(After(t, RotatePhysicalKey(t, id, physical, generation)).objects, t.uploads)
  {
    if ObjectHas(t.objects, id) {
      var slot := ObjectSlot(t.objects, id);
      var objects' := t.objects[slot := t.objects[slot].(physical := physical, generation := generation)];
      assert forall s :: SizeAt(objects', s) == SizeAt(t.objects, s) && SourceAt(objects', s) == SourceAt(t.objects, s);
    }
  }

  lemma TightFinish(t: Tables, b: Id)
    requires Tight(t.objects, t.uploads)
    ensures Tight(t.objects - ObjectSlots(t.objects, b), t.uploads - UploadSlots(t.uploads, b))
  {
    forall s: Slot | s.bucket != b ensures SizeAt(t.objects - ObjectSlots(t.objects, b), s) == SizeAt(t.objects, s)
      && SourceAt(t.objects - ObjectSlots(t.objects, b), s) == SourceAt(t.objects, s) {
    }
  }

  lemma TightKept(t: Tables, c: Limits, op: Op)
    requires Tight(t.objects, t.uploads) && Calm(t, op)
    ensures Tight(Next(t, c, op).objects, Next(t, c, op).uploads)
  {
    hide ReserveObject;
    if Apply(t, c, op).Done? {
      match op
      case Commit(slot, id, physical, actual) =>
        TightObject(t.objects, t.uploads - {slot}, Next(t, c, op).objects, slot);
      case Delete(id) => TightObject(t.objects, t.uploads, Next(t, c, op).objects, ObjectSlot(t.objects, id));
      case Rotate(id, physical, generation) => TightRotate(t, id, physical, generation);
      case Finish(_, id) => TightFinish(t, id);
      case Reserve(slot, q) => TightReserve(t, c, slot, q);
      case Cancel(id) => TightCancel(t, id);
      case _ => RowsUntouched(t, c, op);
    }
  }
  lemma TightReserve(t: Tables, c: Limits, slot: Slot, q: Request)
    requires Tight(t.objects, t.uploads) && ReserveObject(t, c, slot, q).Done?
    ensures ReserveObject(t, c, slot, q).tables.objects == t.objects
    ensures Tight(t.objects, ReserveObject(t, c, slot, q).tables.uploads)
  {
    hide ReserveRefusal;
  }
  lemma TightCancel(t: Tables, id: Id)
    requires Tight(t.objects, t.uploads) && CancelUpload(t, id).Done?
    ensures Tight(t.objects, CancelUpload(t, id).tables.uploads)
  {
  }

  ghost predicate Lower(t: Tables, t': Tables, b: Id) {
    Used(t', b) + Reserved(t', b) <= Used(t, b) + Reserved(t, b)
  }
  ghost predicate LowerSource(t: Tables, t': Tables, s: Id) {
    SourceUsed(t', s) + SourceReserved(t', s) <= SourceUsed(t, s) + SourceReserved(t, s)
  }
  lemma LowerWithin(t: Tables, t': Tables)
    requires WithinQuotas(t) && WithinCapacities(t)
    requires forall b :: b in t'.buckets ==> b in t.buckets && t'.buckets[b] == t.buckets[b] && Lower(t, t', b)
    requires t'.sources == t.sources && forall s :: LowerSource(t, t', s)
    ensures WithinQuotas(t') && WithinCapacities(t')
  {
    assert forall s :: s in t.sources ==> LowerSource(t, t', s);
  }

  lemma CommitWithin(t: Tables, slot: Slot, id: Id, physical: string, actual: nat)
    requires WellFormed(t) && Tight(t.objects, t.uploads) && CommitUpload(t, slot, id, physical, actual).Done?
    requires actual == t.uploads[slot].size
    ensures var t' := CommitUpload(t, slot, id, physical, actual).tables;
      (forall b :: Lower(t, t', b)) && (forall s :: LowerSource(t, t', s))
  {
    ObjectPut(t.objects, slot, Promoted(t.objects, slot, t.uploads[slot], physical, actual));
    UploadDrop(t.uploads, slot);
  }

  lemma ReserveWithin(t: Tables, c: Limits, slot: Slot, q: Request)
    requires WithinQuotas(t) && WithinCapacities(t) && "" !in t.sources
    requires ReserveObject(t, c, slot, q).Done?
    ensures var t' := ReserveObject(t, c, slot, q).tables; WithinQuotas(t') && WithinCapacities(t')
  {
    UploadPut(t.uploads, slot, Reservation(t.objects, slot, q));
  }

  lemma CancelWithin(t: Tables, id: Id)
    requires CancelUpload(t, id).Done?
    ensures var t' := CancelUpload(t, id).tables;
      (forall b :: Lower(t, t', b)) && (forall s :: LowerSource(t, t', s))
  {
    UploadDrop(t.uploads, UploadSlot(t.uploads, id));
  }

  lemma DeleteWithin(t: Tables, id: Id)
    requires DeleteObject(t, id).Done?
    ensures var t' := DeleteObject(t, id).tables;
      (forall b :: Lower(t, t', b)) && (forall s :: LowerSource(t, t', s))
  {
    ObjectDrop(t.objects, ObjectSlot(t.objects, id));
  }

  lemma RotateWithin(t: Tables, id: Id, physical: string, generation: int)
    requires ObjectHas(t.objects, id) && RotatePhysicalKey(t, id, physical, generation).Done?
    ensures var t' := RotatePhysicalKey(t, id, physical, generation).tables;
      && (forall b :: Lower(t, t', b)) && (forall s :: LowerSource(t, t', s))
      && (forall b :: Used(t', b) == Used(t, b))
  {
    var slot := ObjectSlot(t.objects, id);
    ObjectPut(t.objects, slot, t.objects[slot].(physical := physical, generation := generation));
  }

  lemma FinishWithin(t: Tables, now: int, id: Id)
    requires FinishBucketDeletion(t, now, id).Done?
    ensures var t' := FinishBucketDeletion(t, now, id).tables;
      (forall b :: b != id ==> Lower(t, t', b)) && (forall s :: LowerSource(t, t', s))
  {
    var t' := FinishBucketDeletion(t, now, id).tables;
    forall b | b != id ensures Lower(t, t', b) {
      OtherBuckets(t.objects, t.uploads, id, b);
    }
    forall s ensures LowerSource(t, t', s) {
      ShareOfSource(t.objects, t.uploads, id, s);
      NonNegative(t.objects, BucketPlacedBytes(id, s));
      NonNegative(t.uploads, BucketPlacedUploads(id, s));
    }
  }

  lemma AdminWithin(t: Tables, c: Limits, op: Op)
    requires WellFormed(t) && WithinQuotas(t) && WithinCapacities(t) && !TouchesRows(op)
    ensures WithinQuotas(Next(t, c, op)) && WithinCapacities(Next(t, c, op))
  {
    hide WithinQuotas, WithinCapacities, WellFormed, CreateBucket, UpdateBucket, AddSource, UpdateSource;
    match op
    case NewBucket(id, b, told) => NewBucketWithin(t, c, id, b, told);
    case EditBucket(id, b, told) => EditBucketWithin(t, c, id, b, told);
    case NewSource(id, s) => NewSourceWithin(t, id, s);
    case EditSource(id, s) => EditSourceWithin(t, id, s);
    case _ => OtherWithin(t, c, op);
  }
  lemma NewBucketWithin(t: Tables, c: Limits, id: Id, b: Bucket, told: bool)
    requires WellFormed(t) && WithinQuotas(t) && WithinCapacities(t)
    ensures var t' := After(t, CreateBucket(t, c, id, b, told)); WithinQuotas(t') && WithinCapacities(t')
  {
    hide WellFormed, Sum;
    NoRowsNoBytes(t, id);
  }
  lemma EditBucketWithin(t: Tables, c: Limits, id: Id, b: Bucket, told: bool)
    requires WithinQuotas(t) && WithinCapacities(t)
    ensures var t' := After(t, UpdateBucket(t, c, id, b, told)); WithinQuotas(t') && WithinCapacities(t')
  {
    hide Sum;
  }
  lemma NewSourceWithin(t: Tables, id: SourceId, s: Source)
    requires WellFormed(t) && WithinQuotas(t) && WithinCapacities(t)
    ensures var t' := After(t, AddSource(t, id, s)); WithinQuotas(t') && WithinCapacities(t')
  {
    hide WellFormed, Sum;
    NoRowsNoBytes(t, id);
  }
  lemma EditSourceWithin(t: Tables, id: SourceId, s: Source)
    requires WithinQuotas(t) && WithinCapacities(t)
    ensures var t' := After(t, UpdateSource(t, id, s)); WithinQuotas(t') && WithinCapacities(t')
  {
    hide Sum;
  }
  lemma OtherWithin(t: Tables, c: Limits, op: Op)
    requires WithinQuotas(t) && WithinCapacities(t)
    requires !TouchesRows(op) && !op.NewBucket? && !op.EditBucket? && !op.NewSource? && !op.EditSource?
    ensures WithinQuotas(Next(t, c, op)) && WithinCapacities(Next(t, c, op))
  {
    hide Next, Sum;
    RowsUntouched(t, c, op);
    LimitsUntouched(t, c, op);
  }
  lemma LimitsUntouched(t: Tables, c: Limits, op: Op)
    requires !TouchesRows(op) && !op.NewBucket? && !op.EditBucket? && !op.NewSource? && !op.EditSource?
    ensures Next(t, c, op).buckets == t.buckets && Next(t, c, op).sources == t.sources
  {
  }

  lemma TransferWithin(t: Tables, c: Limits, op: Op)
    requires WellFormed(t) && Tight(t.objects, t.uploads) && WithinQuotas(t) && WithinCapacities(t)
    requires Honest(t, op) && Calm(t, op) && (op.Cancel? || op.Commit? || op.Delete?) && Apply(t, c, op).Done?
    ensures WithinQuotas(Next(t, c, op)) && WithinCapacities(Next(t, c, op))
  {
    match op {
      case Cancel(id) => CancelWithin(t, id);
      case Commit(slot, id, physical, actual) => CommitWithin(t, slot, id, physical, actual);
      case Delete(id) => DeleteWithin(t, id);
    }
    LowerWithin(t, Next(t, c, op));
  }

  lemma StepWithin(t: Tables, c: Limits, op: Op)
    requires WellFormed(t) && Tight(t.objects, t.uploads) && WithinQuotas(t) && WithinCapacities(t)
    requires Honest(t, op) && Calm(t, op)
    ensures WithinQuotas(Next(t, c, op)) && WithinCapacities(Next(t, c, op))
  {
    if Apply(t, c, op).Done? {
      match op
      case Reserve(slot, q) => ReserveWithin(t, c, slot, q);
      case Rotate(id, physical, generation) =>
        if ObjectHas(t.objects, id) {
          RotateWithin(t, id, physical, generation);
          LowerWithin(t, Next(t, c, op));
        }
      case Finish(now, id) =>
        FinishWithin(t, now, id);
        LowerWithin(t, Next(t, c, op));
      case Cancel(_) => TransferWithin(t, c, op);
      case Commit(_, _, _, _) => TransferWithin(t, c, op);
      case Delete(_) => TransferWithin(t, c, op);
      case _ => AdminWithin(t, c, op);
    }
  }

  /** In a run in which no object is deleted under a pending upload of its key, no limited
      bucket ever exceeds its quota and no limited source its capacity. */
  lemma {:induction false} CalmRunsStayWithin(t: Tables, c: Limits, ops: seq<Op>)
    requires WellFormed(t) && Tight(t.objects, t.uploads) && WithinQuotas(t) && WithinCapacities(t)
    requires HonestRun(t, c, ops) && CalmRun(t, c, ops)
    ensures WithinQuotas(Run(t, c, ops)) && WithinCapacities(Run(t, c, ops))
    decreases ops
  {
    if ops != [] {
      StepKeepsWellFormed(t, c, ops[0]);
      TightKept(t, c, ops[0]);
      StepWithin(t, c, ops[0]);
      CalmRunsStayWithin(Next(t, c, ops[0]), c, ops[1..]);
    }
  }

  // ---------- All runs: exposure ----------

  /** No reservation is more than its upload would add now. */
  ghost predicate Covered(t: Tables, b: Id) {
    forall s :: s in t.uploads && s.bucket == b ==> t.uploads[s].reserved <= Growth(t.objects, s, t.uploads[s].size)
  }

  /** What the quota check sees never exceeds the exposure, and sees all of it exactly when
      every reservation of the bucket is still what its upload would add. */
  lemma CheckSeesExposure(t: Tables, b: Id)
    requires Covered(t, b)
    ensures Used(t, b) + Reserved(t, b) <= Exposure(t, b)
    ensures Used(t, b) + Reserved(t, b) == Exposure(t, b) <==>
      forall s :: s in t.uploads && s.bucket == b ==> t.uploads[s].reserved == Growth(t.objects, s, t.uploads[s].size)
  {
    Monotone(t.uploads, UploadBytes(b), GrowthNow(t.objects, b));
    if Used(t, b) + Reserved(t, b) == Exposure(t, b) {
      Strict(t.uploads, UploadBytes(b), GrowthNow(t.objects, b));
      forall s | s in t.uploads && s.bucket == b ensures t.uploads[s].reserved == Growth(t.objects, s, t.uploads[s].size) {
        assert UploadBytes(b)(s, t.uploads[s]) == GrowthNow(t.objects, b)(s, t.uploads[s]);
      }
    } else if forall s :: s in t.uploads && s.bucket == b ==> t.uploads[s].reserved == Growth(t.objects, s, t.uploads[s].size) {
      Same(t.uploads, UploadBytes(b), GrowthNow(t.objects, b));
    }
  }

  /** When only the row at `slot` changes, only the upload of that key can weigh differently. */
  lemma GrowthElsewhere(uploads: map<Slot, Upload>, objects: map<Slot, Object>, objects': map<Slot, Object>, slot: Slot, b: Id)
    requires forall s :: s != slot ==> SizeAt(objects', s) == SizeAt(objects, s)
    ensures Sum(uploads, GrowthNow(objects', b)) - At(uploads, GrowthNow(objects', b), slot)
         == Sum(uploads, GrowthNow(objects, b)) - At(uploads, GrowthNow(objects, b), slot)
  {
    Drop(uploads, GrowthNow(objects, b), slot);
    Drop(uploads, GrowthNow(objects', b), slot);
    Same(uploads - {slot}, GrowthNow(objects', b), GrowthNow(objects, b));
  }

  lemma ReserveExposure(t: Tables, c: Limits, slot: Slot, q: Request, b: Id)
    requires ReserveObject(t, c, slot, q).Done?
    ensures var t' := ReserveObject(t, c, slot, q).tables;
      Exposure(t', b) == Exposure(t, b) + if slot.bucket == b then Growth(t.objects, slot, q.size) else 0
  {
    Put(t.uploads, GrowthNow(t.objects, b), slot, Reservation(t.objects, slot, q));
  }

  lemma CommitExposure(t: Tables, slot: Slot, id: Id, physical: string, actual: nat, b: Id)
    requires WellFormed(t) && CommitUpload(t, slot, id, physical, actual).Done? && actual == t.uploads[slot].size
    ensures Exposure(CommitUpload(t, slot, id, physical, actual).tables, b) <= Exposure(t, b)
    ensures slot.bucket == b && SizeAt(t.objects, slot) <= actual ==>
      Exposure(CommitUpload(t, slot, id, physical, actual).tables, b) == Exposure(t, b)
  {
    var t' := CommitUpload(t, slot, id, physical, actual).tables;
    ObjectPut(t.objects, slot, Promoted(t.objects, slot, t.uploads[slot], physical, actual));
    Drop(t.uploads, GrowthNow(t.objects, b), slot);
    GrowthElsewhere(t'.uploads, t.objects, t'.objects, slot, b);
  }

  lemma DeleteExposure(t: Tables, id: Id, b: Id)
    requires WellFormed(t) && DeleteObject(t, id).Done?
    ensures Exposure(DeleteObject(t, id).tables, b) <= Exposure(t, b)
  {
    var slot := ObjectSlot(t.objects, id);
    ObjectDrop(t.objects, slot);
    GrowthElsewhere(t.uploads, t.objects, t.objects - {slot}, slot, b);
  }

  lemma RotateExposure(t: Tables, id: Id, physical: string, generation: int, b: Id)
    ensures Exposure(After(t, RotatePhysicalKey(t, id, physical, generation)), b) == Exposure(t, b)
  {
    if ObjectHas(t.objects, id) && RotatePhysicalKey(t, id, physical, generation).Done? {
      var slot := ObjectSlot(t.objects, id);
      var objects' := t.objects[slot := t.objects[slot].(physical := physical, generation := generation)];
      RotateWithin(t, id, physical, generation);
      GrowthElsewhere(t.uploads, t.objects, objects', slot, b);
      assert SizeAt(objects', slot) == SizeAt(t.objects, slot);
    }
  }

  lemma CancelExposure(t: Tables, id: Id, b: Id)
    ensures Exposure(After(t, CancelUpload(t, id)), b) <= Exposure(t, b)
  {
    if UploadHas(t.uploads, id) {
      Drop(t.uploads, GrowthNow(t.objects, b), UploadSlot(t.uploads, id));
    }
  }

  lemma FinishExposure(t: Tables, now: int, id: Id, b: Id)
    requires FinishBucketDeletion(t, now, id).Done?
    ensures Exposure(FinishBucketDeletion(t, now, id).tables, b) <= Exposure(t, b)
  {
    var objects', uploads' := t.objects - ObjectSlots(t.objects, id), t.uploads - UploadSlots(t.uploads, id);
    if b == id {
      Zero(objects', ObjectBytes(b));
      Zero(uploads', GrowthNow(objects', b));
      ObjectsWeigh(t.objects, b, "");
      NonNegative(t.uploads, GrowthNow(t.objects, b));
    } else {
      OtherBuckets(t.objects, t.uploads, id, b);
      Keep(t.uploads, UploadSlots(t.uploads, id), GrowthNow(objects', b), GrowthNow(t.objects, b));
    }
  }

  /** Only a reservation raises the exposure of a bucket, and only by its own growth. */
  lemma OnlyReservationsRaiseExposure(t: Tables, c: Limits, op: Op, b: Id)
    requires WellFormed(t) && Honest(t, op)
    ensures Exposure(Next(t, c, op), b) <= Exposure(t, b) +
      if op.Reserve? && Apply(t, c, op).Done? && op.slot.bucket == b then Growth(t.objects, op.slot, op.request.size) else 0
  {
    hide Exposure, WellFormed, RotatePhysicalKey, FinishBucketDeletion;
    if Apply(t, c, op).Done? {
      match op
      case Reserve(slot, q) => ReserveExposure(t, c, slot, q, b);
      case Cancel(id) => CancelExposure(t, id, b);
      case Commit(slot, id, physical, actual) => CommitExposure(t, slot, id, physical, actual, b);
      case Delete(id) => DeleteExposure(t, id, b);
      case Rotate(id, physical, generation) => RotateExposure(t, id, physical, generation, b);
      case Finish(now, id) => FinishExposure(t, now, id, b);
      case _ => OtherExposure(t, c, op, b);
    }
  }
  lemma OtherExposure(t: Tables, c: Limits, op: Op, b: Id)
    requires !TouchesRows(op)
    ensures Exposure(Next(t, c, op), b) == Exposure(t, b)
  {
    hide Next;
    RowsUntouched(t, c, op);
  }

  ghost predicate LimitedTo(t: Tables, b: Id, most: int) {
    b in t.buckets ==> !t.buckets[b].unlimited && t.buckets[b].quota <= most
  }
  ghost predicate LimitedThroughout(t: Tables, c: Limits, ops: seq<Op>, b: Id, most: int)
    decreases ops
  {
    LimitedTo(t, b, most) && (ops == [] || LimitedThroughout(Next(t, c, ops[0]), c, ops[1..], b, most))
  }

  /** What every run keeps of a bucket whose quota never exceeds `most`. */
  ghost predicate Contained(t: Tables, c: Limits, b: Id, most: nat) {
    && Covered(t, b)
    && (forall s :: s in t.uploads && s.bucket == b ==> t.uploads[s].size <= most)
    && Pending(t, b) <= c.maxPending
    && Exposure(t, b) <= c.maxPending * most
  }

  lemma PendingMoves(t: Tables, c: Limits, op: Op, b: Id)
    ensures op.Reserve? && Apply(t, c, op).Done? ==> Pending(Next(t, c, op), b) == Pending(t, b) + if op.slot.bucket == b then 1 else 0
    ensures !(op.Reserve? && Apply(t, c, op).Done?) ==> Pending(Next(t, c, op), b) <= Pending(t, b)
  {
    hide ReserveObject, DeleteObject, RotatePhysicalKey, LinksBut, GrantsBut, ConfirmationsBut, BucketObjectIds;
    if Apply(t, c, op).Done? {
      match op
      case Reserve(slot, q) => PendingReserve(t, c, slot, q, b);
      case Cancel(id) => Drop(t.uploads, UploadRows(b), UploadSlot(t.uploads, id));
      case Commit(slot, _, _, _) => Drop(t.uploads, UploadRows(b), slot);
      case Finish(_, id) => PendingFinish(t, id, b);
      case Delete(id) => DeleteLeavesUploads(t, id);
      case Rotate(id, physical, generation) => RotateLeavesUploads(t, id, physical, generation);
      case _ => RowsUntouched(t, c, op);
    }
  }
  lemma PendingReserve(t: Tables, c: Limits, slot: Slot, q: Request, b: Id)
    requires ReserveObject(t, c, slot, q).Done?
    ensures Pending(ReserveObject(t, c, slot, q).tables, b) == Pending(t, b) + if slot.bucket == b then 1 else 0
  {
    Put(t.uploads, UploadRows(b), slot, Reservation(t.objects, slot, q));
  }
  lemma DeleteLeavesUploads(t: Tables, id: Id)
    ensures After(t, DeleteObject(t, id)).uploads == t.uploads
  {
  }
  lemma RotateLeavesUploads(t: Tables, id: Id, physical: string, generation: int)
    ensures After(t, RotatePhysicalKey(t, id, physical, generation)).uploads == t.uploads
  {
  }
  lemma PendingFinish(t: Tables, id: Id, b: Id)
    ensures Sum(t.uploads - UploadSlots(t.uploads, id), UploadRows(b)) <= Pending(t, b)
  {
    if b == id {
      Zero(t.uploads - UploadSlots(t.uploads, id), UploadRows(b));
      NonNegative(t.uploads, UploadRows(b));
    } else {
      Keep(t.uploads, UploadSlots(t.uploads, id), UploadRows(b), UploadRows(b));
    }
  }

  lemma CoveredShrinks(t: Tables, t': Tables, b: Id)
    requires Covered(t, b)
    requires forall s :: s in t'.uploads ==>
      s in t.uploads && t'.uploads[s] == t.uploads[s] && SizeAt(t'.objects, s) <= SizeAt(t.objects, s)
    ensures Covered(t', b)
  {
  }

  lemma SizesShrink(t: Tables, c: Limits, op: Op)
    requires op.Delete? || op.Rotate? || op.Finish?
    ensures forall s :: SizeAt(Next(t, c, op).objects, s) <= SizeAt(t.objects, s)
  {
    hide Next;
    RowsShrink(t, c, op);
  }

  lemma UploadsShrink(t: Tables, c: Limits, op: Op)
    requires !op.Reserve?
    ensures forall s :: s in Next(t, c, op).uploads ==> s in t.uploads && Next(t, c, op).uploads[s] == t.uploads[s]
    ensures op.Commit? && Apply(t, c, op).Done? ==>
      && op.slot !in Next(t, c, op).uploads
      && forall s :: s != op.slot ==> SizeAt(Next(t, c, op).objects, s) == SizeAt(t.objects, s)
    ensures op.Cancel? ==> Next(t, c, op).objects == t.objects
  {
    hide Next, SizeAt;
    if !TouchesRows(op) {
      RowsUntouched(t, c, op);
    } else if op.Commit? {
      CommitShrinks(t, c, op);
    } else {
      RowsShrink(t, c, op);
    }
  }
  lemma CommitShrinks(t: Tables, c: Limits, op: Op)
    requires op.Commit?
    ensures forall s :: s in Next(t, c, op).uploads ==> s in t.uploads && Next(t, c, op).uploads[s] == t.uploads[s]
    ensures Apply(t, c, op).Done? ==> op.slot !in Next(t, c, op).uploads
    ensures forall s :: s != op.slot ==> SizeAt(Next(t, c, op).objects, s) == SizeAt(t.objects, s)
  {
    hide ObjectClash;
  }
  lemma RowsShrink(t: Tables, c: Limits, op: Op)
    requires op.Cancel? || op.Delete? || op.Rotate? || op.Finish?
    ensures Shrinks(t, Next(t, c, op))
    ensures op.Cancel? ==> Next(t, c, op).objects == t.objects
  {
    hide Shrinks, CancelUpload, DeleteObject, RotatePhysicalKey, FinishBucketDeletion;
    match op
    case Cancel(id) => CancelShrinks(t, id);
    case Delete(id) => DeleteShrinks(t, id);
    case Rotate(id, physical, generation) => RotateShrinks(t, id, physical, generation);
    case Finish(now, id) => FinishShrinks(t, now, id);
  }
  /** No row is added, and none changed but in its key and generation. */
  ghost predicate Shrinks(t: Tables, t': Tables) {
    && (forall s :: s in t'.uploads ==> s in t.uploads && t'.uploads[s] == t.uploads[s])
    && (forall s :: s in t'.objects ==>
          && s in t.objects
          && t'.objects[s] == t.objects[s].(physical := t'.objects[s].physical, generation := t'.objects[s].generation))
  }
  lemma CancelShrinks(t: Tables, id: Id)
    ensures var t' := After(t, CancelUpload(t, id)); Shrinks(t, t') && t'.objects == t.objects
  {
  }
  lemma DeleteShrinks(t: Tables, id: Id)
    ensures Shrinks(t, After(t, DeleteObject(t, id)))
  {
    hide LinksBut;
  }
  lemma RotateShrinks(t: Tables, id: Id, physical: string, generation: int)
    ensures Shrinks(t, After(t, RotatePhysicalKey(t, id, physical, generation)))
  {
    hide ObjectClash;
  }
  lemma FinishShrinks(t: Tables, now: int, b: Id)
    ensures Shrinks(t, After(t, FinishBucketDeletion(t, now, b)))
  {
    hide LinksBut, GrantsBut, ConfirmationsBut, BucketObjectIds;
  }

  lemma CoveredKept(t: Tables, c: Limits, op: Op, b: Id)
    requires Covered(t, b)
    ensures Covered(Next(t, c, op), b)
  {
    if op.Reserve? {
      ReserveCovered(t, c, op.slot, op.request, b);
    } else {
      UploadsShrink(t, c, op);
      if op.Delete? || op.Rotate? || op.Finish? {
        SizesShrink(t, c, op);
      } else if !TouchesRows(op) {
        RowsUntouched(t, c, op);
      }
      CoveredShrinks(t, Next(t, c, op), b);
    }
  }
  lemma ReserveCovered(t: Tables, c: Limits, slot: Slot, q: Request, b: Id)
    requires Covered(t, b)
    ensures Covered(After(t, ReserveObject(t, c, slot, q)), b)
  {
  }

  lemma ReserveContained(t: Tables, c: Limits, slot: Slot, q: Request, most: nat)
    requires WellFormed(t) && Contained(t, c, slot.bucket, most) && LimitedTo(t, slot.bucket, most)
    requires ReserveObject(t, c, slot, q).Done?
    ensures q.size <= most
    ensures Exposure(t, slot.bucket) + Growth(t.objects, slot, q.size) <= c.maxPending * most
  {
    var b := slot.bucket;
    NeverClamped(t, slot);
    ObjectsWeigh(t.objects, b, "");
    UploadsWeigh(t.uploads, b, "");
    GrowthAtMostEach(t, b, most);
    OneMore(Pending(t, b), 1, most);
    AtLeast(Pending(t, b) + 1, c.maxPending, most);
  }
  lemma GrowthAtMostEach(t: Tables, b: Id, most: nat)
    requires forall s :: s in t.uploads && s.bucket == b ==> t.uploads[s].size <= most
    ensures Sum(t.uploads, GrowthNow(t.objects, b)) <= Pending(t, b) * most
  {
    forall s | s in t.uploads && s.bucket == b ensures GrowthNow(t.objects, b)(s, t.uploads[s]) <= most {
      assert t.uploads[s].size <= most;
    }
    AtMostEach(t.uploads, GrowthNow(t.objects, b), UploadRows(b), most);
  }
  lemma AtLeast(n: int, m: int, each: nat)
    requires n <= m
    ensures n * each <= m * each
  {
  }

  lemma SizesKept(t: Tables, c: Limits, op: Op, b: Id, most: nat)
    requires forall s :: s in t.uploads && s.bucket == b ==> t.uploads[s].size <= most
    requires op.Reserve? && Apply(t, c, op).Done? && op.slot.bucket == b ==> op.request.size <= most
    ensures forall s :: s in Next(t, c, op).uploads && s.bucket == b ==> Next(t, c, op).uploads[s].size <= most
  {
  }

  lemma StepContained(t: Tables, c: Limits, op: Op, b: Id, most: nat)
    requires WellFormed(t) && Honest(t, op) && Contained(t, c, b, most) && LimitedTo(t, b, most)
    ensures Contained(Next(t, c, op), c, b, most)
  {
    CoveredKept(t, c, op, b);
    PendingMoves(t, c, op, b);
    OnlyReservationsRaiseExposure(t, c, op, b);
    if op.Reserve? && Apply(t, c, op).Done? && op.slot.bucket == b {
      ReserveContained(t, c, op.slot, op.request, most);
    }
    SizesKept(t, c, op, b, most);
  }

  /** Even when objects are deleted under pending replacements, a bucket whose quota stays
      at or below `most` never has more than maxPending times that used and reserved. */
  lemma {:induction false} RunsStayContained(t: Tables, c: Limits, ops: seq<Op>, b: Id, most: nat)
    requires WellFormed(t) && HonestRun(t, c, ops) && Contained(t, c, b, most)
    requires LimitedThroughout(t, c, ops, b, most)
    ensures var t' := Run(t, c, ops);
      && Contained(t', c, b, most)
      && Used(t', b) + Reserved(t', b) <= Exposure(t', b) <= c.maxPending * most
    decreases ops
  {
    if ops == [] {
      CheckSeesExposure(t, b);
    } else {
      StepKeepsWellFormed(t, c, ops[0]);
      StepContained(t, c, ops[0], b, most);
      RunsStayContained(Next(t, c, ops[0]), c, ops[1..], b, most);
    }
  }
}

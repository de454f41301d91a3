/**
 How many objects and pending uploads a bucket can hold, and how much quota all buckets
 together, over every run. The object limit is checked when an upload is reserved, so
 pending uploads of new keys can still carry a bucket past it: by at most what may be pending.
 */
module Counts {
  import opened Sums
  import opened Ledger
  import opened Store
  import opened Quota

  /** Pending uploads whose key has no object yet. */
  function NewKeys(objects: map<Slot, Object>, b: Id): (Slot, Upload) -> int {
    (s: Slot, u: Upload) => if s.bucket == b && !HasReady(objects, s) then 1 else 0
  }
  /** The objects a bucket has or will have once all its pending uploads commit. */
  ghost function Foreseen(t: Tables, b: Id): int {
    ReadyObjects(t, b) + Sum(t.uploads, NewKeys(t.objects, b))
  }

  lemma NewKeysElsewhere(uploads: map<Slot, Upload>, objects: map<Slot, Object>, objects': map<Slot, Object>, slot: Slot, b: Id)
    requires forall s :: s != slot ==> HasReady(objects', s) == HasReady(objects, s)
    ensures Sum(uploads, NewKeys(objects', b)) - At(uploads, NewKeys(objects', b), slot)
         == Sum(uploads, NewKeys(objects, b)) - At(uploads, NewKeys(objects, b), slot)
  {
    Drop(uploads, NewKeys(objects, b), slot);
    Drop(uploads, NewKeys(objects', b), slot);
    Same(uploads - {slot}, NewKeys(objects', b), NewKeys(objects, b));
  }

  lemma CommitForeseen(t: Tables, slot: Slot, id: Id, physical: string, actual: nat, b: Id)
    requires WellFormed(t) && CommitUpload(t, slot, id, physical, actual).Done?
    ensures Foreseen(CommitUpload(t, slot, id, physical, actual).tables, b) == Foreseen(t, b)
  {
    var t' := CommitUpload(t, slot, id, physical, actual).tables;
    Put(t.objects, ObjectRows(b), slot, t'.objects[slot]);
    Drop(t.uploads, NewKeys(t.objects, b), slot);
    NewKeysElsewhere(t'.uploads, t.objects, t'.objects, slot, b);
  }

  lemma DeleteForeseen(t: Tables, id: Id, b: Id)
    requires WellFormed(t) && DeleteObject(t, id).Done?
    ensures Foreseen(DeleteObject(t, id).tables, b) <= Foreseen(t, b)
  {
    var slot := ObjectSlot(t.objects, id);
    Drop(t.objects, ObjectRows(b), slot);
    NewKeysElsewhere(t.uploads, t.objects, t.objects - {slot}, slot, b);
  }

  lemma CancelForeseen(t: Tables, id: Id, b: Id)
    requires CancelUpload(t, id).Done?
    ensures Foreseen(CancelUpload(t, id).tables, b) <= Foreseen(t, b)
  {
    Drop(t.uploads, NewKeys(t.objects, b), UploadSlot(t.uploads, id));
  }

  lemma OtherForeseen(t: Tables, c: Limits, op: Op, b: Id)
    requires !TouchesRows(op)
    ensures Foreseen(Next(t, c, op), b) == Foreseen(t, b)
  {
    RowsUntouched(t, c, op);
  }

  lemma RotateForeseen(t: Tables, id: Id, physical: string, generation: int, b: Id)
    ensures Foreseen(After(t, RotatePhysicalKey(t, id, physical, generation)), b) == Foreseen(t, b)
  {
    if ObjectHas(t.objects, id) && RotatePhysicalKey(t, id, physical, generation).Done? {
      var slot := ObjectSlot(t.objects, id);
      var row := t.objects[slot].(physical := physical, generation := generation);
      Put(t.objects, ObjectRows(b), slot, row);
      NewKeysElsewhere(t.uploads, t.objects, t.objects[slot := row], slot, b);
    }
  }

  lemma FinishForeseen(t: Tables, now: int, id: Id, b: Id)
    requires FinishBucketDeletion(t, now, id).Done?
    ensures Foreseen(FinishBucketDeletion(t, now, id).tables, b) <= Foreseen(t, b)
  {
    var objects', uploads' := t.objects - ObjectSlots(t.objects, id), t.uploads - UploadSlots(t.uploads, id);
    if b == id {
      Zero(objects', ObjectRows(b));
      Zero(uploads', NewKeys(objects', b));
      NonNegative(t.objects, ObjectRows(b));
      NonNegative(t.uploads, NewKeys(t.objects, b));
    } else {
      Keep(t.objects, ObjectSlots(t.objects, id), ObjectRows(b), ObjectRows(b));
      Keep(t.uploads, UploadSlots(t.uploads, id), NewKeys(objects', b), NewKeys(t.objects, b));
    }
  }

  lemma ReserveForeseen(t: Tables, c: Limits, slot: Slot, q: Request, b: Id)
    requires ReserveObject(t, c, slot, q).Done?
    requires Foreseen(t, b) <= c.maxObjects + c.maxPending - 1
    ensures Foreseen(ReserveObject(t, c, slot, q).tables, b) <= c.maxObjects + c.maxPending - 1
  {
    Put(t.uploads, NewKeys(t.objects, b), slot, Reservation(t.objects, slot, q));
    Monotone(t.uploads, NewKeys(t.objects, b), UploadRows(b));
  }

  /** A reservation raises what is foreseen by one exactly when its key is new, whatever the
      check of the object limit saw. */
  lemma ReserveCounts(t: Tables, c: Limits, slot: Slot, q: Request, b: Id)
    requires ReserveObject(t, c, slot, q).Done?
    ensures Foreseen(ReserveObject(t, c, slot, q).tables, b) ==
      Foreseen(t, b) + if slot.bucket == b && !HasReady(t.objects, slot) then 1 else 0
  {
    Put(t.uploads, NewKeys(t.objects, b), slot, Reservation(t.objects, slot, q));
  }

  /** Ready objects together with pending uploads of new keys stay below the two limits'
      sum, and pending uploads within their own limit. */
  ghost predicate Countable(t: Tables, c: Limits, b: Id) {
    Foreseen(t, b) <= c.maxObjects + c.maxPending - 1 && Pending(t, b) <= c.maxPending
  }

  lemma StepCountable(t: Tables, c: Limits, op: Op, b: Id)
    requires WellFormed(t) && Countable(t, c, b)
    ensures Countable(Next(t, c, op), c, b)
  {
    hide Foreseen, Pending, WellFormed, CommitUpload, RotatePhysicalKey, FinishBucketDeletion;
    PendingMoves(t, c, op, b);
    if Apply(t, c, op).Done? {
      match op
      case Reserve(slot, q) => ReserveForeseen(t, c, slot, q, b);
      case Cancel(id) => CancelForeseen(t, id, b);
      case Commit(slot, id, physical, actual) => CommitForeseen(t, slot, id, physical, actual, b);
      case Delete(id) => DeleteForeseen(t, id, b);
      case Rotate(id, physical, generation) => RotateForeseen(t, id, physical, generation, b);
      case Finish(now, id) => FinishForeseen(t, now, id, b);
      case _ => OtherForeseen(t, c, op, b);
    }
  }

  lemma {:induction false} RunsStayCountable(t: Tables, c: Limits, ops: seq<Op>, b: Id)
    requires WellFormed(t) && Countable(t, c, b)
    ensures Countable(Run(t, c, ops), c, b)
    ensures ReadyObjects(Run(t, c, ops), b) <= c.maxObjects + c.maxPending - 1
    decreases ops
  {
    NonNegative(t.uploads, NewKeys(t.objects, b));
    if ops != [] {
      StepKeepsWellFormed(t, c, ops[0]);
      StepCountable(t, c, ops[0], b);
      RunsStayCountable(Next(t, c, ops[0]), c, ops[1..], b);
    }
  }

  ghost predicate Positive(buckets: map<Id, Bucket>) {
    forall b :: b in buckets && !buckets[b].unlimited ==> 0 < buckets[b].quota
  }

  lemma QuotaDrop(buckets: map<Id, Bucket>, id: Id)
    requires Positive(buckets)
    ensures Sum(buckets - {id}, Quotas()) <= Sum(buckets, Quotas()) && Positive(buckets - {id})
  {
    Drop(buckets, Quotas(), id);
  }

  lemma QuotaPut(buckets: map<Id, Bucket>, id: Id, b: Bucket)
    ensures Sum(buckets[id := b], Quotas()) == Sum(buckets, QuotasBut(id)) + Quotas()(id, b)
    ensures id !in buckets ==> Sum(buckets, QuotasBut(id)) == Sum(buckets, Quotas())
    ensures Positive(buckets) ==> Sum(buckets, QuotasBut(id)) <= Sum(buckets, Quotas())
  {
    if Positive(buckets) {
      Monotone(buckets, QuotasBut(id), Quotas());
    }
    Put(buckets, Quotas(), id, b);
    Drop(buckets, Quotas(), id);
    Drop(buckets, QuotasBut(id), id);
    Same(buckets - {id}, Quotas(), QuotasBut(id));
  }
  lemma BucketsUntouched(t: Tables, c: Limits, op: Op)
    requires !op.NewBucket? && !op.EditBucket? && !op.Finish?
    ensures Next(t, c, op).buckets == t.buckets
  {
    hide ReserveRefusal, CommitRefusal, Deadline;
  }

  lemma BucketMade(t: Tables, c: Limits, id: Id, b: Bucket, told: bool)
    requires Sum(t.buckets, Quotas()) <= c.totalQuota && Positive(t.buckets)
    ensures var t' := After(t, CreateBucket(t, c, id, b, told));
      Sum(t'.buckets, Quotas()) <= c.totalQuota && Positive(t'.buckets)
  {
    QuotaPut(t.buckets, id, b);
  }
  lemma BucketEdited(t: Tables, c: Limits, id: Id, b: Bucket, told: bool)
    requires Sum(t.buckets, Quotas()) <= c.totalQuota && Positive(t.buckets)
    ensures var t' := After(t, UpdateBucket(t, c, id, b, told));
      Sum(t'.buckets, Quotas()) <= c.totalQuota && Positive(t'.buckets)
  {
    hide Used, Reserved;
    QuotaPut(t.buckets, id, b);
  }

  lemma QuotaStep(t: Tables, c: Limits, op: Op)
    requires Sum(t.buckets, Quotas()) <= c.totalQuota && Positive(t.buckets)
    ensures Sum(Next(t, c, op).buckets, Quotas()) <= c.totalQuota
    ensures Positive(Next(t, c, op).buckets)
  {
    hide CreateBucket, UpdateBucket, Positive;
    match op
    case NewBucket(id, b, told) => BucketMade(t, c, id, b, told);
    case EditBucket(id, b, told) => BucketEdited(t, c, id, b, told);
    case Finish(_, id) => QuotaDrop(t.buckets, id);
    case _ => BucketsUntouched(t, c, op);
  }

  /** The limited buckets never hold more quota together than the platform has to give. */
  lemma {:induction false} QuotasFitThePlatform(t: Tables, c: Limits, ops: seq<Op>)
    requires Sum(t.buckets, Quotas()) <= c.totalQuota && Positive(t.buckets)
    ensures Sum(Run(t, c, ops).buckets, Quotas()) <= c.totalQuota
    decreases ops
  {
    if ops != [] {
      QuotaStep(t, c, ops[0]);
      QuotasFitThePlatform(Next(t, c, ops[0]), c, ops[1..]);
    }
  }
}

/**
 What a deletion leaves alone, and what it does not: a bucket that is being deleted takes in
 nothing more, whichever requests were already under way, and a token prepared for it works
 for its whole time unless something spent it.
 */
module Deletions {
  import opened Ledger
  import opened Quota
  import opened Confirmations

  // ---------- A bucket being deleted only shrinks ----------

  /** It is being deleted, or gone. */
  predicate Closing(t: Tables, b: Id) { b in t.deletions || b !in t.buckets }

  /** No row of the bucket that was not there before; objects as they were but for their keys. */
  ghost predicate NothingNew(t: Tables, t': Tables, b: Id) {
    && (forall s: Slot :: s.bucket == b && s in t'.uploads ==> s in t.uploads && t'.uploads[s] == t.uploads[s])
    && (forall s: Slot :: s.bucket == b && s in t'.objects ==>
          && s in t.objects
          && t'.objects[s] == t.objects[s].(physical := t'.objects[s].physical, generation := t'.objects[s].generation))
    && (forall g :: g in t'.grants && t'.grants[g].bucket == b ==> g in t.grants && t'.grants[g] == t.grants[g])
    && (b in t'.buckets ==> b in t.buckets && t'.buckets[b] == t.buckets[b])
    && (b in t'.deletions ==> b in t.deletions && t'.deletions[b] == t.deletions[b])
  }

  lemma ReserveCloses(t: Tables, c: Limits, slot: Slot, q: Request, b: Id)
    requires Closing(t, b)
    ensures NothingNew(t, After(t, ReserveObject(t, c, slot, q)), b)
  {
    hide Used, Reserved, SourceUsed, SourceReserved, Pending, ReadyObjects, Growth, SourceGrowth;
  }
  lemma CommitCloses(t: Tables, slot: Slot, id: Id, physical: string, actual: nat, b: Id)
    requires Closing(t, b)
    ensures NothingNew(t, After(t, CommitUpload(t, slot, id, physical, actual)), b)
  {
    hide ObjectClash, Promoted;
  }
  lemma CancelCloses(t: Tables, id: Id, b: Id)
    ensures NothingNew(t, After(t, CancelUpload(t, id)), b)
  {
    var t' := After(t, CancelUpload(t, id));
    assert t' == t.(uploads := t'.uploads) && t'.uploads.Keys <= t.uploads.Keys;
  }
  lemma DeleteCloses(t: Tables, id: Id, b: Id)
    ensures NothingNew(t, After(t, DeleteObject(t, id)), b)
  {
    hide LinksBut;
  }
  lemma RotateCloses(t: Tables, id: Id, physical: string, generation: int, b: Id)
    ensures NothingNew(t, After(t, RotatePhysicalKey(t, id, physical, generation)), b)
  {
    hide ObjectClash;
  }
  lemma FinishCloses(t: Tables, now: int, id: Id, b: Id)
    ensures NothingNew(t, After(t, FinishBucketDeletion(t, now, id)), b)
  {
    hide LinksBut, ConfirmationsBut, BucketObjectIds;
  }
  lemma BeginCloses(t: Tables, now: int, id: Id, hash: string, b: Id)
    requires Closing(t, b) && WellFormed(t)
    ensures NothingNew(t, After(t, BeginBucketDeletion(t, now, id, hash)), b)
  {
    hide Deadline, RevokeAll, ConfirmationsBut, ObjectsFit, ObjectsDistinct, UploadsFit, UploadsDistinct, LinksFit;
  }
  lemma EditCloses(t: Tables, c: Limits, id: Id, row: Bucket, told: bool, b: Id)
    requires Closing(t, b)
    ensures NothingNew(t, After(t, UpdateBucket(t, c, id, row, told)), b)
  {
    hide Used, Reserved, QuotasBut;
  }
  lemma OtherCloses(t: Tables, c: Limits, op: Op, b: Id)
    requires !TouchesRows(op) && !op.Begin? && !op.EditBucket? && !(op.NewBucket? && op.id == b)
    ensures NothingNew(t, Next(t, c, op), b)
  {
    hide Next;
    RowsUntouched(t, c, op);
    NoGrantAdded(t, c, op);
    SettingsStay(t, c, op, b);
  }
  lemma NoGrantAdded(t: Tables, c: Limits, op: Op)
    requires !TouchesRows(op)
    ensures forall g :: g in Next(t, c, op).grants ==> g in t.grants && Next(t, c, op).grants[g] == t.grants[g]
  {
    hide Used, Reserved, SourceUsed, SourceReserved, Deadline;
  }
  lemma SettingsStay(t: Tables, c: Limits, op: Op, b: Id)
    requires !TouchesRows(op) && !op.Begin? && !op.EditBucket? && !(op.NewBucket? && op.id == b)
    ensures var t' := Next(t, c, op);
      (b in t'.buckets ==> b in t.buckets && t'.buckets[b] == t.buckets[b]) && t'.deletions == t.deletions
  {
    hide Used, Reserved, SourceUsed, SourceReserved;
  }

  lemma StepCloses(t: Tables, c: Limits, op: Op, b: Id)
    requires WellFormed(t) && Closing(t, b) && !(op.NewBucket? && op.id == b)
    ensures NothingNew(t, Next(t, c, op), b)
  {
    hide NothingNew, Closing, WellFormed, ReserveObject, CommitUpload, CancelUpload, DeleteObject, RotatePhysicalKey, FinishBucketDeletion,
         BeginBucketDeletion, UpdateBucket;
    match op
    case Reserve(slot, q) => ReserveCloses(t, c, slot, q, b);
    case Cancel(id) => CancelCloses(t, id, b);
    case Commit(slot, id, physical, actual) => CommitCloses(t, slot, id, physical, actual, b);
    case Delete(id) => DeleteCloses(t, id, b);
    case Rotate(id, physical, generation) => RotateCloses(t, id, physical, generation, b);
    case Finish(now, id) => FinishCloses(t, now, id, b);
    case Begin(now, id, hash) => BeginCloses(t, now, id, hash, b);
    case EditBucket(id, row, told) => EditCloses(t, c, id, row, told, b);
    case _ => OtherCloses(t, c, op, b);
  }
  lemma StaysClosing(t: Tables, c: Limits, op: Op, b: Id)
    requires Closing(t, b) && !(op.NewBucket? && op.id == b)
    ensures Closing(Next(t, c, op), b)
  {
    hide Used, Reserved, SourceUsed, SourceReserved, ReserveRefusal, CommitRefusal, Deadline;
  }

  lemma NothingNewTwice(t: Tables, t1: Tables, t2: Tables, b: Id)
    requires NothingNew(t, t1, b) && NothingNew(t1, t2, b)
    ensures NothingNew(t, t2, b)
  {
  }

  predicate Recreates(ops: seq<Op>, b: Id) {
    exists i :: 0 <= i < |ops| && ops[i].NewBucket? && ops[i].id == b
  }

  /** Over every run, from the moment its deletion begins a bucket gains no object, no upload
      and no grant, none of its objects changes but in its key, and neither its settings nor
      the deadline of its deletion move. */
  lemma {:induction false} DeletingBucketOnlyShrinks(t: Tables, c: Limits, ops: seq<Op>, b: Id)
    requires WellFormed(t) && Closing(t, b) && !Recreates(ops, b)
    ensures NothingNew(t, Run(t, c, ops), b) && Closing(Run(t, c, ops), b)
    decreases ops
  {
    if ops != [] {
      hide Next, WellFormed, NothingNew, Closing;
      assert !(ops[0].NewBucket? && ops[0].id == b);
      assert forall i :: 0 <= i < |ops[1..]| ==> ops[1..][i] == ops[i + 1];
      StepKeepsWellFormed(t, c, ops[0]);
      StepCloses(t, c, ops[0], b);
      StaysClosing(t, c, ops[0], b);
      DeletingBucketOnlyShrinks(Next(t, c, ops[0]), c, ops[1..], b);
      NothingNewTwice(t, Next(t, c, ops[0]), Run(t, c, ops), b);
    }
  }

  // ---------- A prepared token works ----------

  /** The transaction takes this token away: it expired, or its bucket's deletion begins or ends. */
  ghost predicate Spends(t: Tables, c: Limits, op: Op, row: Confirmation) {
    || (op.Expire? && row.expiresAt < op.now)
    || (op.Begin? && op.id == row.bucket && op.id !in t.deletions && Apply(t, c, op).Done?)
    || (op.Finish? && op.id == row.bucket && Apply(t, c, op).Done?)
  }
  lemma TokenStaysIff(t: Tables, c: Limits, op: Op, hash: string)
    requires hash in t.confirmations
    ensures hash in Next(t, c, op).confirmations <==> !Spends(t, c, op, t.confirmations[hash])
    ensures hash in Next(t, c, op).confirmations ==> Next(t, c, op).confirmations[hash] == t.confirmations[hash]
  {
    hide ReserveRefusal, CommitRefusal, Deadline, Used, Reserved, SourceUsed, SourceReserved;
  }

  /** Nothing in the run is meant to take the token away. */
  predicate Leaves(ops: seq<Op>, row: Confirmation) {
    forall i :: 0 <= i < |ops| ==>
      && (ops[i].Expire? ==> ops[i].now <= row.expiresAt)
      && !((ops[i].Begin? || ops[i].Finish?) && ops[i].id == row.bucket)
  }
  lemma {:induction false} TokenLasts(t: Tables, c: Limits, ops: seq<Op>, hash: string)
    requires hash in t.confirmations && Leaves(ops, t.confirmations[hash])
    ensures hash in Run(t, c, ops).confirmations && Run(t, c, ops).confirmations[hash] == t.confirmations[hash]
    decreases ops
  {
    if ops != [] {
      hide Next, Apply;
      assert forall i :: 0 <= i < |ops[1..]| ==> ops[1..][i] == ops[i + 1];
      TokenStaysIff(t, c, ops[0], hash);
      TokenLasts(Next(t, c, ops[0]), c, ops[1..], hash);
    }
  }

  /** Once prepared, a token begins the deletion of its bucket at any time from its ready time
      to before its expiry, whatever tokens of other buckets do, and only then. */
  lemma PreparedTokenWorks(t: Tables, c: Limits, b: Id, hash: string, readyAt: int, expiresAt: int, ops: seq<Op>, now: int)
    requires PrepareDeletion(t, b, hash, readyAt, expiresAt).Done? && Leaves(ops, Confirmation(b, readyAt, expiresAt))
    requires var t' := Run(PrepareDeletion(t, b, hash, readyAt, expiresAt).tables, c, ops); b !in t'.deletions
    ensures var t' := Run(PrepareDeletion(t, b, hash, readyAt, expiresAt).tables, c, ops);
      var r := BeginBucketDeletion(t', now, b, hash);
      && (r.Done? <==> readyAt <= now < expiresAt)
      && (r.Done? ==> b in r.tables.deletions && r.tables.deletions[b].requestedAt == now)
  {
    hide Deadline, RevokeAll, ConfirmationsBut;
    TokenLasts(PrepareDeletion(t, b, hash, readyAt, expiresAt).tables, c, ops, hash);
  }
}

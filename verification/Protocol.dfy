/**
 The service's protocols over the metadata and the stored bytes, as a state machine whose
 steps interleave freely: commits, rotations and deletes of objects under a bucket's read
 lock, the worker that empties deleted buckets under its write lock, clients using presigned
 URLs, the cleaner of expired uploads, every other transaction, and the process dying between
 any two steps. One step is one call to the database or to a backend.

 Assumed: a database transaction and a backend call are atomic and have a known outcome;
 copying an absent key fails; upload ids, bucket ids and generations are never used twice;
 and at most one commit, rotation or delete of a key is inside its guarded section at a time.
 */
module Protocol {
  import opened Sums
  import opened Ledger
  import opened Names

  type Blob = seq<int>
  datatype Loc = Loc(source: Id, key: string)

  /** Where an operation in its guarded section stands. `gen` is the generation it drew. */
  datatype Task =
    | CommitStart(id: Id)
    | CommitFound(up: Upload)
    | CommitChecked(up: Upload)
    | CommitCopied(up: Upload, gen: nat)
    | CommitVerified(up: Upload, gen: nat)
    | CommitAborting(up: Upload, gen: nat)
    | CommitStored(up: Upload, replaced: Option<Loc>)
    | CommitCleaning(replaced: Option<Loc>)
    | RotateStart
    | RotateFound(row: Object)
    | RotateCopied(row: Object, gen: nat)
    | RotateMoved(row: Object, gen: nat)
    | RotateUndoing(row: Object, gen: nat)
    | RotateUndone(row: Object, gen: nat)
    | DeleteStart
    | DeleteFound(row: Object)
    | DeleteGone(row: Object)
    | Finished
    /** Any other guarded operation, such as beginning an upload or relaying one: what it does
        to the tables and to staged bytes are steps of their own below. */
    | Visit

  /** An operation has passed the first check of its bucket, then has the read lock, then has
      passed the second check and is inside. */
  datatype Operation =
    | Knocking(slot: Slot, task: Task)
    | Entering(slot: Slot, task: Task)
    | Inside(slot: Slot, task: Task)
    | Visiting(slot: Slot, task: Task)

  datatype Mutex = Mutex(readers: int, writer: bool)

  datatype Worker = Idle | Sweeping(bucket: Id, listed: set<Id>, swept: set<Id>)

  datatype World = World(
    led: Tables,
    blobs: map<Loc, Blob>,
    now: int,
    ops: map<nat, Operation>,
    locks: map<Id, Mutex>,
    worker: Worker,
    /** History, for stating properties: who drew each generation; physical keys that were
        ever in the objects table; the bytes last committed at a key; keys whose rotation or
        delete got past its backend delete and no further; places rotated away from; buckets
        whose sweep ever began; the sources swept for each finished bucket; ids ever used. */
    gens: map<nat, nat>,
    mapped: set<string>,
    content: map<Slot, Blob>,
    dangling: set<Slot>,
    retired: set<Loc>,
    begun: set<Id>,
    cleared: map<Id, set<Id>>,
    uploadIds: set<Id>,
    bucketIds: set<Id>)

  const START := World(EMPTY, map[], 0, map[], map[], Idle, map[], {}, map[], {}, {}, {}, map[], {}, {})

  function Place(row: Object): Loc { Loc(row.source, row.physical) }
  function Target(source: Id, slot: Slot, gen: nat): Loc { Loc(source, Physical(slot.bucket, gen, slot.key)) }

  predicate Active(t: Tables, b: Id) { b in t.buckets && b !in t.deletions }
  function LockOf(locks: map<Id, Mutex>, b: Id): Mutex { if b in locks then locks[b] else Mutex(0, false) }

  function Holds(b: Id): (nat, Operation) -> int {
    (t: nat, op: Operation) => if !op.Knocking? && op.slot.bucket == b then 1 else 0
  }

  /** A key that some upload could be put to. */
  ghost predicate IsStaging(key: string) {
    exists b, u, k :: key == Staging(b, u, k)
  }

  datatype Step =
    | Knock(t: nat, slot: Slot, task: Task)
    | Lock(t: nat)
    | Enter(t: nat)
    | Turn(t: nat)
    | Leave(t: nat)
    /** The next call of an operation. `ok` is whether the call succeeds; `drawn` the
        generation read from the clock, where one is. */
    | Act(t: nat, ok: bool, drawn: nat)
    | Put(at: Loc, blob: Blob)
    | DropStaging(at: Loc)
    | Transact(op: Op)
    | WorkerLock(bucket: Id, legacy: bool)
    | SweepDelete(at: Loc)
    | SweepDone(source: Id)
    | FinishDeletion
    | WorkerUnlock
    | Crash
    | Wait(seconds: nat)

  predicate IsStart(task: Task) { task.CommitStart? || task.RotateStart? || task.DeleteStart? || task.Visit? }

  /** Transactions of everything else: none touches an object row or finishes a deletion. */
  ghost predicate Elsewhere(w: World, op: Op) {
    && !op.Commit? && !op.Delete? && !op.Rotate? && !op.Finish?
    && (op.Reserve? ==> op.request.id !in w.uploadIds && IsStaging(op.request.physical))
    && (op.NewBucket? ==> op.id !in w.bucketIds && NoSlash(op.id))
    && (op.Begin? || op.Prune? || op.Expire? ==> op.now == w.now)
  }

  /** When the next call of a task can be made, and with `ok`, succeed. */
  predicate CanAct(w: World, slot: Slot, task: Task, ok: bool, drawn: nat) {
    match task
    case CommitStart(id) => ok && slot in w.led.uploads && w.led.uploads[slot].id == id
    case CommitFound(up) =>
      var at := Loc(up.source, up.physical);
      ok && at in w.blobs && |w.blobs[at]| == up.size
    case CommitChecked(up) => ok && Loc(up.source, up.physical) in w.blobs && drawn !in w.gens
    case CommitCopied(up, gen) =>
      var at := Target(up.source, slot, gen);
      ok ==> at in w.blobs && |w.blobs[at]| == up.size
    case CommitVerified(up, gen) =>
      ok ==> CommitUpload(w.led, slot, up.id, Target(up.source, slot, gen).key, up.size).Done?
    case CommitAborting(_, _) => true
    case CommitStored(_, _) => true
    case CommitCleaning(_) => true
    case RotateStart => ok && slot in w.led.objects
    case RotateFound(row) => ok && Place(row) in w.blobs && drawn !in w.gens
    case RotateCopied(_, _) => ok
    case RotateMoved(row, gen) => ok ==> !ObjectClash(w.led.objects, slot, row.id, Target(row.source, slot, gen).key)
    case RotateUndoing(row, gen) => ok ==> Target(row.source, slot, gen) in w.blobs
    case RotateUndone(_, _) => true
    case DeleteStart => ok && slot in w.led.objects
    case DeleteFound(_) => ok
    case DeleteGone(_) => ok
    case Finished => false
    case Visit => false
  }

  ghost predicate Enabled(w: World, c: Limits, s: Step) {
    match s
    case Knock(t, slot, task) => t !in w.ops && IsStart(task) && Active(w.led, slot.bucket)
    case Lock(t) => t in w.ops && w.ops[t].Knocking? && !LockOf(w.locks, w.ops[t].slot.bucket).writer
    case Enter(t) =>
      && t in w.ops && w.ops[t].Entering? && Active(w.led, w.ops[t].slot.bucket)
      && (w.ops[t].task.Visit? || forall u :: u in w.ops && w.ops[u].Inside? ==> w.ops[u].slot != w.ops[t].slot)
    case Turn(t) => t in w.ops && (w.ops[t].Knocking? || (w.ops[t].Entering? && !Active(w.led, w.ops[t].slot.bucket)))
    case Leave(t) => t in w.ops && (w.ops[t].Inside? || w.ops[t].Visiting?)
    case Act(t, ok, drawn) => t in w.ops && w.ops[t].Inside? && CanAct(w, w.ops[t].slot, w.ops[t].task, ok, drawn)
    case Put(at, _) => IsStaging(at.key)
    case DropStaging(at) => IsStaging(at.key)
    case Transact(op) => Elsewhere(w, op)
    case WorkerLock(b, _) =>
      w.worker.Idle? && b in w.led.deletions && LockOf(w.locks, b) == Mutex(0, false)
    case SweepDelete(at) =>
      && w.worker.Sweeping? && at.source in w.worker.listed
      && (FinalPrefix(w.worker.bucket) <= at.key || StagingPrefix(w.worker.bucket) <= at.key)
    case SweepDone(source) =>
      && w.worker.Sweeping? && source in w.worker.listed
      && forall l :: l in w.blobs && l.source == source ==> !(FinalPrefix(w.worker.bucket) <= l.key)
    case FinishDeletion =>
      && w.worker.Sweeping? && w.worker.listed <= w.worker.swept
      && FinishBucketDeletion(w.led, w.now, w.worker.bucket).Done?
    case WorkerUnlock => w.worker.Sweeping?
    case Crash => true
    case Wait(_) => true
  }

  function Release(locks: map<Id, Mutex>, b: Id): map<Id, Mutex> {
    locks[b := Mutex(LockOf(locks, b).readers - 1, LockOf(locks, b).writer)]
  }

  function Move(w: World, t: nat, slot: Slot, task: Task): World { w.(ops := w.ops[t := Inside(slot, task)]) }

  /** One call of an operation inside its guarded section. */
  ghost function Call(w: World, t: nat, slot: Slot, task: Task, ok: bool, drawn: nat): World
    requires CanAct(w, slot, task, ok, drawn)
  {
    match task
    case CommitStart(id) => Move(w, t, slot, CommitFound(w.led.uploads[slot]))
    case CommitFound(up) => Move(w, t, slot, CommitChecked(up))
    case CommitChecked(up) =>
      Move(w, t, slot, CommitCopied(up, drawn)).(
        blobs := w.blobs[Target(up.source, slot, drawn) := w.blobs[Loc(up.source, up.physical)]],
        gens := w.gens[drawn := t])
    case CommitCopied(up, gen) => Move(w, t, slot, if ok then CommitVerified(up, gen) else CommitAborting(up, gen))
    case CommitVerified(up, gen) =>
      if !ok then Move(w, t, slot, CommitAborting(up, gen))
      else
        var at := Target(up.source, slot, gen);
        var replaced := if slot in w.led.objects then Some(Place(w.led.objects[slot])) else None;
        Move(w, t, slot, CommitStored(up, replaced)).(
          led := CommitUpload(w.led, slot, up.id, at.key, up.size).tables,
          mapped := w.mapped + {at.key},
          content := w.content[slot := if at in w.blobs then w.blobs[at] else []],
          dangling := w.dangling - {slot})
    case CommitAborting(up, gen) =>
      Move(w, t, slot, Finished).(blobs := if ok then w.blobs - {Target(up.source, slot, gen)} else w.blobs)
    case CommitStored(up, replaced) =>
      Move(w, t, slot, CommitCleaning(replaced)).(blobs := if ok then w.blobs - {Loc(up.source, up.physical)} else w.blobs)
    case CommitCleaning(replaced) =>
      Move(w, t, slot, Finished).(blobs := if ok && replaced.Some? then w.blobs - {replaced.value} else w.blobs)
    case RotateStart => Move(w, t, slot, RotateFound(w.led.objects[slot]))
    case RotateFound(row) =>
      Move(w, t, slot, RotateCopied(row, drawn)).(
        blobs := w.blobs[Target(row.source, slot, drawn) := w.blobs[Place(row)]],
        gens := w.gens[drawn := t])
    case RotateCopied(row, gen) =>
      Move(w, t, slot, RotateMoved(row, gen)).(blobs := w.blobs - {Place(row)}, dangling := w.dangling + {slot})
    case RotateMoved(row, gen) =>
      if !ok then Move(w, t, slot, RotateUndoing(row, gen))
      else
        var at := Target(row.source, slot, gen);
        Move(w, t, slot, Finished).(
          led := After(w.led, RotatePhysicalKey(w.led, row.id, at.key, gen)),
          mapped := w.mapped + {at.key},
          retired := w.retired + {Place(row)},
          dangling := w.dangling - {slot})
    case RotateUndoing(row, gen) =>
      if !ok then Move(w, t, slot, RotateUndone(row, gen))
      else Move(w, t, slot, RotateUndone(row, gen)).(
        blobs := w.blobs[Place(row) := w.blobs[Target(row.source, slot, gen)]],
        dangling := w.dangling - {slot})
    case RotateUndone(row, gen) =>
      Move(w, t, slot, Finished).(blobs := if ok then w.blobs - {Target(row.source, slot, gen)} else w.blobs)
    case DeleteStart => Move(w, t, slot, DeleteFound(w.led.objects[slot]))
    case DeleteFound(row) =>
      Move(w, t, slot, DeleteGone(row)).(blobs := w.blobs - {Place(row)}, dangling := w.dangling + {slot})
    case DeleteGone(row) =>
      Move(w, t, slot, Finished).(led := After(w.led, DeleteObject(w.led, row.id)), dangling := w.dangling - {slot})
  }

  ghost function Do(w: World, c: Limits, s: Step): World
    requires Enabled(w, c, s)
  {
    match s
    case Knock(t, slot, task) => w.(ops := w.ops[t := Knocking(slot, task)])
    case Lock(t) =>
      var b := w.ops[t].slot.bucket;
      w.(ops := w.ops[t := Entering(w.ops[t].slot, w.ops[t].task)],
         locks := w.locks[b := Mutex(LockOf(w.locks, b).readers + 1, LockOf(w.locks, b).writer)])
    case Enter(t) =>
      var op := w.ops[t];
      w.(ops := w.ops[t := if op.task.Visit? then Visiting(op.slot, op.task) else Inside(op.slot, op.task)])
    case Turn(t) =>
      w.(ops := w.ops - {t}, locks := if w.ops[t].Knocking? then w.locks else Release(w.locks, w.ops[t].slot.bucket))
    case Leave(t) => w.(ops := w.ops - {t}, locks := Release(w.locks, w.ops[t].slot.bucket))
    case Act(t, ok, drawn) => Call(w, t, w.ops[t].slot, w.ops[t].task, ok, drawn)
    case Put(at, blob) => w.(blobs := w.blobs[at := blob])
    case DropStaging(at) => w.(blobs := w.blobs - {at})
    case Transact(op) => w.(
      led := Next(w.led, c, op),
      uploadIds := if op.Reserve? then w.uploadIds + {op.request.id} else w.uploadIds,
      bucketIds := if op.NewBucket? then w.bucketIds + {op.id} else w.bucketIds)
    case WorkerLock(b, legacy) => w.(
      locks := w.locks[b := Mutex(0, true)],
      worker := Sweeping(b, w.led.sources.Keys + if legacy then {""} else {}, {}),
      begun := w.begun + {b})
    case SweepDelete(at) => w.(blobs := w.blobs - {at})
    case SweepDone(source) => w.(worker := w.worker.(swept := w.worker.swept + {source}))
    case FinishDeletion =>
      var b := w.worker.bucket;
      w.(led := FinishBucketDeletion(w.led, w.now, b).tables, cleared := w.cleared[b := w.worker.listed])
    case WorkerUnlock =>
      var b := w.worker.bucket;
      w.(locks := w.locks[b := Mutex(LockOf(w.locks, b).readers, false)], worker := Idle)
    case Crash => w.(ops := map[], locks := map[], worker := Idle)
    case Wait(seconds) => w.(now := w.now + seconds)
  }

  ghost predicate IsRun(w: World, c: Limits, steps: seq<Step>, w': World)
    decreases steps
  {
    if steps == [] then w' == w
    else Enabled(w, c, steps[0]) && IsRun(Do(w, c, steps[0]), c, steps[1..], w')
  }
}

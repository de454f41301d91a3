/**
 Deleting a bucket waits for its presigned uploads. A signed PUT URL cannot be recalled; it
 lives as long as the upload was asked to, counted from the moment of signing. The upload
 grant written with the reservation outlives the upload row, and the deletion deadline is a
 minute after the last grant ends. So no URL can still start a PUT once the bucket's rows go.
 */
module Grants {
  import opened Ledger

  /** An upload whose reservation went through: asked to last `ttl` from `reservedAt`. `until`
      is when the URL signed for it, if any, stops being accepted. */
  datatype Promise = Promise(bucket: Id, reservedAt: int, ttl: int, until: Option<int>, failed: bool)

  datatype World = World(tables: Tables, now: int, promises: map<Id, Promise>, finished: set<Id>)

  datatype Step =
    /** A reservation that asks for an expiry of `ttl` seconds from now. */
    | Begin(slot: Slot, request: Request, ttl: int)
    /** The URL is signed; its lifetime starts only here. */
    | Sign(id: Id)
    /** Signing failed: the upload is cancelled and, if that worked, its grant forgotten. */
    | SignFailed(id: Id)
    /** Any other transaction. */
    | Transact(op: Op)
    | Wait(seconds: nat)

  /** Any transaction but a reservation or the forgetting of a grant, which the steps above
      make; one that reads the clock reads this clock; bucket ids are never used again. */
  predicate Allowed(w: World, op: Op) {
    && !op.Reserve? && !op.Forget?
    && (op.Begin? || op.Finish? || op.Prune? || op.Expire? ==> op.now == w.now)
    && (op.NewBucket? ==> op.id !in w.finished)
  }

  /** Signing finishes within a minute of the reservation; upload ids are fresh. */
  ghost predicate Enabled(w: World, c: Limits, s: Step) {
    match s
    case Begin(slot, q, ttl) => 1 <= ttl && q.expires == w.now + ttl && q.id !in w.promises
    case Sign(id) => id in w.promises && !w.promises[id].failed && w.now < w.promises[id].reservedAt + MINUTE
    case SignFailed(id) => id in w.promises && w.promises[id].until == None
    case Transact(op) => Allowed(w, op)
    case Wait(_) => true
  }

  ghost function Do(w: World, c: Limits, s: Step): World
    requires Enabled(w, c, s)
  {
    match s
    case Begin(slot, q, ttl) =>
      (match ReserveObject(w.tables, c, slot, q)
       case Done(t) => w.(tables := t, promises := w.promises[q.id := Promise(slot.bucket, w.now, ttl, None, false)])
       case Refused(_) => w)
    case Sign(id) => w.(promises := w.promises[id := w.promises[id].(until := Some(w.now + w.promises[id].ttl))])
    case SignFailed(id) =>
      (match CancelUpload(w.tables, id)
       case Done(t) => w.(tables := ForgetUploadGrant(t, id).tables, promises := w.promises[id := w.promises[id].(failed := true)])
       case Refused(_) => w.(promises := w.promises[id := w.promises[id].(failed := true)]))
    case Transact(op) =>
      w.(tables := Next(w.tables, c, op),
         finished := if op.Finish? && Apply(w.tables, c, op).Done? then w.finished + {op.id} else w.finished)
    case Wait(seconds) => w.(now := w.now + seconds)
  }

  ghost predicate IsRun(w: World, c: Limits, steps: seq<Step>, w': World)
    decreases steps
  {
    if steps == [] then w' == w
    else Enabled(w, c, steps[0]) && IsRun(Do(w, c, steps[0]), c, steps[1..], w')
  }

  /** The instant by which a URL signed for this upload is certainly dead. */
  function Dead(p: Promise): int { p.reservedAt + p.ttl + MINUTE }

  /** The URL can still start a PUT. */
  predicate Startable(w: World, id: Id) {
    id in w.promises && w.promises[id].until.Some? && w.now <= w.promises[id].until.value
  }

  /** Each promise is either certainly dead or still has its grant, and a bucket being deleted
      has a deadline after all its grants. */
  ghost predicate Tracked(w: World) {
    && (forall id :: id in w.promises ==>
          var p := w.promises[id];
          1 <= p.ttl && (p.until.Some? ==> !p.failed && p.until.value < Dead(p)))
    && (forall id :: id in w.promises && !w.promises[id].failed ==>
          var p := w.promises[id];
          Dead(p) <= w.now || (id in w.tables.grants && w.tables.grants[id] == Grant(p.bucket, p.reservedAt + p.ttl)))
  }
  ghost predicate Timed(w: World) {
    && (forall b :: b in w.tables.deletions ==> w.tables.deletions[b].cleanupAfter >= w.tables.deletions[b].requestedAt)
    && (forall b, g :: b in w.tables.deletions && g in w.tables.grants && w.tables.grants[g].bucket == b ==>
          w.tables.grants[g].expires + MINUTE <= w.tables.deletions[b].cleanupAfter)
  }
  ghost predicate Over(w: World) {
    && w.finished !! w.tables.buckets.Keys
    && (forall id :: id in w.promises && w.promises[id].bucket in w.finished && !w.promises[id].failed ==> Dead(w.promises[id]) <= w.now)
  }
  ghost predicate Inv(w: World) {
    WellFormed(w.tables) && Tracked(w) && Timed(w) && Over(w)
  }

  lemma BeginKeeps(w: World, c: Limits, slot: Slot, q: Request, ttl: int)
    requires Inv(w) && Enabled(w, c, Step.Begin(slot, q, ttl))
    ensures Inv(Do(w, c, Step.Begin(slot, q, ttl)))
  {
    ReserveKeepsWellFormed(w.tables, c, slot, q);
  }

  lemma SignFailedKeeps(w: World, c: Limits, id: Id)
    requires Inv(w) && Enabled(w, c, SignFailed(id))
    ensures Inv(Do(w, c, SignFailed(id)))
  {
    CancelKeepsWellFormed(w.tables, id);
    var r := CancelUpload(w.tables, id);
    if r.Done? {
      GrantsShrink(r.tables, Forget(id), c);
    }
  }

  lemma FinishKeeps(w: World, c: Limits, b: Id)
    requires Inv(w)
    ensures Inv(Do(w, c, Transact(Finish(w.now, b))))
  {
    FinishKeepsWellFormed(w.tables, w.now, b);
  }

  lemma PruneKeeps(w: World, c: Limits)
    requires Inv(w)
    ensures Inv(Do(w, c, Transact(Prune(w.now))))
  {
    GrantsShrink(w.tables, Prune(w.now), c);
  }

  lemma BeginDeletionKeeps(w: World, c: Limits, b: Id, hash: string)
    requires Inv(w)
    ensures Inv(Do(w, c, Transact(Op.Begin(w.now, b, hash))))
  {
    BeginKeepsWellFormed(w.tables, w.now, b, hash);
  }

  lemma OtherKeeps(w: World, c: Limits, op: Op)
    requires Inv(w) && Allowed(w, op) && !op.Finish? && !op.Prune? && !op.Begin?
    ensures Inv(Do(w, c, Transact(op)))
  {
    StepKeepsWellFormed(w.tables, c, op);
    OtherTransactions(w.tables, c, op);
    var w' := Do(w, c, Transact(op));
    assert w' == w.(tables := w'.tables);
  }
  lemma OtherTransactions(t: Tables, c: Limits, op: Op)
    requires !op.Reserve? && !op.Forget? && !op.Finish? && !op.Prune? && !op.Begin?
    ensures Next(t, c, op).grants == t.grants && Next(t, c, op).deletions == t.deletions
    ensures Next(t, c, op).buckets.Keys == t.buckets.Keys || (op.NewBucket? && Next(t, c, op).buckets.Keys == t.buckets.Keys + {op.id})
  {
  }

  lemma StepKeeps(w: World, c: Limits, s: Step)
    requires Inv(w) && Enabled(w, c, s)
    ensures Inv(Do(w, c, s))
  {
    match s
    case Begin(slot, q, ttl) => BeginKeeps(w, c, slot, q, ttl);
    case SignFailed(id) => SignFailedKeeps(w, c, id);
    case Transact(op) =>
      if op.Finish? {
        FinishKeeps(w, c, op.id);
      } else if op.Prune? {
        PruneKeeps(w, c);
      } else if op.Begin? {
        BeginDeletionKeeps(w, c, op.id, op.hash);
      } else {
        OtherKeeps(w, c, op);
      }
    case Sign(_) =>
    case Wait(_) =>
  }

  lemma {:induction false} RunKeeps(w: World, c: Limits, steps: seq<Step>, w': World)
    requires Inv(w) && IsRun(w, c, steps, w')
    ensures Inv(w') && w.now <= w'.now
    decreases steps
  {
    if steps != [] {
      var next := Do(w, c, steps[0]);
      StepKeeps(w, c, steps[0]);
      RunKeeps(next, c, steps[1..], w');
    }
  }

  /** In every run, from the moment a bucket's deletion finishes no presigned PUT for it can
      be started, and none will ever be signed again. */
  lemma NoPutOutlivesItsBucket(c: Limits, start: int, steps: seq<Step>, w: World, b: Id)
    requires IsRun(World(EMPTY, start, map[], {}), c, steps, w) && b in w.finished
    ensures forall id :: id in w.promises && w.promises[id].bucket == b ==> !Startable(w, id) && !Enabled(w, c, Sign(id))
  {
    RunKeeps(World(EMPTY, start, map[], {}), c, steps, w);
  }
}

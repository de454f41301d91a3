/**
 What every step of the protocols keeps.
 */
module Invariants {
  import opened Sums
  import opened Ledger
  import opened Names
  import opened Protocol

  /** The key was made for this place from a generation already drawn. */
  ghost predicate Named(slot: Slot, key: string, gens: map<nat, nat>) {
    exists g :: g in gens && key == Physical(slot.bucket, g, slot.key)
  }
  ghost predicate Drawn(key: string, gens: map<nat, nat>) {
    exists s: Slot :: NoSlash(s.bucket) && Named(s, key, gens)
  }

  ghost predicate LedgerOk(led: Tables, uploadIds: set<Id>, bucketIds: set<Id>) {
    && WellFormed(led) && led.buckets.Keys <= bucketIds && (forall b :: b in bucketIds ==> NoSlash(b))
    && (forall s :: s in led.uploads ==> led.uploads[s].id in uploadIds && IsStaging(led.uploads[s].physical))
  }
  ghost predicate RowsOk(objects: map<Slot, Object>, gens: map<nat, nat>, mapped: set<string>, content: map<Slot, Blob>) {
    forall s :: s in objects ==>
      Named(s, objects[s].physical, gens) && objects[s].physical in mapped && s in content && |content[s]| == objects[s].size
  }
  ghost predicate MappedOk(mapped: set<string>, gens: map<nat, nat>) {
    forall p :: p in mapped ==> Drawn(p, gens)
  }
  /** The bytes of every object are where its row says, but for keys past a backend delete
      and buckets whose sweep began. */
  ghost predicate Present(objects: map<Slot, Object>, blobs: map<Loc, Blob>, content: map<Slot, Blob>,
                          begun: set<Id>, dangling: set<Slot>)
  {
    forall s :: s in objects && s.bucket !in begun && s !in dangling ==>
      s in content && Place(objects[s]) in blobs && blobs[Place(objects[s])] == content[s]
  }
  ghost predicate Absent(objects: map<Slot, Object>, blobs: map<Loc, Blob>, dangling: set<Slot>) {
    forall s :: s in objects && s in dangling ==> Place(objects[s]) !in blobs
  }
  ghost predicate RetiredOk(retired: set<Loc>, objects: map<Slot, Object>, blobs: map<Loc, Blob>, mapped: set<string>) {
    forall l :: l in retired ==> l !in blobs && l.key in mapped && forall s :: s in objects ==> objects[s].physical != l.key
  }
  ghost predicate Empty(b: Id, sources: set<Id>, blobs: map<Loc, Blob>) {
    forall l :: l in blobs && l.source in sources ==> !(FinalPrefix(b) <= l.key)
  }
  ghost predicate SweptOk(worker: Worker, cleared: map<Id, set<Id>>, begun: set<Id>, blobs: map<Loc, Blob>) {
    && (forall b :: b in cleared ==> b in begun && Empty(b, cleared[b], blobs))
    && (worker.Sweeping? ==> worker.bucket in begun && Empty(worker.bucket, worker.swept, blobs))
  }
  ghost predicate BegunOk(begun: set<Id>, cleared: map<Id, set<Id>>, bucketIds: set<Id>, led: Tables) {
    && (forall b :: b in begun ==> b in bucketIds && !Active(led, b))
    && (forall b :: b in cleared ==> b in bucketIds && b !in led.buckets)
  }
  /** Nothing is stored but under names that were made for it. */
  ghost predicate BlobsOk(blobs: map<Loc, Blob>, gens: map<nat, nat>) {
    forall l :: l in blobs ==> IsStaging(l.key) || Drawn(l.key, gens)
  }

  ghost predicate LocksOk(ops: map<nat, Operation>, locks: map<Id, Mutex>, worker: Worker) {
    forall b ::
      && LockOf(locks, b).readers == Sum(ops, Holds(b))
      && (LockOf(locks, b).writer <==> worker.Sweeping? && worker.bucket == b)
      && (LockOf(locks, b).writer ==> LockOf(locks, b).readers == 0)
  }

  // ---------- Operations ----------

  ghost predicate UpOk(w: World, slot: Slot, up: Upload) {
    && up.id in w.uploadIds && IsStaging(up.physical)
    && (slot in w.led.uploads && w.led.uploads[slot].id == up.id ==> w.led.uploads[slot] == up)
  }
  /** The generation is this thread's own and its key was never in the objects table. */
  ghost predicate Own(w: World, t: nat, slot: Slot, gen: nat) {
    gen in w.gens && w.gens[gen] == t && Physical(slot.bucket, gen, slot.key) !in w.mapped
  }
  ghost predicate OldOk(w: World, replaced: Option<Loc>) {
    replaced.Some? ==> replaced.value.key in w.mapped && forall s :: s in w.led.objects ==> w.led.objects[s].physical != replaced.value.key
  }
  ghost predicate RowIs(w: World, slot: Slot, row: Object) {
    slot in w.led.objects && w.led.objects[slot] == row
  }
  ghost predicate Copied(w: World, slot: Slot, row: Object, gen: nat) {
    var at := Target(row.source, slot, gen);
    slot in w.content && at in w.blobs && w.blobs[at] == w.content[slot]
  }

  ghost predicate TaskOk(w: World, t: nat, slot: Slot, task: Task) {
    match task
    case CommitStart(_) => true
    case CommitFound(up) => UpOk(w, slot, up)
    case CommitChecked(up) => UpOk(w, slot, up)
    case CommitCopied(up, gen) => UpOk(w, slot, up) && Own(w, t, slot, gen)
    case CommitVerified(up, gen) =>
      UpOk(w, slot, up) && Own(w, t, slot, gen)
      && Target(up.source, slot, gen) in w.blobs && |w.blobs[Target(up.source, slot, gen)]| == up.size
    case CommitAborting(up, gen) => Own(w, t, slot, gen)
    case CommitStored(up, replaced) => IsStaging(up.physical) && OldOk(w, replaced)
    case CommitCleaning(replaced) => OldOk(w, replaced)
    case RotateStart => true
    case RotateFound(row) => RowIs(w, slot, row)
    case RotateCopied(row, gen) => RowIs(w, slot, row) && Own(w, t, slot, gen) && Copied(w, slot, row, gen)
    case RotateMoved(row, gen) => RowIs(w, slot, row) && Own(w, t, slot, gen) && Copied(w, slot, row, gen) && slot in w.dangling
    case RotateUndoing(row, gen) => RowIs(w, slot, row) && Own(w, t, slot, gen) && Copied(w, slot, row, gen) && slot in w.dangling
    case RotateUndone(row, gen) => RowIs(w, slot, row) && Own(w, t, slot, gen)
    case DeleteStart => true
    case DeleteFound(row) => RowIs(w, slot, row)
    case DeleteGone(row) => RowIs(w, slot, row)
    case Finished => true
    case Visit => true
  }

  ghost predicate OpOk(w: World, t: nat, op: Operation) {
    && op.slot.bucket in w.bucketIds
    && (op.Inside? ==> op.slot.bucket !in w.begun && TaskOk(w, t, op.slot, op.task))
    && (!op.Inside? ==> IsStart(op.task))
  }
  ghost predicate Exclusive(ops: map<nat, Operation>) {
    forall t, u :: t in ops && u in ops && t != u && ops[t].Inside? && ops[u].Inside? ==> ops[t].slot != ops[u].slot
  }
  /** No visitor is in a bucket whose sweep has begun. */
  ghost predicate VisitsOk(ops: map<nat, Operation>, begun: set<Id>) {
    forall t :: t in ops && ops[t].Visiting? ==> ops[t].slot.bucket !in begun
  }
  ghost predicate OpsOk(w: World) {
    Exclusive(w.ops) && forall t :: t in w.ops ==> OpOk(w, t, w.ops[t])
  }

  /** Everything but the operations and the locks. */
  ghost predicate DataOk(w: World) {
    && LedgerOk(w.led, w.uploadIds, w.bucketIds)
    && RowsOk(w.led.objects, w.gens, w.mapped, w.content)
    && MappedOk(w.mapped, w.gens)
    && Present(w.led.objects, w.blobs, w.content, w.begun, w.dangling)
    && Absent(w.led.objects, w.blobs, w.dangling)
    && RetiredOk(w.retired, w.led.objects, w.blobs, w.mapped)
    && SweptOk(w.worker, w.cleared, w.begun, w.blobs)
    && BegunOk(w.begun, w.cleared, w.bucketIds, w.led)
    && BlobsOk(w.blobs, w.gens)
  }

  ghost predicate Inv(w: World) {
    DataOk(w) && LocksOk(w.ops, w.locks, w.worker) && OpsOk(w) && VisitsOk(w.ops, w.begun)
  }

  // ---------- Names ----------

  lemma SameTarget(slot: Slot, g: nat, slot': Slot, g': nat)
    requires NoSlash(slot.bucket) && NoSlash(slot'.bucket)
    requires Physical(slot.bucket, g, slot.key) == Physical(slot'.bucket, g', slot'.key)
    ensures g == g' && slot.bucket == slot'.bucket
  {
    PhysicalInjective(slot.bucket, g, slot.key, slot'.bucket, g', slot'.key);
  }

  /** A generation nobody has drawn yet names a key nothing has yet. */
  lemma FreshKey(slot: Slot, g: nat, gens: map<nat, nat>, mapped: set<string>)
    requires NoSlash(slot.bucket) && g !in gens && MappedOk(mapped, gens)
    ensures Physical(slot.bucket, g, slot.key) !in mapped
  {
    var p := Physical(slot.bucket, g, slot.key);
    if p in mapped {
      var s: Slot :| NoSlash(s.bucket) && Named(s, p, gens);
      var h :| h in gens && p == Physical(s.bucket, h, s.key);
      SameTarget(slot, g, s, h);
    }
  }

  lemma NothingAtFreshKey(slot: Slot, g: nat, gens: map<nat, nat>, blobs: map<Loc, Blob>, source: Id)
    requires NoSlash(slot.bucket) && g !in gens && BlobsOk(blobs, gens)
    ensures Target(source, slot, g) !in blobs
  {
    var at := Target(source, slot, g);
    if at in blobs {
      if IsStaging(at.key) {
        var b, u, k :| at.key == Staging(b, u, k);
        NamespacesAreDisjoint(slot.bucket, g, slot.key, b, u, k);
      } else {
        var s: Slot :| NoSlash(s.bucket) && Named(s, at.key, gens);
        var h :| h in gens && at.key == Physical(s.bucket, h, s.key);
        SameTarget(slot, g, s, h);
      }
    }
  }

  lemma DrawnIsNotStaging(key: string, gens: map<nat, nat>)
    requires Drawn(key, gens)
    ensures !IsStaging(key)
  {
    var s: Slot :| NoSlash(s.bucket) && Named(s, key, gens);
    var g :| g in gens && key == Physical(s.bucket, g, s.key);
    forall b, u, k ensures key != Staging(b, u, k) { NamespacesAreDisjoint(s.bucket, g, s.key, b, u, k); }
  }

  lemma StagingIsOutside(key: string, b: Id)
    requires IsStaging(key)
    ensures !(FinalPrefix(b) <= key)
  {
    var c, u, k :| key == Staging(c, u, k);
    NamespacesAreDisjoint(b, 0, "", c, u, k);
  }

  lemma NamedIsOwn(slot: Slot, key: string, gens: map<nat, nat>, b: Id)
    requires NoSlash(slot.bucket) && NoSlash(b) && Named(slot, key, gens)
    ensures FinalPrefix(b) <= key <==> b == slot.bucket
    ensures !(StagingPrefix(b) <= key)
  {
    var g :| g in gens && key == Physical(slot.bucket, g, slot.key);
    PurgeIsIsolated(b, slot.bucket, g, "", slot.key);
    NamespacesAreDisjoint(b, g, "", slot.bucket, "", slot.key);
  }
}

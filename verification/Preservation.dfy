/**
 Every step keeps the invariant: the locks, then the data, then each operation's own facts.
 */
module Preservation {
  import opened Sums
  import opened Ledger
  import opened Names
  import opened Protocol
  import opened Invariants

  // ---------- Locks ----------

  lemma HoldsPut(ops: map<nat, Operation>, t: nat, op: Operation)
    ensures forall b {:trigger Holds(b)} :: Sum(ops[t := op], Holds(b)) == Sum(ops, Holds(b)) - At(ops, Holds(b), t) + Holds(b)(t, op)
  {
    forall b { Sums.Put(ops, Holds(b), t, op); }
  }
  lemma HoldsDrop(ops: map<nat, Operation>, t: nat)
    ensures forall b {:trigger Holds(b)} :: Sum(ops - {t}, Holds(b)) == Sum(ops, Holds(b)) - At(ops, Holds(b), t)
  {
    forall b { Drop(ops, Holds(b), t); }
  }
  lemma HolderCounts(ops: map<nat, Operation>, t: nat)
    requires t in ops && !ops[t].Knocking?
    ensures 1 <= Sum(ops, Holds(ops[t].slot.bucket))
  {
    NonNegative(ops, Holds(ops[t].slot.bucket));
    assert Holds(ops[t].slot.bucket)(t, ops[t]) == 1;
  }

  /** An operation that keeps its hold changes no lock. */
  lemma LocksMove(ops: map<nat, Operation>, locks: map<Id, Mutex>, worker: Worker, t: nat, op: Operation)
    requires LocksOk(ops, locks, worker)
    requires if t in ops then op.slot == ops[t].slot && (op.Knocking? <==> ops[t].Knocking?) else op.Knocking?
    ensures LocksOk(ops[t := op], locks, worker)
  {
    HoldsPut(ops, t, op);
  }

  lemma LocksLeave(ops: map<nat, Operation>, locks: map<Id, Mutex>, worker: Worker, t: nat)
    requires LocksOk(ops, locks, worker) && t in ops
    ensures LocksOk(ops - {t}, if ops[t].Knocking? then locks else Release(locks, ops[t].slot.bucket), worker)
  {
    HoldsDrop(ops, t);
    if !ops[t].Knocking? { HolderCounts(ops, t); }
  }

  lemma LocksTake(ops: map<nat, Operation>, locks: map<Id, Mutex>, worker: Worker, t: nat)
    requires LocksOk(ops, locks, worker) && t in ops && ops[t].Knocking? && !LockOf(locks, ops[t].slot.bucket).writer
    ensures var b := ops[t].slot.bucket;
      LocksOk(ops[t := Entering(ops[t].slot, ops[t].task)], locks[b := Mutex(LockOf(locks, b).readers + 1, false)], worker)
  {
    HoldsPut(ops, t, Entering(ops[t].slot, ops[t].task));
  }

  // ---------- Data ----------

  lemma WriteKeeps(w: World, at: Loc, blob: Blob)
    requires DataOk(w) && (IsStaging(at.key) || Drawn(at.key, w.gens)) && at.key !in w.mapped
    requires forall b :: b in w.begun ==> !(FinalPrefix(b) <= at.key)
    ensures DataOk(w.(blobs := w.blobs[at := blob]))
  {
  }

  lemma EraseKeeps(w: World, at: Loc)
    requires DataOk(w)
    requires forall s :: s in w.led.objects && s.bucket !in w.begun && s !in w.dangling ==> Place(w.led.objects[s]) != at
    ensures DataOk(w.(blobs := w.blobs - {at}))
  {
  }

  lemma DrawKeeps(w: World, g: nat, t: nat)
    requires DataOk(w) && g !in w.gens
    ensures DataOk(w.(gens := w.gens[g := t]))
  {
    forall s | s in w.led.objects ensures Named(s, w.led.objects[s].physical, w.gens[g := t]) {
      var h :| h in w.gens && w.led.objects[s].physical == Physical(s.bucket, h, s.key);
      assert h in w.gens[g := t];
    }
    forall p | Drawn(p, w.gens) ensures Drawn(p, w.gens[g := t]) {
      var s: Slot :| NoSlash(s.bucket) && Named(s, p, w.gens);
      var h :| h in w.gens && p == Physical(s.bucket, h, s.key);
      assert h in w.gens[g := t] && Named(s, p, w.gens[g := t]);
    }
  }

  /** Deleting the bytes of one object leaves only its own key dangling. */
  lemma UnplaceKeeps(w: World, slot: Slot)
    requires DataOk(w) && slot in w.led.objects
    ensures DataOk(w.(blobs := w.blobs - {Place(w.led.objects[slot])}, dangling := w.dangling + {slot}))
  {
    UnplacePresent(w.led.objects, w.blobs, w.content, w.begun, w.dangling, slot);
  }
  lemma UnplacePresent(objects: map<Slot, Object>, blobs: map<Loc, Blob>, content: map<Slot, Blob>,
                       begun: set<Id>, dangling: set<Slot>, slot: Slot)
    requires ObjectsDistinct(objects) && slot in objects
    requires Present(objects, blobs, content, begun, dangling) && Absent(objects, blobs, dangling)
    ensures Present(objects, blobs - {Place(objects[slot])}, content, begun, dangling + {slot})
    ensures Absent(objects, blobs - {Place(objects[slot])}, dangling + {slot})
  {
  }

  /** Putting them back where the row says heals it. */
  lemma ReplaceKeeps(w: World, slot: Slot)
    requires DataOk(w) && slot in w.led.objects && slot.bucket !in w.begun && slot in w.content
    ensures DataOk(w.(blobs := w.blobs[Place(w.led.objects[slot]) := w.content[slot]], dangling := w.dangling - {slot}))
  {
    hide Present, Absent, UploadsFit, UploadsDistinct, LinksFit, DeletionsFit, FinalPrefix, StagingPrefix;
    assert Drawn(w.led.objects[slot].physical, w.gens);
    forall b | b in w.begun ensures !(FinalPrefix(b) <= w.led.objects[slot].physical) {
      NamedIsOwn(slot, w.led.objects[slot].physical, w.gens, b);
    }
    ReplacePresent(w.led.objects, w.blobs, w.content, w.begun, w.dangling, slot);
  }
  lemma ReplacePresent(objects: map<Slot, Object>, blobs: map<Loc, Blob>, content: map<Slot, Blob>,
                       begun: set<Id>, dangling: set<Slot>, slot: Slot)
    requires ObjectsDistinct(objects) && slot in objects && slot in content
    requires Present(objects, blobs, content, begun, dangling) && Absent(objects, blobs, dangling)
    ensures Present(objects, blobs[Place(objects[slot]) := content[slot]], content, begun, dangling - {slot})
    ensures Absent(objects, blobs[Place(objects[slot]) := content[slot]], dangling - {slot})
  {
  }

  // ---------- The other operations ----------

  /** What a step must leave alone for everyone ... */
  ghost predicate KeptForAll(w: World, w': World) {
    && w.uploadIds <= w'.uploadIds && w.mapped <= w'.mapped && w.bucketIds <= w'.bucketIds
    && (forall g :: g in w.gens ==> g in w'.gens && w'.gens[g] == w.gens[g])
    && (forall s :: s in w'.led.objects ==>
          w'.led.objects[s].physical !in w.mapped || (s in w.led.objects && w.led.objects[s].physical == w'.led.objects[s].physical))
  }
  /** ... and for the thread `u` working at `slot`. */
  ghost predicate KeptAt(w: World, w': World, u: nat, slot: Slot) {
    && slot.bucket !in w'.begun
    && (slot in w.led.objects <==> slot in w'.led.objects)
    && (slot in w.led.objects ==> w'.led.objects[slot] == w.led.objects[slot])
    && (slot in w'.led.uploads ==>
          (slot in w.led.uploads && w'.led.uploads[slot] == w.led.uploads[slot]) || w'.led.uploads[slot].id !in w.uploadIds)
    && (slot in w.content ==> slot in w'.content && w'.content[slot] == w.content[slot])
    && (slot in w.dangling ==> slot in w'.dangling)
    && (forall g :: Own(w, u, slot, g) ==> Physical(slot.bucket, g, slot.key) !in w'.mapped)
    && (forall g, source :: Own(w, u, slot, g) && Target(source, slot, g) in w.blobs ==>
          Target(source, slot, g) in w'.blobs && w'.blobs[Target(source, slot, g)] == w.blobs[Target(source, slot, g)])
  }

  lemma TaskKept(w: World, w': World, u: nat, slot: Slot, task: Task)
    requires KeptForAll(w, w') && KeptAt(w, w', u, slot) && TaskOk(w, u, slot, task)
    ensures TaskOk(w', u, slot, task)
  {
    match task
    case CommitVerified(up, gen) => assert Own(w, u, slot, gen) && Target(up.source, slot, gen) in w.blobs;
    case RotateCopied(row, gen) => assert Own(w, u, slot, gen) && Target(row.source, slot, gen) in w.blobs;
    case RotateMoved(row, gen) => assert Own(w, u, slot, gen) && Target(row.source, slot, gen) in w.blobs;
    case RotateUndoing(row, gen) => assert Own(w, u, slot, gen) && Target(row.source, slot, gen) in w.blobs;
    case _ =>
  }

  lemma OthersKept(w: World, w': World, t: nat, op: Operation)
    requires OpsOk(w) && KeptForAll(w, w') && w'.ops == w.ops[t := op]
    requires forall u :: u in w.ops && u != t && w.ops[u].Inside? ==> KeptAt(w, w', u, w.ops[u].slot)
    requires OpOk(w', t, op)
    requires op.Inside? ==> t in w.ops && w.ops[t].slot == op.slot && w.ops[t].Inside?
    ensures OpsOk(w')
  {
    forall u | u in w'.ops ensures OpOk(w', u, w'.ops[u]) {
      if u != t && w.ops[u].Inside? { TaskKept(w, w', u, w.ops[u].slot, w.ops[u].task); }
    }
  }

  lemma AllKept(w: World, w': World)
    requires OpsOk(w) && KeptForAll(w, w') && w'.ops == w.ops
    requires forall u :: u in w.ops && w.ops[u].Inside? ==> KeptAt(w, w', u, w.ops[u].slot)
    ensures OpsOk(w')
  {
    forall u | u in w'.ops ensures OpOk(w', u, w'.ops[u]) {
      if w.ops[u].Inside? { TaskKept(w, w', u, w.ops[u].slot, w.ops[u].task); }
    }
  }

  /** Keys a thread may write or delete: once mapped, staging, or made from its own draw. */
  ghost predicate Mine(w: World, t: nat, key: string) {
    || key in w.mapped || IsStaging(key)
    || exists s: Slot, g :: NoSlash(s.bucket) && g in w.gens && w.gens[g] == t && key == Physical(s.bucket, g, s.key)
  }

  lemma NotTheirs(w: World, t: nat, key: string, u: nat, slot: Slot, g: nat)
    requires Mine(w, t, key) && u != t && Own(w, u, slot, g) && NoSlash(slot.bucket)
    ensures Physical(slot.bucket, g, slot.key) != key
  {
    if IsStaging(key) {
      assert Named(slot, Physical(slot.bucket, g, slot.key), w.gens);
      DrawnIsNotStaging(Physical(slot.bucket, g, slot.key), w.gens);
    } else if key !in w.mapped {
      var s: Slot, h :| NoSlash(s.bucket) && h in w.gens && w.gens[h] == t && key == Physical(s.bucket, h, s.key);
      if key == Physical(slot.bucket, g, slot.key) { SameTarget(s, h, slot, g); }
    }
  }

  /** A world that differs from `w` only in its bytes at `at`. */
  ghost predicate Only(w: World, w': World, at: Loc) {
    && w'.led == w.led && w'.gens == w.gens && w'.mapped == w.mapped && w'.content == w.content && w'.begun == w.begun
    && w'.uploadIds == w.uploadIds && w'.bucketIds == w.bucketIds
    && forall l :: l != at ==> (l in w.blobs <==> l in w'.blobs) && (l in w.blobs ==> w'.blobs[l] == w.blobs[l])
  }

  lemma BytesKept(w: World, w': World, t: nat, at: Loc)
    requires LedgerOk(w.led, w.uploadIds, w.bucketIds) && OpsOk(w) && RowsOk(w.led.objects, w.gens, w.mapped, w.content)
    requires Only(w, w', at) && Mine(w, t, at.key)
    requires forall s :: s in w.dangling && s !in w'.dangling ==> t in w.ops && w.ops[t].slot == s && w.ops[t].Inside?
    ensures KeptForAll(w, w')
    ensures forall u :: u in w.ops && u != t && w.ops[u].Inside? ==> KeptAt(w, w', u, w.ops[u].slot)
  {
    forall u | u in w.ops && u != t && w.ops[u].Inside? ensures KeptAt(w, w', u, w.ops[u].slot) {
      var slot := w.ops[u].slot;
      forall g | Own(w, u, slot, g) ensures Physical(slot.bucket, g, slot.key) != at.key { NotTheirs(w, t, at.key, u, slot, g); }
    }
  }
}

/**
 The invariant, step by step, and so over every run.
 */
module Stepwise {
  import opened Sums
  import opened Ledger
  import opened Names
  import opened Protocol
  import opened Invariants
  import opened Preservation

  // ---------- Coming, waiting and going ----------

  lemma KnockKeeps(w: World, t: nat, slot: Slot, task: Task)
    requires Inv(w) && t !in w.ops && IsStart(task) && Active(w.led, slot.bucket)
    ensures Inv(w.(ops := w.ops[t := Knocking(slot, task)]))
  {
    LocksMove(w.ops, w.locks, w.worker, t, Knocking(slot, task));
    OthersKept(w, w.(ops := w.ops[t := Knocking(slot, task)]), t, Knocking(slot, task));
  }

  lemma LockKeeps(w: World, c: Limits, t: nat)
    requires Inv(w) && Enabled(w, c, Lock(t))
    ensures Inv(Do(w, c, Lock(t)))
  {
    hide LocksOk, TaskOk, WellFormed, MappedOk, RetiredOk, SweptOk, BegunOk, BlobsOk, Present, Absent, RowsOk, Physical;
    LocksTake(w.ops, w.locks, w.worker, t);
    OthersKept(w, Do(w, c, Lock(t)), t, Entering(w.ops[t].slot, w.ops[t].task));
  }

  lemma EnterKeeps(w: World, c: Limits, t: nat)
    requires Inv(w) && Enabled(w, c, Enter(t))
    ensures Inv(Do(w, c, Enter(t)))
  {
    hide WellFormed, MappedOk, RetiredOk, SweptOk, BlobsOk, Present, Absent, RowsOk, LocksOk, Physical;
    var w' := Do(w, c, Enter(t));
    LocksMove(w.ops, w.locks, w.worker, t, w'.ops[t]);
    forall u | u in w'.ops ensures OpOk(w', u, w'.ops[u]) {
      if u != t && w.ops[u].Inside? { TaskKept(w, w', u, w.ops[u].slot, w.ops[u].task); }
    }
  }

  lemma GoneKeeps(w: World, t: nat)
    requires Inv(w) && t in w.ops
    ensures Inv(w.(ops := w.ops - {t}, locks := if w.ops[t].Knocking? then w.locks else Release(w.locks, w.ops[t].slot.bucket)))
  {
    LocksLeave(w.ops, w.locks, w.worker, t);
    GoneOps(w, t, if w.ops[t].Knocking? then w.locks else Release(w.locks, w.ops[t].slot.bucket));
  }
  lemma GoneOps(w: World, t: nat, locks: map<Id, Mutex>)
    requires OpsOk(w)
    ensures OpsOk(w.(ops := w.ops - {t}, locks := locks))
  {
    var w' := w.(ops := w.ops - {t}, locks := locks);
    forall u | u in w'.ops ensures OpOk(w', u, w'.ops[u]) {
      if w.ops[u].Inside? { TaskKept(w, w', u, w.ops[u].slot, w.ops[u].task); }
    }
  }

  lemma CrashKeeps(w: World)
    requires Inv(w)
    ensures Inv(w.(ops := map[], locks := map[], worker := Idle))
  {
  }

  // ---------- Calls of an operation ----------

  /** A call that changes nothing but where the operation stands. */
  lemma MoveKeeps(w: World, t: nat, slot: Slot, task: Task)
    requires Inv(w) && t in w.ops && w.ops[t].Inside? && w.ops[t].slot == slot && TaskOk(w, t, slot, task)
    ensures Inv(Move(w, t, slot, task))
  {
    hide WellFormed, MappedOk, RetiredOk, SweptOk, BegunOk, BlobsOk, Present, Absent, RowsOk, LocksOk;
    LocksMove(w.ops, w.locks, w.worker, t, Inside(slot, task));
    var w' := Move(w, t, slot, task);
    TaskKept(w, w', t, slot, task);
    OthersKept(w, w', t, Inside(slot, task));
  }

  /** A call that changes the bytes at one place that is the operation's to change. */
  lemma BytesMove(w: World, w': World, t: nat, slot: Slot, task: Task, at: Loc)
    requires Inv(w) && t in w.ops && w.ops[t].Inside? && w.ops[t].slot == slot
    requires Only(w, w', at) && Mine(w, t, at.key) && w'.ops == w.ops[t := Inside(slot, task)]
    requires w'.locks == w.locks && w'.worker == w.worker
    requires forall s :: s in w.dangling && s !in w'.dangling ==> s == slot
    requires DataOk(w') && TaskOk(w', t, slot, task)
    ensures Inv(w')
  {
    LocksMove(w.ops, w.locks, w.worker, t, Inside(slot, task));
    BytesKept(w, w', t, at);
    OthersKept(w, w', t, Inside(slot, task));
  }

  lemma EraseMove(w: World, t: nat, slot: Slot, task: Task, at: Loc)
    requires Inv(w) && t in w.ops && w.ops[t].Inside? && w.ops[t].slot == slot
    requires Mine(w, t, at.key) && forall s :: s in w.led.objects ==> w.led.objects[s].physical != at.key
    requires TaskOk(w.(blobs := w.blobs - {at}), t, slot, task)
    ensures Inv(Move(w, t, slot, task).(blobs := w.blobs - {at}))
  {
    hide WellFormed, MappedOk, RetiredOk, SweptOk, BegunOk, BlobsOk, RowsOk, LocksOk;
    EraseKeeps(w, at);
    var w' := Move(w, t, slot, task).(blobs := w.blobs - {at});
    TaskKept(w.(blobs := w.blobs - {at}), w', t, slot, task);
    BytesMove(w, w', t, slot, task, at);
  }

  lemma StagingIsNoRow(w: World, key: string)
    requires RowsOk(w.led.objects, w.gens, w.mapped, w.content) && LedgerOk(w.led, w.uploadIds, w.bucketIds) && IsStaging(key)
    ensures forall s :: s in w.led.objects ==> w.led.objects[s].physical != key
  {
    forall s | s in w.led.objects ensures w.led.objects[s].physical != key {
      assert NoSlash(s.bucket) && Named(s, w.led.objects[s].physical, w.gens);
      DrawnIsNotStaging(w.led.objects[s].physical, w.gens);
    }
  }

  /** Copying to a key made from a fresh generation. */
  lemma CopyMove(w: World, t: nat, slot: Slot, task: Task, source: Id, g: nat, blob: Blob)
    requires Inv(w) && t in w.ops && w.ops[t].Inside? && w.ops[t].slot == slot && g !in w.gens
    requires var at := Target(source, slot, g);
      TaskOk(w.(blobs := w.blobs[at := blob], gens := w.gens[g := t]), t, slot, task)
    ensures var at := Target(source, slot, g);
      Inv(Move(w, t, slot, task).(blobs := w.blobs[at := blob], gens := w.gens[g := t]))
  {
    hide WellFormed, MappedOk, RetiredOk, SweptOk, BlobsOk, Present, Absent, RowsOk, LocksOk;
    var at := Target(source, slot, g);
    var w1 := w.(gens := w.gens[g := t]);
    DrawMoves(w, t, g);
    assert OpOk(w, t, w.ops[t]);
    CopyFits(w, slot, at, g, t);
    WriteKeeps(w1, at, blob);
    assert NoSlash(slot.bucket) && g in w1.gens && w1.gens[g] == t && at.key == Physical(slot.bucket, g, slot.key);
    var w' := Move(w, t, slot, task).(blobs := w.blobs[at := blob], gens := w.gens[g := t]);
    TaskKept(w1.(blobs := w.blobs[at := blob]), w', t, slot, task);
    BytesMove(w1, w', t, slot, task, at);
  }
  lemma CopyFits(w: World, slot: Slot, at: Loc, g: nat, t: nat)
    requires DataOk(w) && slot.bucket in w.bucketIds && slot.bucket !in w.begun && g !in w.gens
    requires at.key == Physical(slot.bucket, g, slot.key)
    ensures NoSlash(slot.bucket) && at.key !in w.mapped && Drawn(at.key, w.gens[g := t])
    ensures forall b :: b in w.begun ==> !(FinalPrefix(b) <= at.key)
  {
    hide WellFormed, RetiredOk, SweptOk, BlobsOk, Present, Absent, RowsOk;
    var gens := w.gens[g := t];
    FreshKey(slot, g, w.gens, w.mapped);
    assert g in gens && Named(slot, at.key, gens);
    forall b | b in w.begun ensures !(FinalPrefix(b) <= at.key) { NamedIsOwn(slot, at.key, gens, b); }
  }
  lemma DrawMoves(w: World, t: nat, g: nat)
    requires Inv(w) && t in w.ops && g !in w.gens
    ensures Inv(w.(gens := w.gens[g := t]))
  {
    DrawKeeps(w, g, t);
    var w1 := w.(gens := w.gens[g := t]);
    forall u | u in w.ops && w.ops[u].Inside? ensures TaskOk(w1, u, w.ops[u].slot, w.ops[u].task) {
      assert TaskOk(w, u, w.ops[u].slot, w.ops[u].task);
    }
  }
}

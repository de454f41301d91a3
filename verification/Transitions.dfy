/**
 The remaining steps: the calls that change an object's row or its bytes, the environment,
 and the worker; then the invariant over every run.
 */
module Transitions {
  import opened Sums
  import opened Ledger
  import opened Names
  import opened Protocol
  import opened Invariants
  import opened Preservation
  import opened Stepwise
  import opened Quota
  import opened Counts

  ghost predicate Working(w: World, t: nat, slot: Slot, task: Task) {
    Inv(w) && t in w.ops && w.ops[t] == Inside(slot, task)
  }

  lemma IdIsSlot(objects: map<Slot, Object>, slot: Slot)
    requires ObjectsDistinct(objects) && slot in objects
    ensures ObjectHas(objects, objects[slot].id) && ObjectSlot(objects, objects[slot].id) == slot
  {
  }

  // ---------- Rows change ----------

  /** The data once a key points at a place that holds its bytes and never was mapped. */
  lemma MapKeeps(w: World, led: Tables, slot: Slot, blob: Blob)
    requires DataOk(w) && LedgerOk(led, w.uploadIds, w.bucketIds)
    requires led.buckets == w.led.buckets && led.deletions == w.led.deletions
    requires slot in led.objects && led.objects == w.led.objects[slot := led.objects[slot]]
    requires var row := led.objects[slot];
      row.physical !in w.mapped && Named(slot, row.physical, w.gens) && row.size == |blob|
      && Place(row) in w.blobs && w.blobs[Place(row)] == blob
    ensures DataOk(w.(led := led, mapped := w.mapped + {led.objects[slot].physical},
                      content := w.content[slot := blob], dangling := w.dangling - {slot}))
  {
    MapMapped(w, led, slot);
    MapRows(w, led, slot, blob);
  }
  lemma MapMapped(w: World, led: Tables, slot: Slot)
    requires DataOk(w) && LedgerOk(led, w.uploadIds, w.bucketIds)
    requires slot in led.objects && led.objects == w.led.objects[slot := led.objects[slot]]
    requires led.objects[slot].physical !in w.mapped && Named(slot, led.objects[slot].physical, w.gens)
    ensures MappedOk(w.mapped + {led.objects[slot].physical}, w.gens)
    ensures RetiredOk(w.retired, led.objects, w.blobs, w.mapped + {led.objects[slot].physical})
  {
    hide RowsOk, Present, Absent, SweptOk, BegunOk, BlobsOk, Physical;
    hide ObjectsDistinct, UploadsFit, UploadsDistinct, LinksFit, DeletionsFit;
    assert NoSlash(slot.bucket) && Drawn(led.objects[slot].physical, w.gens);
  }
  lemma MapRows(w: World, led: Tables, slot: Slot, blob: Blob)
    requires DataOk(w)
    requires slot in led.objects && led.objects == w.led.objects[slot := led.objects[slot]]
    requires var row := led.objects[slot];
      Named(slot, row.physical, w.gens) && row.size == |blob| && Place(row) in w.blobs && w.blobs[Place(row)] == blob
    ensures RowsOk(led.objects, w.gens, w.mapped + {led.objects[slot].physical}, w.content[slot := blob])
    ensures Present(led.objects, w.blobs, w.content[slot := blob], w.begun, w.dangling - {slot})
    ensures Absent(led.objects, w.blobs, w.dangling - {slot})
  {
    hide WellFormed, MappedOk, RetiredOk, SweptOk, BegunOk, BlobsOk, Physical, LedgerOk;
  }

  /** A step that changes the row, the upload and the history of one key only, and maps it to
      a key of the thread's own making if to any. */
  ghost predicate RowOnly(w: World, w': World, t: nat, slot: Slot) {
    && w'.blobs == w.blobs && w'.gens == w.gens && w'.begun == w.begun && w'.uploadIds == w.uploadIds && w'.bucketIds == w.bucketIds
    && w'.locks == w.locks && w'.worker == w.worker
    && (forall s :: s != slot ==>
          && (s in w.led.objects <==> s in w'.led.objects) && (s in w.led.objects ==> w'.led.objects[s] == w.led.objects[s])
          && (s in w'.led.uploads ==> s in w.led.uploads && w'.led.uploads[s] == w.led.uploads[s])
          && (s in w.content ==> s in w'.content && w'.content[s] == w.content[s])
          && (s in w.dangling ==> s in w'.dangling))
    && w.mapped <= w'.mapped
    && (forall p :: p in w'.mapped && p !in w.mapped ==>
          exists g :: g in w.gens && w.gens[g] == t && p == Physical(slot.bucket, g, slot.key))
    && (slot in w'.led.objects ==> w'.led.objects[slot].physical !in w.mapped)
  }

  /** Nobody else is working on this key, so nobody else sees its row change. */
  lemma RowKept(w: World, w': World, t: nat, slot: Slot)
    requires OpsOk(w) && LedgerOk(w.led, w.uploadIds, w.bucketIds) && t in w.ops && w.ops[t].Inside? && w.ops[t].slot == slot
    requires RowOnly(w, w', t, slot)
    ensures KeptForAll(w, w')
    ensures forall u :: u in w.ops && u != t && w.ops[u].Inside? ==> KeptAt(w, w', u, w.ops[u].slot)
  {
    forall u | u in w.ops && u != t && w.ops[u].Inside? ensures KeptAt(w, w', u, w.ops[u].slot) {
      var s := w.ops[u].slot;
      forall g | Own(w, u, s, g) ensures Physical(s.bucket, g, s.key) !in w'.mapped {
        var p := Physical(s.bucket, g, s.key);
        if p in w'.mapped {
          var h :| h in w.gens && w.gens[h] == t && p == Physical(slot.bucket, h, slot.key);
          SameTarget(s, g, slot, h);
        }
      }
    }
  }

  lemma RowMove(w: World, w': World, t: nat, slot: Slot, task: Task)
    requires LocksOk(w.ops, w.locks, w.worker) && OpsOk(w) && VisitsOk(w.ops, w.begun)
    requires LedgerOk(w.led, w.uploadIds, w.bucketIds) && t in w.ops && w.ops[t].Inside? && w.ops[t].slot == slot
    requires w'.ops == w.ops[t := Inside(slot, task)] && RowOnly(w, w', t, slot)
    requires DataOk(w') && TaskOk(w', t, slot, task)
    ensures Inv(w')
  {
    LocksMove(w.ops, w.locks, w.worker, t, Inside(slot, task));
    RowKept(w, w', t, slot);
    assert OpOk(w, t, w.ops[t]);
    OthersKept(w, w', t, Inside(slot, task));
  }

  lemma CommitKeeps(w: World, t: nat, slot: Slot, up: Upload, gen: nat)
    requires Working(w, t, slot, CommitVerified(up, gen)) && CanAct(w, slot, CommitVerified(up, gen), true, 0)
    ensures Inv(Call(w, t, slot, CommitVerified(up, gen), true, 0))
  {
    var w' := Call(w, t, slot, CommitVerified(up, gen), true, 0);
    CommitData(w, t, slot, up, gen);
    CommitTask(w, t, slot, up, gen);
    CommitRow(w, t, slot, up, gen);
    RowMove(w, w', t, slot, w'.ops[t].task);
  }
  lemma CommitRow(w: World, t: nat, slot: Slot, up: Upload, gen: nat)
    requires Own(w, t, slot, gen) && CanAct(w, slot, CommitVerified(up, gen), true, 0)
    ensures RowOnly(w, Call(w, t, slot, CommitVerified(up, gen), true, 0), t, slot)
  {
  }
  lemma CommitData(w: World, t: nat, slot: Slot, up: Upload, gen: nat)
    requires Working(w, t, slot, CommitVerified(up, gen)) && CanAct(w, slot, CommitVerified(up, gen), true, 0)
    ensures DataOk(Call(w, t, slot, CommitVerified(up, gen), true, 0))
  {
    hide WellFormed, MappedOk, RetiredOk, SweptOk, BegunOk, BlobsOk, Present, Absent, RowsOk, LocksOk;
    var at := Target(up.source, slot, gen);
    var led := Call(w, t, slot, CommitVerified(up, gen), true, 0).led;
    assert OpOk(w, t, w.ops[t]);
    CommitKeepsWellFormed(w.led, slot, up.id, at.key, up.size);
    assert led.objects == w.led.objects[slot := led.objects[slot]] && Place(led.objects[slot]) == at;
    MapKeeps(w, led, slot, w.blobs[at]);
  }
  /** The replaced object's place is mapped, and no row points at it any more. */
  lemma CommitTask(w: World, t: nat, slot: Slot, up: Upload, gen: nat)
    requires Working(w, t, slot, CommitVerified(up, gen)) && CanAct(w, slot, CommitVerified(up, gen), true, 0)
    ensures Own(w, t, slot, gen)
    ensures var w' := Call(w, t, slot, CommitVerified(up, gen), true, 0); TaskOk(w', t, slot, w'.ops[t].task)
  {
    assert OpOk(w, t, w.ops[t]);
  }

  lemma SwitchKeeps(w: World, t: nat, slot: Slot, row: Object, gen: nat)
    requires Working(w, t, slot, RotateMoved(row, gen)) && CanAct(w, slot, RotateMoved(row, gen), true, 0)
    ensures Inv(Call(w, t, slot, RotateMoved(row, gen), true, 0))
  {
    var w' := Call(w, t, slot, RotateMoved(row, gen), true, 0);
    SwitchData(w, t, slot, row, gen);
    SwitchLedger(w, t, slot, row, gen);
    SwitchRow(w, w', t, slot, row, gen);
    RowMove(w, w', t, slot, Finished);
  }
  lemma SwitchRow(w: World, w': World, t: nat, slot: Slot, row: Object, gen: nat)
    requires CanAct(w, slot, RotateMoved(row, gen), true, 0) && w' == Call(w, t, slot, RotateMoved(row, gen), true, 0)
    requires RowIs(w, slot, row) && Own(w, t, slot, gen)
    requires w'.led == w.led.(objects := w.led.objects[slot := row.(physical := Physical(slot.bucket, gen, slot.key), generation := gen)])
    ensures RowOnly(w, w', t, slot)
  {
  }
  lemma SwitchLedger(w: World, t: nat, slot: Slot, row: Object, gen: nat)
    requires Working(w, t, slot, RotateMoved(row, gen)) && CanAct(w, slot, RotateMoved(row, gen), true, 0)
    ensures RowIs(w, slot, row) && Own(w, t, slot, gen) && Copied(w, slot, row, gen) && slot in w.dangling
    ensures Call(w, t, slot, RotateMoved(row, gen), true, 0).led
         == w.led.(objects := w.led.objects[slot := row.(physical := Physical(slot.bucket, gen, slot.key), generation := gen)])
  {
    assert OpOk(w, t, w.ops[t]);
    IdIsSlot(w.led.objects, slot);
  }
  lemma SwitchData(w: World, t: nat, slot: Slot, row: Object, gen: nat)
    requires Working(w, t, slot, RotateMoved(row, gen)) && CanAct(w, slot, RotateMoved(row, gen), true, 0)
    ensures DataOk(Call(w, t, slot, RotateMoved(row, gen), true, 0))
  {
    var w' := Call(w, t, slot, RotateMoved(row, gen), true, 0);
    SwitchLedger(w, t, slot, row, gen);
    RotateKeepsWellFormed(w.led, row.id, Physical(slot.bucket, gen, slot.key), gen);
    SwitchMaps(w, w'.led, t, slot, row, gen);
    RetireKeeps(w, w', slot, row);
    Retiring(w', w.retired + {Place(row)}, w.(led := w'.led, mapped := w'.mapped, dangling := w'.dangling));
  }
  lemma Retiring(w': World, retired: set<Loc>, w1: World)
    requires DataOk(w1) && w' == w1.(ops := w'.ops, retired := retired) && RetiredOk(retired, w1.led.objects, w1.blobs, w1.mapped)
    ensures DataOk(w')
  {
  }
  lemma SwitchMaps(w: World, led: Tables, t: nat, slot: Slot, row: Object, gen: nat)
    requires DataOk(w) && RowIs(w, slot, row) && Own(w, t, slot, gen) && Copied(w, slot, row, gen) && WellFormed(led)
    requires led == w.led.(objects := w.led.objects[slot := row.(physical := Physical(slot.bucket, gen, slot.key), generation := gen)])
    ensures DataOk(w.(led := led, mapped := w.mapped + {Physical(slot.bucket, gen, slot.key)}, dangling := w.dangling - {slot}))
  {
    hide WellFormed, MappedOk, Present, Absent, RetiredOk, SweptOk, BegunOk, BlobsOk;
    MapKeeps(w, led, slot, w.content[slot]);
    assert w.content[slot := w.content[slot]] == w.content;
  }
  /** The old place is empty, and no row points at it any more. */
  lemma RetireKeeps(w: World, w': World, slot: Slot, row: Object)
    requires DataOk(w) && RowIs(w, slot, row) && slot in w.dangling
    requires slot in w'.led.objects && w'.led.objects == w.led.objects[slot := w'.led.objects[slot]]
    requires w'.led.objects[slot].physical !in w.mapped
    requires w'.blobs == w.blobs && w'.mapped == w.mapped + {w'.led.objects[slot].physical}
    ensures RetiredOk(w.retired + {Place(row)}, w'.led.objects, w'.blobs, w'.mapped)
  {
  }

  lemma RemoveKeeps(w: World, t: nat, slot: Slot, row: Object)
    requires Working(w, t, slot, DeleteGone(row))
    ensures Inv(Call(w, t, slot, DeleteGone(row), true, 0))
  {
    var w' := Call(w, t, slot, DeleteGone(row), true, 0);
    RemoveLedger(w, t, slot, row);
    RemoveData(w, w', slot);
    RemoveRow(w, w', t, slot);
    RowMove(w, w', t, slot, Finished);
  }
  lemma RemoveRow(w: World, w': World, t: nat, slot: Slot)
    requires w'.led == w.led.(objects := w.led.objects - {slot}, links := w'.led.links)
    requires w' == w.(led := w'.led, ops := w'.ops, dangling := w.dangling - {slot})
    ensures RowOnly(w, w', t, slot)
  {
  }
  lemma RemoveLedger(w: World, t: nat, slot: Slot, row: Object)
    requires Working(w, t, slot, DeleteGone(row))
    ensures var led := Call(w, t, slot, DeleteGone(row), true, 0).led;
      WellFormed(led) && led == w.led.(objects := w.led.objects - {slot}, links := led.links)
  {
    assert OpOk(w, t, w.ops[t]);
    IdIsSlot(w.led.objects, slot);
    DeleteKeepsWellFormed(w.led, row.id);
  }
  lemma RemoveData(w: World, w': World, slot: Slot)
    requires DataOk(w) && WellFormed(w'.led) && w'.led == w.led.(objects := w.led.objects - {slot}, links := w'.led.links)
    requires w' == w.(led := w'.led, ops := w'.ops, dangling := w.dangling - {slot})
    ensures DataOk(w')
  {
    hide WellFormed, MappedOk, SweptOk, BlobsOk, RowsOk, RetiredOk;
    FewerRows(w, w'.led.objects);
  }

  // ---------- Bytes of a row change ----------

  lemma TakeKeeps(w: World, t: nat, slot: Slot, row: Object, task: Task)
    requires Inv(w) && t in w.ops && w.ops[t].Inside? && w.ops[t].slot == slot && RowIs(w, slot, row)
    requires TaskOk(w.(blobs := w.blobs - {Place(row)}, dangling := w.dangling + {slot}), t, slot, task)
    ensures Inv(Move(w, t, slot, task).(blobs := w.blobs - {Place(row)}, dangling := w.dangling + {slot}))
  {
    hide WellFormed, MappedOk, RetiredOk, SweptOk, BegunOk, BlobsOk, Present, Absent, LocksOk;
    UnplaceKeeps(w, slot);
    var w1 := w.(blobs := w.blobs - {Place(row)}, dangling := w.dangling + {slot});
    var w' := Move(w, t, slot, task).(blobs := w1.blobs, dangling := w1.dangling);
    TaskKept(w1, w', t, slot, task);
    BytesMove(w, w', t, slot, task, Place(row));
  }

  lemma UndoKeeps(w: World, t: nat, slot: Slot, row: Object, gen: nat)
    requires Working(w, t, slot, RotateUndoing(row, gen)) && CanAct(w, slot, RotateUndoing(row, gen), true, 0)
    ensures Inv(Call(w, t, slot, RotateUndoing(row, gen), true, 0))
  {
    hide WellFormed, MappedOk, RetiredOk, SweptOk, BegunOk, BlobsOk, Present, Absent, LocksOk;
    assert OpOk(w, t, w.ops[t]);
    ReplaceKeeps(w, slot);
    var w' := Call(w, t, slot, RotateUndoing(row, gen), true, 0);
    BytesMove(w, w', t, slot, RotateUndone(row, gen), Place(row));
  }

  lemma RotateTakes(w: World, t: nat, slot: Slot, row: Object, gen: nat)
    requires Working(w, t, slot, RotateCopied(row, gen))
    ensures Inv(Call(w, t, slot, RotateCopied(row, gen), true, 0))
  {
    hide WellFormed, MappedOk, RetiredOk, SweptOk, BegunOk, BlobsOk, Absent, LocksOk;
    assert OpOk(w, t, w.ops[t]);
    TakeKeeps(w, t, slot, row, RotateMoved(row, gen));
  }

  lemma DeleteTakes(w: World, t: nat, slot: Slot, row: Object)
    requires Working(w, t, slot, DeleteFound(row))
    ensures Inv(Call(w, t, slot, DeleteFound(row), true, 0))
  {
    hide WellFormed, MappedOk, RetiredOk, SweptOk, BegunOk, BlobsOk, Absent, LocksOk;
    assert OpOk(w, t, w.ops[t]);
    TakeKeeps(w, t, slot, row, DeleteGone(row));
  }

  // ---------- Other calls ----------

  lemma OwnIsNoRow(w: World, t: nat, slot: Slot, gen: nat)
    requires Inv(w) && slot.bucket in w.bucketIds && Own(w, t, slot, gen)
    ensures Mine(w, t, Physical(slot.bucket, gen, slot.key))
    ensures forall s :: s in w.led.objects ==> w.led.objects[s].physical != Physical(slot.bucket, gen, slot.key)
  {
  }

  lemma CleanupKeeps(w: World, t: nat, slot: Slot, task: Task, ok: bool)
    requires Working(w, t, slot, task) && (task.CommitAborting? || task.CommitStored? || task.CommitCleaning? || task.RotateUndone?)
    ensures Inv(Call(w, t, slot, task, ok, 0))
  {
    hide WellFormed, MappedOk, RetiredOk, SweptOk, BegunOk, BlobsOk, Present, Absent, RowsOk, LocksOk, Physical;
    assert OpOk(w, t, w.ops[t]);
    match task
    case CommitAborting(up, gen) =>
      OwnIsNoRow(w, t, slot, gen);
      if ok { EraseMove(w, t, slot, Finished, Target(up.source, slot, gen)); } else { MoveKeeps(w, t, slot, Finished); }
    case RotateUndone(row, gen) =>
      OwnIsNoRow(w, t, slot, gen);
      if ok { EraseMove(w, t, slot, Finished, Target(row.source, slot, gen)); } else { MoveKeeps(w, t, slot, Finished); }
    case CommitStored(up, replaced) =>
      StagingIsNoRow(w, up.physical);
      if ok {
        EraseMove(w, t, slot, CommitCleaning(replaced), Loc(up.source, up.physical));
      } else {
        MoveKeeps(w, t, slot, CommitCleaning(replaced));
      }
    case CommitCleaning(replaced) =>
      if ok && replaced.Some? { EraseMove(w, t, slot, Finished, replaced.value); } else { MoveKeeps(w, t, slot, Finished); }
  }

  lemma CommitCopies(w: World, t: nat, slot: Slot, up: Upload, g: nat)
    requires Working(w, t, slot, CommitChecked(up)) && CanAct(w, slot, CommitChecked(up), true, g)
    ensures Inv(Call(w, t, slot, CommitChecked(up), true, g))
  {
    hide WellFormed, RetiredOk, SweptOk, BegunOk, BlobsOk, LocksOk, Present, Absent, RowsOk, MappedOk;
    assert OpOk(w, t, w.ops[t]);
    FreshKey(slot, g, w.gens, w.mapped);
    CopyMove(w, t, slot, CommitCopied(up, g), up.source, g, w.blobs[Loc(up.source, up.physical)]);
  }
  lemma RotateCopies(w: World, t: nat, slot: Slot, row: Object, g: nat)
    requires Working(w, t, slot, RotateFound(row)) && CanAct(w, slot, RotateFound(row), true, g)
    ensures Inv(Call(w, t, slot, RotateFound(row), true, g))
  {
    hide WellFormed, RetiredOk, SweptOk, BegunOk, BlobsOk, LocksOk, RowsOk, MappedOk;
    assert OpOk(w, t, w.ops[t]);
    FreshKey(slot, g, w.gens, w.mapped);
    assert slot !in w.dangling;
    CopyMove(w, t, slot, RotateCopied(row, g), row.source, g, w.blobs[Place(row)]);
  }

  /** A call that only looks, or whose failure changes nothing. */
  ghost predicate IsPlain(task: Task, ok: bool) {
    || task.CommitStart? || task.CommitFound? || task.CommitCopied? || task.RotateStart? || task.DeleteStart?
    || ((task.CommitVerified? || task.RotateMoved? || task.RotateUndoing?) && !ok)
  }
  lemma PlainTask(w: World, t: nat, slot: Slot, task: Task, ok: bool, g: nat) returns (next: Task)
    requires LedgerOk(w.led, w.uploadIds, w.bucketIds) && TaskOk(w, t, slot, task)
    requires CanAct(w, slot, task, ok, g) && IsPlain(task, ok)
    ensures Call(w, t, slot, task, ok, g) == Move(w, t, slot, next) && TaskOk(w, t, slot, next)
  {
    hide WellFormed, Physical, OldOk, Copied;
    next := Call(w, t, slot, task, ok, g).ops[t].task;
  }
  lemma PlainKeeps(w: World, t: nat, slot: Slot, task: Task, ok: bool, g: nat)
    requires Working(w, t, slot, task) && CanAct(w, slot, task, ok, g) && IsPlain(task, ok)
    ensures Inv(Call(w, t, slot, task, ok, g))
  {
    hide Call, CanAct, LedgerOk, RowsOk, MappedOk, RetiredOk, SweptOk, BegunOk, BlobsOk, Present, Absent, LocksOk, TaskOk;
    assert OpOk(w, t, w.ops[t]);
    var next := PlainTask(w, t, slot, task, ok, g);
    MoveKeeps(w, t, slot, next);
  }
  lemma OnlyCopiesDraw(w: World, t: nat, slot: Slot, task: Task, ok: bool, g: nat)
    requires CanAct(w, slot, task, ok, g)
    ensures task.CommitChecked? || task.RotateFound? ||
      (CanAct(w, slot, task, ok, 0) && Call(w, t, slot, task, ok, g) == Call(w, t, slot, task, ok, 0))
    ensures task.CommitChecked? || task.RotateFound? || task.RotateCopied? || task.DeleteFound? || task.DeleteGone? ==> ok
  {
  }
  lemma ActKeeps(w: World, t: nat, slot: Slot, task: Task, ok: bool, g: nat)
    requires Working(w, t, slot, task) && CanAct(w, slot, task, ok, g)
    ensures Inv(Call(w, t, slot, task, ok, g))
  {
    hide Inv, Call;
    OnlyCopiesDraw(w, t, slot, task, ok, g);
    match task
    case CommitChecked(up) => CommitCopies(w, t, slot, up, g);
    case RotateFound(row) => RotateCopies(w, t, slot, row, g);
    case CommitAborting(_, _) => CleanupKeeps(w, t, slot, task, ok);
    case CommitStored(_, _) => CleanupKeeps(w, t, slot, task, ok);
    case CommitCleaning(_) => CleanupKeeps(w, t, slot, task, ok);
    case RotateUndone(_, _) => CleanupKeeps(w, t, slot, task, ok);
    case CommitVerified(up, gen) => if ok { CommitKeeps(w, t, slot, up, gen); } else { PlainKeeps(w, t, slot, task, ok, g); }
    case RotateMoved(row, gen) => if ok { SwitchKeeps(w, t, slot, row, gen); } else { PlainKeeps(w, t, slot, task, ok, g); }
    case RotateUndoing(row, gen) => if ok { UndoKeeps(w, t, slot, row, gen); } else { PlainKeeps(w, t, slot, task, ok, g); }
    case RotateCopied(row, gen) => RotateTakes(w, t, slot, row, gen);
    case DeleteFound(row) => DeleteTakes(w, t, slot, row);
    case DeleteGone(row) => RemoveKeeps(w, t, slot, row);
    case _ => PlainKeeps(w, t, slot, task, ok, g);
  }

  // ---------- The environment ----------

  lemma StagingKeeps(w: World, w': World, at: Loc)
    requires Inv(w) && IsStaging(at.key) && Only(w, w', at)
    requires w'.ops == w.ops && w'.locks == w.locks && w'.worker == w.worker && w'.dangling == w.dangling && DataOk(w')
    ensures Inv(w')
  {
    forall u | u in w.ops && w.ops[u].Inside? ensures KeptAt(w, w', u, w.ops[u].slot) {
      assert OpOk(w, u, w.ops[u]);
      forall g | Own(w, u, w.ops[u].slot, g) ensures Physical(w.ops[u].slot.bucket, g, w.ops[u].slot.key) != at.key {
        NotTheirs(w, u + 1, at.key, u, w.ops[u].slot, g);
      }
    }
    AllKept(w, w');
  }

  lemma PutKeeps(w: World, at: Loc, blob: Blob)
    requires Inv(w) && IsStaging(at.key)
    ensures Inv(w.(blobs := w.blobs[at := blob]))
  {
    if at.key in w.mapped { DrawnIsNotStaging(at.key, w.gens); }
    forall b | b in w.begun ensures !(FinalPrefix(b) <= at.key) { StagingIsOutside(at.key, b); }
    WriteKeeps(w, at, blob);
    StagingKeeps(w, w.(blobs := w.blobs[at := blob]), at);
  }

  lemma DropKeeps(w: World, at: Loc)
    requires Inv(w) && IsStaging(at.key)
    ensures Inv(w.(blobs := w.blobs - {at}))
  {
    StagingIsNoRow(w, at.key);
    EraseKeeps(w, at);
    StagingKeeps(w, w.(blobs := w.blobs - {at}), at);
  }

  /** What any of the other transactions may do to the tables. */
  ghost predicate Plain(t: Tables, t': Tables, op: Op) {
    && t'.objects == t.objects && t.deletions.Keys <= t'.deletions.Keys
    && t.buckets.Keys <= t'.buckets.Keys <= t.buckets.Keys + (if op.NewBucket? then {op.id} else {})
    && (forall s :: s in t'.uploads ==>
          (s in t.uploads && t'.uploads[s] == t.uploads[s])
          || (op.Reserve? && t'.uploads[s].id == op.request.id && t'.uploads[s].physical == op.request.physical))
  }
  lemma TransactEffect(t: Tables, c: Limits, op: Op)
    requires !op.Commit? && !op.Delete? && !op.Rotate? && !op.Finish?
    ensures Plain(t, Next(t, c, op), op)
  {
    hide Plain, Next;
    if op.Reserve? {
      ReserveEffect(t, c, op);
    } else if op.Cancel? {
      CancelEffect(t, c, op);
    } else {
      OtherEffect(t, c, op);
    }
  }
  lemma CancelEffect(t: Tables, c: Limits, op: Op)
    requires op.Cancel?
    ensures Plain(t, Next(t, c, op), op)
  {
    var t' := Next(t, c, op);
    assert t' == t.(uploads := t'.uploads);
    assert t'.uploads == t.uploads || t'.uploads == t.uploads - {UploadSlot(t.uploads, op.id)};
  }
  lemma ReserveEffect(t: Tables, c: Limits, op: Op)
    requires op.Reserve?
    ensures Plain(t, Next(t, c, op), op)
  {
    hide ReserveRefusal, Growth, SourceGrowth;
    var t' := Next(t, c, op);
    assert t' == t.(uploads := t'.uploads, grants := t'.grants);
    assert t'.uploads == t.uploads || t'.uploads == t.uploads[op.slot := Reservation(t.objects, op.slot, op.request)];
  }
  lemma OtherEffect(t: Tables, c: Limits, op: Op)
    requires !TouchesRows(op)
    ensures Plain(t, Next(t, c, op), op)
  {
    hide Next;
    RowsUntouched(t, c, op);
    BucketsOnlyJoin(t, c, op);
    DeletionsOnlyJoin(t, c, op);
  }
  lemma BucketsOnlyJoin(t: Tables, c: Limits, op: Op)
    requires !TouchesRows(op)
    ensures t.buckets.Keys <= Next(t, c, op).buckets.Keys <= t.buckets.Keys + (if op.NewBucket? then {op.id} else {})
  {
    hide CreateBucket, UpdateBucket;
    match op
    case NewBucket(id, b, told) => BucketRowMade(t, c, id, b, told);
    case EditBucket(id, b, told) => BucketRowEdited(t, c, id, b, told);
    case _ => BucketsUntouched(t, c, op);
  }
  lemma BucketRowMade(t: Tables, c: Limits, id: Id, b: Bucket, told: bool)
    ensures var buckets := After(t, CreateBucket(t, c, id, b, told)).buckets;
      buckets == t.buckets || buckets == t.buckets[id := b]
  {
  }
  lemma BucketRowEdited(t: Tables, c: Limits, id: Id, b: Bucket, told: bool)
    ensures var buckets := After(t, UpdateBucket(t, c, id, b, told)).buckets;
      buckets == t.buckets || (id in t.buckets && buckets == t.buckets[id := b])
  {
    hide Used, Reserved;
  }
  lemma DeletionsOnlyJoin(t: Tables, c: Limits, op: Op)
    requires !TouchesRows(op)
    ensures t.deletions.Keys <= Next(t, c, op).deletions.Keys
  {
    if !op.Begin? { DeletionsUntouched(t, c, op); }
  }
  lemma DeletionsUntouched(t: Tables, c: Limits, op: Op)
    requires !op.Begin? && !op.Finish?
    ensures Next(t, c, op).deletions == t.deletions
  {
    hide ReserveRefusal, CommitRefusal;
  }
  /** The history such a transaction leaves. */
  ghost predicate Noted(w: World, w': World, op: Op) {
    w' == w.(led := w'.led,
             uploadIds := if op.Reserve? then w.uploadIds + {op.request.id} else w.uploadIds,
             bucketIds := if op.NewBucket? then w.bucketIds + {op.id} else w.bucketIds)
  }

  lemma TransactKeeps(w: World, c: Limits, op: Op)
    requires Inv(w) && Elsewhere(w, op)
    ensures Inv(Do(w, c, Transact(op)))
  {
    hide WellFormed, LocksOk, OpsOk;
    TransactEffect(w.led, c, op);
    StepKeepsWellFormed(w.led, c, op);
    TransactData(w, Do(w, c, Transact(op)), op);
    TransactOps(w, Do(w, c, Transact(op)), op);
  }
  lemma TransactOps(w: World, w': World, op: Op)
    requires OpsOk(w) && Elsewhere(w, op) && Noted(w, w', op) && Plain(w.led, w'.led, op)
    ensures OpsOk(w')
  {
    hide TaskOk, Physical;
    AllKept(w, w');
  }
  lemma TransactData(w: World, w': World, op: Op)
    requires DataOk(w) && Elsewhere(w, op) && Noted(w, w', op) && Plain(w.led, w'.led, op) && WellFormed(w'.led)
    ensures DataOk(w')
  {
    hide WellFormed, Physical;
  }

  // ---------- The worker ----------

  lemma WorkerLockKeeps(w: World, c: Limits, b: Id, legacy: bool)
    requires Inv(w) && Enabled(w, c, WorkerLock(b, legacy))
    ensures Inv(Do(w, c, WorkerLock(b, legacy)))
  {
    hide DataOk, LocksOk, OpsOk, VisitsOk;
    WorkerLockOps(w, Do(w, c, WorkerLock(b, legacy)), b);
    WorkerLockVisits(w, c, b, legacy);
    WorkerLockData(w, c, b, legacy);
    WorkerLockLocks(w, c, b, legacy);
  }
  lemma WorkerLockVisits(w: World, c: Limits, b: Id, legacy: bool)
    requires Inv(w) && Enabled(w, c, WorkerLock(b, legacy))
    ensures var w' := Do(w, c, WorkerLock(b, legacy)); VisitsOk(w'.ops, w'.begun)
  {
    hide DataOk, OpsOk;
    forall u | u in w.ops && w.ops[u].Visiting? ensures w.ops[u].slot.bucket != b {
      if w.ops[u].slot.bucket == b { HolderCounts(w.ops, u); }
    }
  }
  /** A free lock means nobody is inside. */
  lemma WorkerLockOps(w: World, w': World, b: Id)
    requires OpsOk(w) && LocksOk(w.ops, w.locks, w.worker) && LockOf(w.locks, b) == Mutex(0, false)
    requires w' == w.(locks := w'.locks, worker := w'.worker, begun := w.begun + {b})
    ensures OpsOk(w')
  {
    hide TaskOk, Physical;
    forall u | u in w.ops && w.ops[u].Inside? ensures w.ops[u].slot.bucket != b {
      if w.ops[u].slot.bucket == b { HolderCounts(w.ops, u); }
    }
    AllKept(w, w');
  }
  lemma WorkerLockData(w: World, c: Limits, b: Id, legacy: bool)
    requires Inv(w) && Enabled(w, c, WorkerLock(b, legacy))
    ensures DataOk(Do(w, c, WorkerLock(b, legacy)))
  {
    hide MappedOk, RetiredOk, BlobsOk, RowsOk, OpsOk, VisitsOk, LocksOk;
    hide ObjectsFit, ObjectsDistinct, UploadsFit, UploadsDistinct, LinksFit;
  }
  lemma WorkerLockLocks(w: World, c: Limits, b: Id, legacy: bool)
    requires Inv(w) && Enabled(w, c, WorkerLock(b, legacy))
    ensures var w' := Do(w, c, WorkerLock(b, legacy)); LocksOk(w'.ops, w'.locks, w'.worker)
  {
    hide DataOk, OpsOk, VisitsOk;
  }

  lemma SweepDeleteKeeps(w: World, c: Limits, at: Loc)
    requires Inv(w) && Enabled(w, c, SweepDelete(at))
    ensures Inv(Do(w, c, SweepDelete(at)))
  {
    hide DataOk, LocksOk;
    SweepDeleteData(w, c, at);
    SweepDeleteOps(w, c, at);
  }
  lemma SweepDeleteData(w: World, c: Limits, at: Loc)
    requires Inv(w) && Enabled(w, c, SweepDelete(at))
    ensures DataOk(Do(w, c, SweepDelete(at)))
  {
    hide ObjectsDistinct, UploadsFit, UploadsDistinct, LinksFit, DeletionsFit;
    hide MappedOk, RetiredOk, BlobsOk, Present, Absent, LocksOk;
    forall s | s in w.led.objects && s.bucket !in w.begun ensures Place(w.led.objects[s]) != at {
      NamedIsOwn(s, w.led.objects[s].physical, w.gens, w.worker.bucket);
    }
    EraseKeeps(w, at);
  }
  lemma SweepDeleteOps(w: World, c: Limits, at: Loc)
    requires Inv(w) && Enabled(w, c, SweepDelete(at))
    ensures OpsOk(Do(w, c, SweepDelete(at)))
  {
    hide WellFormed, MappedOk, RetiredOk, BlobsOk, Present, Absent, LocksOk, RowsOk;
    var b := w.worker.bucket;
    var w' := Do(w, c, SweepDelete(at));
    forall u | u in w.ops && w.ops[u].Inside? ensures KeptAt(w, w', u, w.ops[u].slot) {
      var slot := w.ops[u].slot;
      assert OpOk(w, u, w.ops[u]);
      forall g | Own(w, u, slot, g) ensures Physical(slot.bucket, g, slot.key) != at.key {
        NamedIsOwn(slot, Physical(slot.bucket, g, slot.key), w.gens, b);
      }
    }
    AllKept(w, w');
  }

  lemma SweepDoneKeeps(w: World, c: Limits, source: Id)
    requires Inv(w) && Enabled(w, c, SweepDone(source))
    ensures Inv(Do(w, c, SweepDone(source)))
  {
    hide TaskOk, WellFormed, MappedOk, RetiredOk, Present, Absent, RowsOk, BlobsOk, Physical;
    AllKept(w, Do(w, c, SweepDone(source)));
  }

  lemma FinishDeletionKeeps(w: World, c: Limits)
    requires Inv(w) && Enabled(w, c, FinishDeletion)
    ensures Inv(Do(w, c, FinishDeletion))
  {
    hide Inv;
    FinishLedger(w, c);
    FinishSweep(w, c);
    FinishData(w, c);
    FinishOps(w, c);
  }
  lemma FinishOps(w: World, c: Limits)
    requires Inv(w) && Enabled(w, c, FinishDeletion)
    ensures OpsOk(Do(w, c, FinishDeletion))
  {
    hide TaskOk, WellFormed, MappedOk, Present, Absent, RetiredOk, BlobsOk, LocksOk, RowsOk, Physical;
    AllKept(w, Do(w, c, FinishDeletion));
  }
  lemma FinishData(w: World, c: Limits)
    requires Inv(w) && Enabled(w, c, FinishDeletion)
    requires var w' := Do(w, c, FinishDeletion);
      LedgerOk(w'.led, w'.uploadIds, w'.bucketIds) && SweptOk(w'.worker, w'.cleared, w'.begun, w'.blobs)
      && BegunOk(w'.begun, w'.cleared, w'.bucketIds, w'.led)
    ensures Inv(Do(w, c, FinishDeletion)) <== OpsOk(Do(w, c, FinishDeletion))
  {
    hide LedgerOk, SweptOk, BegunOk, LocksOk, OpsOk, MappedOk, BlobsOk, RowsOk, Present, Absent, RetiredOk;
    hide LinksBut, ConfirmationsBut, GrantsBut, UploadSlots, BucketObjectIds;
    FewerRows(w, Do(w, c, FinishDeletion).led.objects);
  }
  lemma FinishLedger(w: World, c: Limits)
    requires Inv(w) && Enabled(w, c, FinishDeletion)
    ensures var w' := Do(w, c, FinishDeletion); LedgerOk(w'.led, w'.uploadIds, w'.bucketIds)
  {
    hide WellFormed, LocksOk, OpsOk, MappedOk, BlobsOk, RowsOk, Present, Absent, RetiredOk, SweptOk, BegunOk;
    FinishKeepsWellFormed(w.led, w.now, w.worker.bucket);
  }
  lemma FinishSweep(w: World, c: Limits)
    requires Inv(w) && Enabled(w, c, FinishDeletion)
    ensures var w' := Do(w, c, FinishDeletion);
      SweptOk(w'.worker, w'.cleared, w'.begun, w'.blobs) && BegunOk(w'.begun, w'.cleared, w'.bucketIds, w'.led)
  {
    hide LedgerOk, LocksOk, OpsOk, MappedOk, BlobsOk, RowsOk, Present, Absent, RetiredOk;
  }
  lemma FewerRows(w: World, objects: map<Slot, Object>)
    requires DataOk(w) && objects.Keys <= w.led.objects.Keys && forall s :: s in objects ==> objects[s] == w.led.objects[s]
    ensures RowsOk(objects, w.gens, w.mapped, w.content) && RetiredOk(w.retired, objects, w.blobs, w.mapped)
    ensures Present(objects, w.blobs, w.content, w.begun, w.dangling) && Absent(objects, w.blobs, w.dangling)
  {
    hide WellFormed, Physical;
  }

  lemma WorkerUnlockKeeps(w: World, c: Limits)
    requires Inv(w) && Enabled(w, c, WorkerUnlock)
    ensures Inv(Do(w, c, WorkerUnlock))
  {
    hide TaskOk, WellFormed, MappedOk, RetiredOk, Present, Absent, RowsOk, BlobsOk, Physical;
    AllKept(w, Do(w, c, WorkerUnlock));
  }

  lemma WaitKeeps(w: World, seconds: nat)
    requires Inv(w)
    ensures Inv(w.(now := w.now + seconds))
  {
    AllKept(w, w.(now := w.now + seconds));
  }

  // ---------- Every run ----------

  lemma StepKeeps(w: World, c: Limits, s: Step)
    requires Inv(w) && Enabled(w, c, s)
    ensures Inv(Do(w, c, s))
  {
    hide DataOk, LocksOk, OpsOk, Next, Call, CanAct;
    match s
    case Knock(t, slot, task) => KnockKeeps(w, t, slot, task);
    case Lock(t) => LockKeeps(w, c, t);
    case Enter(t) => EnterKeeps(w, c, t);
    case Turn(t) => GoneKeeps(w, t);
    case Leave(t) => GoneKeeps(w, t);
    case Act(t, ok, g) => ActKeeps(w, t, w.ops[t].slot, w.ops[t].task, ok, g);
    case Put(at, blob) => PutKeeps(w, at, blob);
    case DropStaging(at) => DropKeeps(w, at);
    case Transact(op) => TransactKeeps(w, c, op);
    case WorkerLock(b, legacy) => WorkerLockKeeps(w, c, b, legacy);
    case SweepDelete(at) => SweepDeleteKeeps(w, c, at);
    case SweepDone(source) => SweepDoneKeeps(w, c, source);
    case FinishDeletion => FinishDeletionKeeps(w, c);
    case WorkerUnlock => WorkerUnlockKeeps(w, c);
    case Crash => CrashKeeps(w);
    case Wait(seconds) => WaitKeeps(w, seconds);
  }

  lemma StartIsFine()
    ensures Inv(START)
  {
  }

  lemma {:induction false} RunKeeps(w: World, c: Limits, steps: seq<Step>, w': World)
    requires Inv(w) && IsRun(w, c, steps, w')
    ensures Inv(w')
    decreases steps
  {
    if steps != [] {
      StepKeeps(w, c, steps[0]);
      RunKeeps(Do(w, c, steps[0]), c, steps[1..], w');
    }
  }
}

/**
 What the protocols guarantee over every run from an empty service.
 */
module Safety {
  import opened Sums
  import opened Ledger
  import opened Names
  import opened Protocol
  import opened Invariants
  import opened Preservation
  import opened Transitions
  import opened Quota
  import opened Service

  ghost predicate Reachable(w: World, c: Limits) {
    exists steps :: IsRun(START, c, steps, w)
  }
  lemma ReachableInv(w: World, c: Limits)
    requires Reachable(w, c)
    ensures Inv(w)
  {
    var steps :| IsRun(START, c, steps, w);
    StartIsFine();
    RunKeeps(START, c, steps, w);
  }

  // ---------- Deletion drains, sweeps and stays swept ----------

  /** While the worker holds a bucket nobody is between taking its read lock and releasing it,
      and nobody is ever inside again once its sweep has begun. */
  lemma NobodyInsideWhileSweeping(w: World, c: Limits)
    requires Reachable(w, c)
    ensures w.worker.Sweeping? ==> forall t :: t in w.ops && !w.ops[t].Knocking? ==> w.ops[t].slot.bucket != w.worker.bucket
    ensures forall t :: t in w.ops && (w.ops[t].Inside? || w.ops[t].Visiting?) ==> w.ops[t].slot.bucket !in w.begun
  {
    ReachableInv(w, c);
    if w.worker.Sweeping? {
      assert LockOf(w.locks, w.worker.bucket).writer;
      forall t | t in w.ops && !w.ops[t].Knocking? ensures w.ops[t].slot.bucket != w.worker.bucket {
        HolderCounts(w.ops, t);
      }
    }
    forall t | t in w.ops && w.ops[t].Inside? ensures w.ops[t].slot.bucket !in w.begun { assert OpOk(w, t, w.ops[t]); }
  }

  /** When a deletion finishes, every source known when its sweep began has been swept. */
  lemma FinishSweptTheListing(w: World, c: Limits)
    requires Reachable(w, c) && Enabled(w, c, FinishDeletion)
    ensures var b, w' := w.worker.bucket, Do(w, c, FinishDeletion);
      b in w'.cleared && w'.cleared[b] == w.worker.listed && b !in w'.led.buckets && Empty(b, w.worker.listed, w'.blobs)
  {
    hide WellFormed, LocksOk, OpsOk, RowsOk, MappedOk, Present, Absent, RetiredOk, BlobsOk;
    ReachableInv(w, c);
  }

  /** What one call of an operation does to the history. */
  lemma CallHistory(w: World, t: nat, slot: Slot, task: Task, ok: bool, drawn: nat)
    requires CanAct(w, slot, task, ok, drawn)
    ensures var w' := Call(w, t, slot, task, ok, drawn);
      && w'.cleared == w.cleared && w.retired <= w'.retired
      && w'.dangling - w.dangling <= (if task.RotateCopied? || task.DeleteFound? then {slot} else {})
  {
  }

  lemma ClearedStays(w: World, c: Limits, s: Step, b: Id)
    requires Inv(w) && Enabled(w, c, s) && b in w.cleared
    ensures b in Do(w, c, s).cleared && Do(w, c, s).cleared[b] == w.cleared[b]
  {
    hide ObjectsFit, ObjectsDistinct, UploadsFit, UploadsDistinct, LinksFit, RowsOk, MappedOk, Present, Absent, RetiredOk;
    hide BlobsOk, LocksOk, OpsOk, VisitsOk, Call, CanAct;
    if s.Act? { CallHistory(w, s.t, w.ops[s.t].slot, w.ops[s.t].task, s.ok, s.drawn); }
  }

  /** Once a deletion has finished, no committed object of the bucket exists on any source its
      sweep listed, in that state and in every later one. */
  lemma {:induction false} SweptForever(w: World, c: Limits, steps: seq<Step>, w': World, b: Id)
    requires Inv(w) && IsRun(w, c, steps, w') && b in w.cleared
    ensures Empty(b, w.cleared[b], w'.blobs) && b !in w'.led.buckets
    decreases steps
  {
    if steps != [] {
      ClearedStays(w, c, steps[0], b);
      StepKeeps(w, c, steps[0]);
      SweptForever(Do(w, c, steps[0]), c, steps[1..], w', b);
    }
  }

  // ---------- Commits survive crashes ----------

  /** In every reachable state, so also after a stop between any two calls and whatever clients
      put where, the object at each key of an active bucket is stored where its row says, with
      the bytes last committed there and exactly the recorded size, if and only if no rotation
      or delete of the key has got past its backend delete without finishing. */
  lemma ObjectIsThereIff(w: World, c: Limits, slot: Slot)
    requires Reachable(w, c) && slot in w.led.objects && Active(w.led, slot.bucket)
    ensures var at := Place(w.led.objects[slot]);
      && (slot !in w.dangling <==> at in w.blobs)
      && (at in w.blobs ==> slot in w.content && w.blobs[at] == w.content[slot] && |w.blobs[at]| == w.led.objects[slot].size)
  {
    ReachableInv(w, c);
  }

  /** Only the two calls that delete an object's own bytes leave a key dangling. */
  lemma OnlyOwnDeletesDangle(w: World, c: Limits, s: Step, slot: Slot)
    requires Enabled(w, c, s) && slot !in w.dangling && slot in Do(w, c, s).dangling
    ensures s.Act? && w.ops[s.t].slot == slot && (w.ops[s.t].task.RotateCopied? || w.ops[s.t].task.DeleteFound?)
  {
    if s.Act? { CallHistory(w, s.t, w.ops[s.t].slot, w.ops[s.t].task, s.ok, s.drawn); }
  }

  /** The window is real: a stop right after a rotation deleted the old bytes leaves a row that
      points at nothing. */
  lemma RotationHasACrashWindow(w: World, c: Limits, t: nat, slot: Slot, row: Object, gen: nat)
    requires Working(w, t, slot, RotateCopied(row, gen))
    ensures Enabled(w, c, Act(t, true, 0)) && Enabled(Do(w, c, Act(t, true, 0)), c, Crash)
    ensures var w' := Do(Do(w, c, Act(t, true, 0)), c, Crash);
      Inv(w') && slot in w'.led.objects && Place(w'.led.objects[slot]) !in w'.blobs
  {
    hide WellFormed, MappedOk, SweptOk, BegunOk, BlobsOk, LocksOk, RetiredOk, Present, RowsOk, Own, Copied, Physical;
    assert OpOk(w, t, w.ops[t]);
    hide OpsOk, TaskOk;
    StepKeeps(w, c, Act(t, true, 0));
    CrashIsLedgerQuiet(Do(w, c, Act(t, true, 0)), c);
  }
  lemma CrashIsLedgerQuiet(w: World, c: Limits)
    requires Inv(w)
    ensures Inv(Do(w, c, Crash))
  {
    StepKeeps(w, c, Crash);
  }

  /** A client's PUT, even with a URL signed for an upload long committed, changes no object. */
  lemma ClientPutChangesNoObject(w: World, c: Limits, at: Loc, blob: Blob, slot: Slot)
    requires Reachable(w, c) && Enabled(w, c, Put(at, blob)) && slot in w.led.objects
    ensures var w' := Do(w, c, Put(at, blob));
      && w'.led == w.led
      && (Place(w.led.objects[slot]) in w.blobs <==> Place(w.led.objects[slot]) in w'.blobs)
      && (Place(w.led.objects[slot]) in w.blobs ==> w'.blobs[Place(w.led.objects[slot])] == w.blobs[Place(w.led.objects[slot])])
  {
    hide LedgerOk, MappedOk, RetiredOk, SweptOk, BegunOk, BlobsOk, Present, Absent, RowsOk, LocksOk, OpsOk;
    ReachableInv(w, c);
    Stepwise.StagingIsNoRow(w, at.key);
  }

  // ---------- Rotation ----------

  /** A rotation that goes through keeps the key, the size and the bytes, at a new place. */
  lemma RotationKeepsTheObject(w: World, c: Limits, t: nat, slot: Slot, row: Object, gen: nat)
    requires Working(w, t, slot, RotateMoved(row, gen)) && CanAct(w, slot, RotateMoved(row, gen), true, 0)
    ensures var w' := Do(w, c, Act(t, true, 0));
      && slot in w'.led.objects && w'.led.objects[slot] == row.(physical := Physical(slot.bucket, gen, slot.key), generation := gen)
      && slot in w'.content && w'.content == w.content
      && Place(w'.led.objects[slot]) in w'.blobs && w'.blobs[Place(w'.led.objects[slot])] == w.content[slot]
      && Place(row) in w'.retired && Place(row) !in w'.blobs && Place(w'.led.objects[slot]) != Place(row)
  {
    hide WellFormed, MappedOk, SweptOk, BegunOk, BlobsOk, Absent, LocksOk, OpsOk, RowsOk, LedgerOk, RotatePhysicalKey, Physical;
    SwitchLedger(w, t, slot, row, gen);
    StepKeeps(w, c, Act(t, true, 0));
  }

  /** In every reachable state a generation nobody has drawn makes a new key. */
  lemma UndrawnIsNew(w: World, c: Limits, slot: Slot, g: nat)
    requires Reachable(w, c) && NoSlash(slot.bucket) && g !in w.gens
    ensures NewKey(w.led.objects, w.blobs, slot, g)
  {
    ReachableInv(w, c);
    FreshKey(slot, g, w.gens, w.mapped);
    forall l | l in w.blobs ensures l.key != Physical(slot.bucket, g, slot.key) {
      NothingAtFreshKey(slot, g, w.gens, w.blobs, l.source);
      assert l == Loc(l.source, l.key);
    }
  }

  lemma ActIsCall(w: World, c: Limits, t: nat, slot: Slot, task: Task, ok: bool, drawn: nat)
    requires t in w.ops && w.ops[t] == Inside(slot, task) && CanAct(w, slot, task, ok, drawn)
    ensures Enabled(w, c, Act(t, ok, drawn)) && Do(w, c, Act(t, ok, drawn)) == Call(w, t, slot, task, ok, drawn)
  {
  }
  lemma OneMore(w: World, c: Limits, s: Step, rest: seq<Step>, w': World)
    requires Enabled(w, c, s) && IsRun(Do(w, c, s), c, rest, w')
    ensures IsRun(w, c, [s] + rest, w')
  {
    hide Enabled, Do;
    assert ([s] + rest)[1..] == rest;
  }

  lemma CopyCall(w: World, t: nat, slot: Slot, row: Object, g: nat)
    requires CanAct(w, slot, RotateFound(row), true, g)
    ensures Call(w, t, slot, RotateFound(row), true, g) ==
      w.(ops := w.ops[t := Inside(slot, RotateCopied(row, g))],
         blobs := w.blobs[Target(row.source, slot, g) := w.blobs[Place(row)]], gens := w.gens[g := t])
  {
  }
  lemma TakeCall(w: World, t: nat, slot: Slot, row: Object, g: nat)
    ensures Call(w, t, slot, RotateCopied(row, g), true, 0) ==
      w.(ops := w.ops[t := Inside(slot, RotateMoved(row, g))], blobs := w.blobs - {Place(row)}, dangling := w.dangling + {slot})
  {
  }
  lemma SwitchFailsCall(w: World, t: nat, slot: Slot, row: Object, g: nat)
    ensures Call(w, t, slot, RotateMoved(row, g), false, 0) == w.(ops := w.ops[t := Inside(slot, RotateUndoing(row, g))])
  {
  }
  lemma RestoreCall(w: World, t: nat, slot: Slot, row: Object, g: nat, ok: bool)
    requires Target(row.source, slot, g) in w.blobs
    ensures CanAct(w, slot, RotateUndoing(row, g), ok, 0)
    ensures Call(w, t, slot, RotateUndoing(row, g), ok, 0) ==
      w.(ops := w.ops[t := Inside(slot, RotateUndone(row, g))],
         blobs := if ok then w.blobs[Place(row) := w.blobs[Target(row.source, slot, g)]] else w.blobs,
         dangling := if ok then w.dangling - {slot} else w.dangling)
  {
  }
  lemma CleanCall(w: World, t: nat, slot: Slot, row: Object, g: nat, ok: bool)
    ensures Call(w, t, slot, RotateUndone(row, g), ok, 0) ==
      w.(ops := w.ops[t := Inside(slot, Finished)], blobs := if ok then w.blobs - {Target(row.source, slot, g)} else w.blobs)
  {
  }

  /** A rotation that is about to switch its row. */
  ghost function MovedOn(w: World, t: nat, slot: Slot, row: Object, g: nat): World
    requires Place(row) in w.blobs
  {
    w.(ops := w.ops[t := Inside(slot, RotateCopied(row, g))][t := Inside(slot, RotateMoved(row, g))],
       blobs := w.blobs[Target(row.source, slot, g) := w.blobs[Place(row)]] - {Place(row)},
       gens := w.gens[g := t], dangling := w.dangling + {slot})
  }
  lemma MoveRun(w: World, c: Limits, t: nat, slot: Slot, row: Object, g: nat, rest: seq<Step>, w': World)
    requires t in w.ops && w.ops[t] == Inside(slot, RotateFound(row)) && CanAct(w, slot, RotateFound(row), true, g)
    requires IsRun(MovedOn(w, t, slot, row, g), c, rest, w')
    ensures IsRun(w, c, [Act(t, true, g)] + ([Act(t, true, 0)] + rest), w')
  {
    hide IsRun, Enabled, Do, Call, Target;
    CopyCall(w, t, slot, row, g);
    ActIsCall(w, c, t, slot, RotateFound(row), true, g);
    var w1 := Call(w, t, slot, RotateFound(row), true, g);
    TakeCall(w1, t, slot, row, g);
    ActIsCall(w1, c, t, slot, RotateCopied(row, g), true, 0);
    OneMore(w1, c, Act(t, true, 0), rest, w');
    OneMore(w, c, Act(t, true, g), [Act(t, true, 0)] + rest, w');
  }

  /** A rotation whose metadata switch fails and whose undoing works leaves the tables, the
      stored bytes and every key as they were. */
  lemma FailedRotationRestores(w: World, c: Limits, t: nat, slot: Slot, row: Object, g: nat) returns (w': World)
    requires Working(w, t, slot, RotateFound(row)) && CanAct(w, slot, RotateFound(row), true, g)
    ensures IsRun(w, c, [Act(t, true, g)] + ([Act(t, true, 0)] + ([Act(t, false, 0)] + Undoing(t, true, true))), w')
    ensures w'.led == w.led && w'.blobs == w.blobs && w'.dangling == w.dangling
  {
    hide Working, IsRun, Target, Undoing, CanAct;
    PlacesApart(w, t, slot, row, g);
    w' := UndoRun(MovedOn(w, t, slot, row, g), c, t, slot, row, g, true, true);
    MoveRun(w, c, t, slot, row, g, [Act(t, false, 0)] + Undoing(t, true, true), w');
    UndoRestores(w.blobs, Place(row), Target(row.source, slot, g));
  }
  /** Copying back, then deleting the copy. */
  function Undoing(t: nat, restored: bool, cleaned: bool): seq<Step> { [Act(t, restored, 0)] + ([Act(t, cleaned, 0)] + []) }
  lemma IsRunNil(w: World, c: Limits)
    ensures IsRun(w, c, [], w)
  {
  }
  lemma PlacesApart(w: World, t: nat, slot: Slot, row: Object, g: nat)
    requires Working(w, t, slot, RotateFound(row)) && CanAct(w, slot, RotateFound(row), true, g)
    ensures t in w.ops && w.ops[t] == Inside(slot, RotateFound(row)) && slot !in w.dangling
    ensures Target(row.source, slot, g) !in w.blobs && Place(row) in w.blobs
  {
    assert OpOk(w, t, w.ops[t]);
    NothingAtFreshKey(slot, g, w.gens, w.blobs, row.source);
  }

  /** The three calls that undo a rotation whose metadata switch failed; the copy back and the
      delete may each fail. */
  lemma UndoRun(w: World, c: Limits, t: nat, slot: Slot, row: Object, gen: nat, restored: bool, cleaned: bool)
    returns (w': World)
    requires t in w.ops && w.ops[t] == Inside(slot, RotateMoved(row, gen)) && Target(row.source, slot, gen) in w.blobs
    ensures IsRun(w, c, [Act(t, false, 0)] + Undoing(t, restored, cleaned), w')
    ensures var at := Target(row.source, slot, gen);
      w' == w.(ops := w'.ops,
        blobs := (if restored then w.blobs[Place(row) := w.blobs[at]] else w.blobs) - (if cleaned then {at} else {}),
        dangling := if restored then w.dangling - {slot} else w.dangling)
  {
    hide IsRun, Enabled, Do, Call, Target;
    SwitchFailsCall(w, t, slot, row, gen);
    ActIsCall(w, c, t, slot, RotateMoved(row, gen), false, 0);
    var w1 := Call(w, t, slot, RotateMoved(row, gen), false, 0);
    RestoreCall(w1, t, slot, row, gen, restored);
    ActIsCall(w1, c, t, slot, RotateUndoing(row, gen), restored, 0);
    var w2 := Call(w1, t, slot, RotateUndoing(row, gen), restored, 0);
    CleanCall(w2, t, slot, row, gen, cleaned);
    ActIsCall(w2, c, t, slot, RotateUndone(row, gen), cleaned, 0);
    w' := Call(w2, t, slot, RotateUndone(row, gen), cleaned, 0);
    IsRunNil(w', c);
    OneMore(w2, c, Act(t, cleaned, 0), [], w');
    OneMore(w1, c, Act(t, restored, 0), [Act(t, cleaned, 0)] + [], w');
    OneMore(w, c, Act(t, false, 0), Undoing(t, restored, cleaned), w');
  }

  /** Just before the switch the old place is empty and the copy is somewhere else. */
  lemma MovedAway(w: World, t: nat, slot: Slot, row: Object, gen: nat)
    requires Working(w, t, slot, RotateMoved(row, gen))
    ensures t in w.ops && w.ops[t] == Inside(slot, RotateMoved(row, gen))
    ensures slot in w.led.objects && w.led.objects[slot] == row && slot in w.content
    ensures Place(row) !in w.blobs && Place(row) != Target(row.source, slot, gen)
    ensures Target(row.source, slot, gen) in w.blobs && w.blobs[Target(row.source, slot, gen)] == w.content[slot]
  {
    assert OpOk(w, t, w.ops[t]);
  }

  /** When the switch fails the bytes of the object are lost, being at neither key any more,
      exactly when the copy back fails and the delete of the copy does not. Its row still
      points at the old key. */
  lemma BytesAreLostIff(w: World, c: Limits, t: nat, slot: Slot, row: Object, gen: nat, restored: bool, cleaned: bool)
    returns (w': World)
    requires Working(w, t, slot, RotateMoved(row, gen))
    ensures IsRun(w, c, [Act(t, false, 0)] + Undoing(t, restored, cleaned), w')
    ensures w'.led == w.led && slot in w'.led.objects && w'.led.objects[slot] == row
    ensures Place(row) !in w'.blobs && Target(row.source, slot, gen) !in w'.blobs <==> !restored && cleaned
    ensures Place(row) in w'.blobs ==> slot in w.content && w'.blobs[Place(row)] == w.content[slot]
  {
    hide Working, IsRun, Target, Undoing;
    MovedAway(w, t, slot, row, gen);
    w' := UndoRun(w, c, t, slot, row, gen, restored, cleaned);
  }

  /** A place once rotated away from stays empty: direct URLs to it stay dead. */
  lemma {:induction false} RetiredForever(w: World, c: Limits, steps: seq<Step>, w': World, at: Loc)
    requires Inv(w) && IsRun(w, c, steps, w') && at in w.retired
    ensures at !in w'.blobs
    decreases steps
  {
    if steps != [] {
      StepKeeps(w, c, steps[0]);
      RetiredStays(w, c, steps[0], at);
      RetiredForever(Do(w, c, steps[0]), c, steps[1..], w', at);
    }
  }
  lemma RetiredStays(w: World, c: Limits, s: Step, at: Loc)
    requires Enabled(w, c, s) && at in w.retired
    ensures at in Do(w, c, s).retired
  {
    if s.Act? { CallHistory(w, s.t, w.ops[s.t].slot, w.ops[s.t].task, s.ok, s.drawn); }
  }

  // ---------- The ledger under the protocols ----------

  /** The transaction, if any, that a call or a step makes. */
  function CallTransaction(slot: Slot, task: Task, ok: bool): Option<Op> {
    if !ok then None
    else
      match task
      case CommitVerified(up, gen) => Some(Commit(slot, up.id, Physical(slot.bucket, gen, slot.key), up.size))
      case RotateMoved(row, gen) => Some(Rotate(row.id, Physical(slot.bucket, gen, slot.key), gen))
      case DeleteGone(row) => Some(Delete(row.id))
      case _ => None
  }
  ghost function Transaction(w: World, s: Step): Option<Op> {
    match s
    case Transact(op) => Some(op)
    case FinishDeletion => if w.worker.Sweeping? then Some(Finish(w.now, w.worker.bucket)) else None
    case Act(t, ok, _) =>
      if t in w.ops then CallTransaction(w.ops[t].slot, w.ops[t].task, ok) else None
    case _ => None
  }

  /** From `led` to `led'` is that transaction, with its size honest if it is a commit. */
  ghost predicate Makes(led: Tables, c: Limits, made: Option<Op>, led': Tables) {
    match made
    case None => led' == led
    case Some(op) => led' == Next(led, c, op) && Honest(led, op)
  }

  lemma QuietCall(w: World, t: nat, slot: Slot, task: Task, ok: bool, drawn: nat)
    requires CanAct(w, slot, task, ok, drawn) && CallTransaction(slot, task, ok).None?
    ensures Call(w, t, slot, task, ok, drawn).led == w.led
  {
    hide Physical;
  }

  lemma CallIsATransaction(w: World, c: Limits, t: nat, slot: Slot, task: Task, ok: bool, drawn: nat)
    requires CanAct(w, slot, task, ok, drawn) && TaskOk(w, t, slot, task)
    ensures Makes(w.led, c, CallTransaction(slot, task, ok), Call(w, t, slot, task, ok, drawn).led)
  {
    hide Physical, Own, OldOk, Copied;
    if !ok || !(task.CommitVerified? || task.RotateMoved? || task.DeleteGone?) {
      assert CallTransaction(slot, task, ok).None?;
      QuietCall(w, t, slot, task, ok, drawn);
    }
  }

  /** Every step is at most one transaction of the ledger, and a commit records exactly the
      size that was declared when the upload was reserved. */
  lemma StepIsATransaction(w: World, c: Limits, s: Step)
    requires Inv(w) && Enabled(w, c, s)
    ensures Makes(w.led, c, Transaction(w, s), Do(w, c, s).led)
  {
    if s.Act? {
      assert OpOk(w, s.t, w.ops[s.t]);
      CallIsATransaction(w, c, s.t, w.ops[s.t].slot, w.ops[s.t].task, s.ok, s.drawn);
      assert Do(w, c, s) == Call(w, s.t, w.ops[s.t].slot, w.ops[s.t].task, s.ok, s.drawn);
    } else {
      OtherStepIsATransaction(w, c, s);
    }
  }
  lemma OtherStepIsATransaction(w: World, c: Limits, s: Step)
    requires Enabled(w, c, s) && !s.Act?
    ensures Makes(w.led, c, Transaction(w, s), Do(w, c, s).led)
  {
  }

  /** So every run of the protocols is, on the tables, an honest run of the ledger: what holds
      over all of those holds under any interleaving and any crash. */
  lemma {:induction false} RunsAreLedgerRuns(w: World, c: Limits, steps: seq<Step>, w': World) returns (ops: seq<Op>)
    requires Inv(w) && IsRun(w, c, steps, w')
    ensures HonestRun(w.led, c, ops) && Run(w.led, c, ops) == w'.led
    decreases steps
  {
    if steps == [] {
      ops := [];
    } else {
      StepKeeps(w, c, steps[0]);
      StepIsATransaction(w, c, steps[0]);
      ops := RunsAreLedgerRuns(Do(w, c, steps[0]), c, steps[1..], w');
      if Transaction(w, steps[0]).Some? {
        var op := Transaction(w, steps[0]).value;
        assert ([op] + ops)[1..] == ops;
        ops := [op] + ops;
      }
    }
  }
}

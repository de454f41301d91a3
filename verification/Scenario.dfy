/**
 Two runs of the protocols from an empty service, call by call. The first uploads an object,
 rotates it and stops between the rotation's backend delete and its metadata switch; the
 second deletes a bucket. They show that the states the guarantees speak of occur.
 */
module Scenario {
  import opened Ledger
  import opened Names
  import opened Protocol
  import opened Invariants
  import opened Transitions
  import opened Safety
  import opened Quota
  import opened Overcommit

  const C := Limits(10, 10, 1000)
  const BKT := "b"
  const SLOT := Slot(BKT, "k")
  const ID := "obj_1"
  const BLOB: Blob := [7]

  function StagedKey(): string { Staging(BKT, ID, "k") }
  function At(gen: nat): Loc { Target("", SLOT, gen) }
  function StagedAt(): Loc { Loc("", StagedKey()) }
  function Asked(): Request { Request(ID, "", StagedKey(), 1, 60) }
  function TheUpload(): Upload { Upload(ID, "", StagedKey(), 1, 1, 1, 60) }
  function TheRow(): Object { Object(ID, "", At(5).key, 1, true, 1) }

  function Led1(): Tables { EMPTY.(buckets := map[BKT := Bucket(false, 100, false)]) }
  function Led2(): Tables { Led1().(uploads := map[SLOT := TheUpload()], grants := map[ID := Grant(BKT, 60)]) }
  function Led3(): Tables { Led1().(objects := map[SLOT := TheRow()], grants := map[ID := Grant(BKT, 60)]) }

  lemma IsCreated()
    ensures Next(EMPTY, C, NewBucket(BKT, Bucket(false, 100, false), false)) == Led1()
  {
  }
  lemma IsReserved()
    ensures Next(Led1(), C, Reserve(SLOT, Asked())) == Led2()
  {
    hide Staging, Physical;
  }
  lemma IsCommitted()
    ensures CommitUpload(Led2(), SLOT, ID, At(5).key, 1) == Outcome.Done(Led3())
  {
    hide Staging, Physical;
    OwnId(ID);
    assert SLOT in Led2().uploads && Led2().uploads - {SLOT} == map[];
  }

  /** The three places the run uses are different. */
  lemma PlacesDiffer()
    ensures At(5) != StagedAt() && At(6) != StagedAt() && At(5) != At(6)
    ensures IsStaging(StagedKey())
  {
    NamespacesAreDisjoint(BKT, 5, "k", BKT, ID, "k");
    NamespacesAreDisjoint(BKT, 6, "k", BKT, ID, "k");
    if At(5) == At(6) { PhysicalInjective(BKT, 5, "k", BKT, 6, "k"); }
  }

  // ---------- One step further ----------

  lemma {:induction false} RunThen(w: World, c: Limits, steps: seq<Step>, w1: World, s: Step)
    requires IsRun(w, c, steps, w1) && Enabled(w1, c, s)
    ensures IsRun(w, c, steps + [s], Do(w1, c, s))
    decreases steps
  {
    hide Enabled, Do;
    if steps == [] {
      assert steps + [s] == [s] && [s][1..] == [];
    } else {
      assert (steps + [s])[0] == steps[0] && (steps + [s])[1..] == steps[1..] + [s];
      RunThen(Do(w, c, steps[0]), c, steps[1..], w1, s);
    }
  }
  lemma Then(w: World, s: Step)
    requires Reachable(w, C) && Enabled(w, C, s)
    ensures Reachable(Do(w, C, s), C)
  {
    hide Enabled, Do, IsRun;
    var steps :| IsRun(START, C, steps, w);
    RunThen(START, C, steps, w, s);
  }

  /** One operation on the object is inside its guarded section. */
  function Doing(w: World, task: Task): World {
    w.(ops := map[0 := Inside(SLOT, task)], locks := w.locks[BKT := Mutex(1, false)])
  }
  function Quiet(w: World): World { w.(ops := map[], locks := w.locks[BKT := Mutex(0, false)]) }

  lemma Entered(w: World, task: Task)
    requires LockOf(w.locks, BKT) == Mutex(0, false) && Active(w.led, BKT) && IsStart(task) && !task.Visit?
    ensures var w1 := w.(ops := map[0 := Knocking(SLOT, task)]);
      var w2 := w.(ops := map[0 := Entering(SLOT, task)], locks := w.locks[BKT := Mutex(1, false)]);
      && Enabled(w1, C, Lock(0)) && Do(w1, C, Lock(0)) == w2
      && Enabled(w2, C, Enter(0)) && Do(w2, C, Enter(0)) == Doing(w, task)
  {
    hide Call, CanAct, Next, FinishBucketDeletion;
    assert map[0 := Knocking(SLOT, task)][0 := Entering(SLOT, task)] == map[0 := Entering(SLOT, task)];
    assert map[0 := Entering(SLOT, task)][0 := Inside(SLOT, task)] == map[0 := Inside(SLOT, task)];
  }
  lemma Arrives(w: World, task: Task)
    requires Reachable(w, C) && w.ops == map[] && LockOf(w.locks, BKT) == Mutex(0, false) && Active(w.led, BKT)
    requires IsStart(task) && !task.Visit?
    ensures Reachable(Doing(w, task), C)
  {
    hide Reachable, Call, CanAct, Next, FinishBucketDeletion, Doing, LockOf;
    Then(w, Knock(0, SLOT, task));
    assert w.ops[0 := Knocking(SLOT, task)] == map[0 := Knocking(SLOT, task)];
    Entered(w, task);
    Then(w.(ops := map[0 := Knocking(SLOT, task)]), Lock(0));
    Then(w.(ops := map[0 := Entering(SLOT, task)], locks := w.locks[BKT := Mutex(1, false)]), Enter(0));
  }
  lemma Leaves(w: World, task: Task)
    requires Reachable(Doing(w, task), C)
    ensures Reachable(Quiet(w), C)
  {
    hide Reachable;
    Then(Doing(w, task), Leave(0));
    assert Do(Doing(w, task), C, Leave(0)) == Quiet(w);
  }
  lemma MovesOn(w: World, task: Task, next: Task)
    ensures Move(Doing(w, task), 0, SLOT, next) == Doing(w, next)
  {
    assert map[0 := Inside(SLOT, task)][0 := Inside(SLOT, next)] == map[0 := Inside(SLOT, next)];
  }
  /** The operation's next call takes it from `task` to `next`, and the rest of the world with it. */
  lemma Acts(w: World, task: Task, ok: bool, drawn: nat, w': World, next: Task)
    requires Reachable(Doing(w, task), C) && CanAct(Doing(w, task), SLOT, task, ok, drawn)
    requires Call(Doing(w, task), 0, SLOT, task, ok, drawn) == Doing(w', next)
    ensures Reachable(Doing(w', next), C)
  {
    hide Reachable, Enabled, Do, Call;
    ActIsCall(Doing(w, task), C, 0, SLOT, task, ok, drawn);
    Then(Doing(w, task), Act(0, ok, drawn));
  }

  // ---------- An upload ----------

  function U1(): World { START.(led := Led1(), bucketIds := {BKT}) }
  function U2(): World { U1().(led := Led2(), uploadIds := {ID}) }
  function U3(): World { U2().(blobs := map[StagedAt() := BLOB]) }
  function U4(): World { U3().(blobs := map[StagedAt() := BLOB, At(5) := BLOB], gens := map[5 := 0]) }
  function U5(): World { U4().(led := Led3(), mapped := {At(5).key}, content := map[SLOT := BLOB]) }
  function U6(): World { U5().(blobs := map[At(5) := BLOB]) }

  lemma Staged()
    ensures Reachable(U3(), C)
  {
    hide Next, Staging, Physical, Reachable;
    IsReachable();
    IsCreated();
    Then(START, Transact(NewBucket(BKT, Bucket(false, 100, false), false)));
    assert START.bucketIds + {BKT} == U1().bucketIds;
    assert Do(START, C, Transact(NewBucket(BKT, Bucket(false, 100, false), false))) == U1();
    IsReserved();
    PlacesDiffer();
    Then(U1(), Transact(Reserve(SLOT, Asked())));
    assert U1().uploadIds + {ID} == U2().uploadIds;
    assert Do(U1(), C, Transact(Reserve(SLOT, Asked()))) == U2();
    Then(U2(), Put(StagedAt(), BLOB));
    assert U2().blobs[StagedAt() := BLOB] == U3().blobs;
  }
  lemma IsReachable()
    ensures Reachable(START, C)
  {
    assert IsRun(START, C, [], START);
  }

  lemma Checked()
    ensures Reachable(Doing(U3(), CommitChecked(TheUpload())), C)
  {
    hide Staging, Physical, Reachable;
    Staged();
    Arrives(U3(), CommitStart(ID));
    MovesOn(U3(), CommitStart(ID), CommitFound(TheUpload()));
    Acts(U3(), CommitStart(ID), true, 0, U3(), CommitFound(TheUpload()));
    MovesOn(U3(), CommitFound(TheUpload()), CommitChecked(TheUpload()));
    Acts(U3(), CommitFound(TheUpload()), true, 0, U3(), CommitChecked(TheUpload()));
  }
  lemma Verified()
    ensures Reachable(Doing(U4(), CommitVerified(TheUpload(), 5)), C)
  {
    hide Staging, Physical, Reachable;
    Checked();
    MovesOn(U3(), CommitChecked(TheUpload()), CommitCopied(TheUpload(), 5));
    assert U3().blobs[At(5) := BLOB] == U4().blobs && U3().gens[5 := 0] == U4().gens;
    Acts(U3(), CommitChecked(TheUpload()), true, 5, U4(), CommitCopied(TheUpload(), 5));
    MovesOn(U4(), CommitCopied(TheUpload(), 5), CommitVerified(TheUpload(), 5));
    Acts(U4(), CommitCopied(TheUpload(), 5), true, 0, U4(), CommitVerified(TheUpload(), 5));
  }
  lemma Stored()
    ensures Reachable(Doing(U5(), CommitStored(TheUpload(), None)), C)
  {
    hide Staging, Physical, Reachable, CommitUpload;
    Verified();
    IsCommitted();
    MovesOn(U4(), CommitVerified(TheUpload(), 5), CommitStored(TheUpload(), None));
    assert U4().content[SLOT := BLOB] == U5().content && U4().mapped + {At(5).key} == U5().mapped && U4().dangling - {SLOT} == {};
    Acts(U4(), CommitVerified(TheUpload(), 5), true, 0, U5(), CommitStored(TheUpload(), None));
  }
  lemma Uploaded()
    ensures Reachable(Quiet(U6()), C)
  {
    hide Staging, Physical, Reachable;
    Stored();
    PlacesDiffer();
    MovesOn(U5(), CommitStored(TheUpload(), None), CommitCleaning(None));
    assert U5().blobs - {StagedAt()} == U6().blobs;
    Acts(U5(), CommitStored(TheUpload(), None), true, 0, U6(), CommitCleaning(None));
    MovesOn(U6(), CommitCleaning(None), Finished);
    Acts(U6(), CommitCleaning(None), true, 0, U6(), Finished);
    Leaves(U6(), Finished);
  }

  // ---------- A rotation that stops in the middle ----------

  function U7(): World { Quiet(U6()) }
  function U8(): World { U7().(blobs := map[At(5) := BLOB, At(6) := BLOB], gens := map[5 := 0, 6 := 0]) }
  function U9(): World { U8().(blobs := map[At(6) := BLOB], dangling := {SLOT}) }

  lemma CopiedOver()
    ensures Reachable(Doing(U8(), RotateCopied(TheRow(), 6)), C)
  {
    hide Staging, Physical, Reachable;
    Uploaded();
    Arrives(U7(), RotateStart);
    MovesOn(U7(), RotateStart, RotateFound(TheRow()));
    Acts(U7(), RotateStart, true, 0, U7(), RotateFound(TheRow()));
    MovesOn(U7(), RotateFound(TheRow()), RotateCopied(TheRow(), 6));
    assert U7().blobs[At(6) := BLOB] == U8().blobs && U7().gens[6 := 0] == U8().gens;
    Acts(U7(), RotateFound(TheRow()), true, 6, U8(), RotateCopied(TheRow(), 6));
  }
  lemma MovedOver()
    ensures Reachable(Doing(U9(), RotateMoved(TheRow(), 6)), C)
  {
    hide Staging, Physical, Reachable;
    CopiedOver();
    PlacesDiffer();
    MovesOn(U8(), RotateCopied(TheRow(), 6), RotateMoved(TheRow(), 6));
    assert U8().blobs - {At(5)} == U9().blobs && U8().dangling + {SLOT} == U9().dangling;
    Acts(U8(), RotateCopied(TheRow(), 6), true, 0, U9(), RotateMoved(TheRow(), 6));
  }

  /** A run from the empty service that ends with an object in an active bucket whose bytes are
      not where its row says: the process stopped right after the rotation's backend delete. */
  lemma RotationWindowIsReached() returns (w: World)
    ensures Reachable(w, C) && w.ops == map[] && SLOT in w.led.objects && Active(w.led, BKT)
    ensures Place(w.led.objects[SLOT]) !in w.blobs
  {
    MovedOver();
    PlacesDiffer();
    hide Staging, Physical, Reachable;
    Then(Doing(U9(), RotateMoved(TheRow(), 6)), Crash);
    w := Do(Doing(U9(), RotateMoved(TheRow(), 6)), C, Crash);
  }

  lemma {:induction false} ReachableRun(w: World, steps: seq<Step>, w': World)
    requires Reachable(w, C) && IsRun(w, C, steps, w')
    ensures Reachable(w', C)
    decreases steps
  {
    hide Reachable, Enabled, Do;
    if steps != [] {
      Then(w, steps[0]);
      ReachableRun(Do(w, C, steps[0]), steps[1..], w');
    }
  }

  /** And one in which the metadata switch fails, copying back fails and deleting the copy does
      not: the row is there and its bytes are nowhere. */
  lemma BytesCanBeLost() returns (w: World)
    ensures Reachable(w, C) && SLOT in w.led.objects && Active(w.led, BKT)
    ensures w.led.objects[SLOT] == TheRow() && Place(TheRow()) !in w.blobs && Target("", SLOT, 6) !in w.blobs
  {
    hide Staging, Physical, Reachable, Inv, IsRun;
    MovedOver();
    var w0 := Doing(U9(), RotateMoved(TheRow(), 6));
    ReachableInv(w0, C);
    w := BytesAreLostIff(w0, C, 0, SLOT, TheRow(), 6, false, true);
    ReachableRun(w0, [Act(0, false, 0)] + ([Act(0, false, 0)] + ([Act(0, true, 0)] + [])), w);
  }

  // ---------- A bucket is deleted ----------

  const TOKEN := "t"
  const DEADLINE := 60 + MINUTE

  function Led4(): Tables { Led3().(confirmations := map[TOKEN := Confirmation(BKT, 0, 100)]) }
  function Led5(): Tables { Led3().(deletions := map[BKT := Deletion(0, DEADLINE)]) }

  lemma IsPrepared()
    ensures Next(Led3(), C, Prepare(BKT, TOKEN, 0, 100)) == Led4()
  {
    hide Physical;
  }
  lemma IsBegun()
    ensures Next(Led4(), C, Op.Begin(0, BKT, TOKEN)) == Led5()
  {
    hide Physical;
    assert ID in Led4().grants && Led4().grants[ID] == Grant(BKT, 60);
    assert Deadline(Led4().grants, BKT, 0) == DEADLINE;
    assert ConfirmationsBut(Led4().confirmations, BKT) == map[];
    assert RevokeAll(Led4().links, BucketObjectIds(Led4().objects, BKT)) == map[];
  }

  function V1(): World { U7().(led := Led4()) }
  function V2(): World { U7().(led := Led5()) }
  function V3(): World { V2().(now := DEADLINE) }
  function V4(): World {
    V3().(locks := map[BKT := Mutex(0, true)], worker := Sweeping(BKT, {""}, {}), begun := {BKT})
  }
  function V5(): World { V4().(blobs := map[]) }
  function V6(): World { V5().(worker := Sweeping(BKT, {""}, {""})) }

  lemma Begun()
    ensures Reachable(V3(), C)
  {
    hide Next, Physical, Staging, Reachable;
    Uploaded();
    IsPrepared();
    Then(U7(), Transact(Prepare(BKT, TOKEN, 0, 100)));
    assert Do(U7(), C, Transact(Prepare(BKT, TOKEN, 0, 100))) == V1();
    IsBegun();
    Then(V1(), Transact(Op.Begin(0, BKT, TOKEN)));
    assert Do(V1(), C, Transact(Op.Begin(0, BKT, TOKEN))) == V2();
    Then(V2(), Wait(DEADLINE));
  }
  lemma InPrefix()
    ensures FinalPrefix(BKT) <= At(5).key
  {
    PurgeIsIsolated(BKT, BKT, 5, "", "k");
  }
  lemma Held()
    ensures Reachable(V4(), C)
  {
    hide Next, Call, Physical, Staging, Reachable;
    Begun();
    Then(V3(), WorkerLock(BKT, true));
    assert V3().led.sources.Keys + {""} == {""} && V3().begun + {BKT} == {BKT};
    assert V3().locks[BKT := Mutex(0, true)] == V4().locks;
  }
  lemma Swept()
    requires Reachable(V4(), C)
    ensures Reachable(V5(), C)
  {
    hide Next, Call, Physical, Staging, Reachable, FinishBucketDeletion;
    InPrefix();
    Then(V4(), SweepDelete(At(5)));
    assert V4().blobs - {At(5)} == V5().blobs;
  }
  lemma Emptied()
    ensures Reachable(V6(), C)
  {
    hide Next, Call, Physical, Staging, Reachable, FinishBucketDeletion;
    Held();
    Swept();
    Then(V5(), SweepDone(""));
    assert V5().worker.swept + {""} == V6().worker.swept;
  }

  /** A run from the empty service in which a bucket with an object in it is deleted. */
  lemma DeletionIsReached() returns (w: World)
    ensures Reachable(w, C) && BKT in w.cleared && w.cleared[BKT] == {""} && BKT !in w.led.buckets
  {
    Emptied();
    hide Physical, Staging, Reachable;
    Then(V6(), FinishDeletion);
    w := Do(V6(), C, FinishDeletion);
  }
}

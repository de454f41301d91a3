/**
 The two models of the service agree: the calls that module Protocol lets one operation make,
 made one after the other with nothing in between, do to the tables and the stored bytes what
 module Service proves of the whole method. What holds of the interleaved calls is thus about
 the same commits, rotations and deletes.
 */
module Refinement {
  import opened Ledger
  import opened Names
  import opened Protocol
  import opened Invariants
  import opened Transitions
  import opened Safety
  import opened Service

  // ---------- The calls of a commit ----------

  function Doing(w: World, t: nat, slot: Slot, task: Task): World { w.(ops := w.ops[t := Inside(slot, task)]) }

  lemma FindCall(w: World, t: nat, slot: Slot, id: Id)
    requires slot in w.led.uploads && w.led.uploads[slot].id == id
    ensures CanAct(w, slot, CommitStart(id), true, 0)
    ensures Call(w, t, slot, CommitStart(id), true, 0) == Doing(w, t, slot, CommitFound(w.led.uploads[slot]))
  {
  }
  lemma CheckCall(w: World, t: nat, slot: Slot, up: Upload)
    requires Loc(up.source, up.physical) in w.blobs && |w.blobs[Loc(up.source, up.physical)]| == up.size
    ensures CanAct(w, slot, CommitFound(up), true, 0)
    ensures Call(w, t, slot, CommitFound(up), true, 0) == Doing(w, t, slot, CommitChecked(up))
  {
  }
  lemma PromoteCall(w: World, t: nat, slot: Slot, up: Upload, g: nat)
    requires Loc(up.source, up.physical) in w.blobs && g !in w.gens
    ensures CanAct(w, slot, CommitChecked(up), true, g)
    ensures Call(w, t, slot, CommitChecked(up), true, g) ==
      Doing(w, t, slot, CommitCopied(up, g)).(
        blobs := w.blobs[Target(up.source, slot, g) := w.blobs[Loc(up.source, up.physical)]], gens := w.gens[g := t])
  {
  }
  lemma VerifyCall(w: World, t: nat, slot: Slot, up: Upload, g: nat)
    requires var at := Target(up.source, slot, g); at in w.blobs && |w.blobs[at]| == up.size
    ensures CanAct(w, slot, CommitCopied(up, g), true, 0)
    ensures Call(w, t, slot, CommitCopied(up, g), true, 0) == Doing(w, t, slot, CommitVerified(up, g))
  {
  }
  lemma StoreCall(w: World, t: nat, slot: Slot, up: Upload, g: nat)
    requires var r := CommitUpload(w.led, slot, up.id, Target(up.source, slot, g).key, up.size); r.Done?
    requires Target(up.source, slot, g) in w.blobs
    ensures CanAct(w, slot, CommitVerified(up, g), true, 0)
    ensures var at, w' := Target(up.source, slot, g), Call(w, t, slot, CommitVerified(up, g), true, 0);
      w' == Doing(w, t, slot, CommitStored(up, if slot in w.led.objects then Some(Place(w.led.objects[slot])) else None)).(
        led := CommitUpload(w.led, slot, up.id, at.key, up.size).tables, mapped := w.mapped + {at.key},
        content := w.content[slot := w.blobs[at]], dangling := w.dangling - {slot})
  {
    hide CommitUpload;
  }
  lemma UnstageCall(w: World, t: nat, slot: Slot, up: Upload, replaced: Option<Loc>, ok: bool)
    ensures CanAct(w, slot, CommitStored(up, replaced), ok, 0)
    ensures Call(w, t, slot, CommitStored(up, replaced), ok, 0) ==
      Doing(w, t, slot, CommitCleaning(replaced)).(blobs := if ok then w.blobs - {Loc(up.source, up.physical)} else w.blobs)
  {
  }
  lemma ReplacedCall(w: World, t: nat, slot: Slot, replaced: Option<Loc>, ok: bool)
    ensures CanAct(w, slot, CommitCleaning(replaced), ok, 0)
    ensures Call(w, t, slot, CommitCleaning(replaced), ok, 0) ==
      Doing(w, t, slot, Finished).(blobs := if ok && replaced.Some? then w.blobs - {replaced.value} else w.blobs)
  {
  }

  /** One call more in front of a run. */
  lemma Before(w: World, c: Limits, t: nat, slot: Slot, task: Task, ok: bool, drawn: nat, w1: World, rest: seq<Step>, w': World)
    requires t in w.ops && w.ops[t] == Inside(slot, task) && CanAct(w, slot, task, ok, drawn)
    requires w1 == Call(w, t, slot, task, ok, drawn) && IsRun(w1, c, rest, w')
    ensures IsRun(w, c, [Act(t, ok, drawn)] + rest, w')
  {
    hide IsRun, Enabled, Do, Call, CanAct;
    ActIsCall(w, c, t, slot, task, ok, drawn);
    OneMore(w, c, Act(t, ok, drawn), rest, w');
  }

  /** After the transaction: the staged bytes and the replaced ones go, if their deletes work. */
  function Cleaning(t: nat, unstaged: bool, removed: bool): seq<Step> { [Act(t, unstaged, 0)] + ([Act(t, removed, 0)] + []) }
  lemma CleaningRun(w: World, c: Limits, t: nat, slot: Slot, up: Upload, replaced: Option<Loc>, unstaged: bool, removed: bool)
    returns (w': World)
    requires t in w.ops && w.ops[t] == Inside(slot, CommitStored(up, replaced))
    ensures IsRun(w, c, Cleaning(t, unstaged, removed), w')
    ensures w' == w.(ops := w'.ops, blobs := w'.blobs)
    ensures forall l :: l in w'.blobs ==> l in w.blobs && w'.blobs[l] == w.blobs[l]
    ensures forall l :: l in w.blobs && l != Loc(up.source, up.physical) && replaced != Some(l) ==> l in w'.blobs
  {
    hide IsRun, Call, CanAct;
    UnstageCall(w, t, slot, up, replaced, unstaged);
    var w1 := Call(w, t, slot, CommitStored(up, replaced), unstaged, 0);
    ReplacedCall(w1, t, slot, replaced, removed);
    w' := Call(w1, t, slot, CommitCleaning(replaced), removed, 0);
    IsRunNil(w', c);
    Before(w1, c, t, slot, CommitCleaning(replaced), removed, 0, w', [], w');
    Before(w, c, t, slot, CommitStored(up, replaced), unstaged, 0, w1, [Act(t, removed, 0)] + [], w');
  }

  /** The first four calls change nothing but the bytes at the new key. */
  ghost function Verified(w: World, t: nat, slot: Slot, up: Upload, g: nat): World
    requires Loc(up.source, up.physical) in w.blobs
  {
    w.(ops := w.ops[t := Inside(slot, CommitFound(up))][t := Inside(slot, CommitChecked(up))]
                   [t := Inside(slot, CommitCopied(up, g))][t := Inside(slot, CommitVerified(up, g))],
       blobs := w.blobs[Target(up.source, slot, g) := w.blobs[Loc(up.source, up.physical)]], gens := w.gens[g := t])
  }
  lemma VerifiedRun(w: World, c: Limits, t: nat, slot: Slot, id: Id, g: nat, rest: seq<Step>, w': World)
    requires t in w.ops && w.ops[t] == Inside(slot, CommitStart(id)) && slot in w.led.uploads && w.led.uploads[slot].id == id
    requires var up := w.led.uploads[slot]; var at := Loc(up.source, up.physical); at in w.blobs && |w.blobs[at]| == up.size
    requires g !in w.gens && IsRun(Verified(w, t, slot, w.led.uploads[slot], g), c, rest, w')
    ensures IsRun(w, c, [Act(t, true, 0)] + ([Act(t, true, 0)] + ([Act(t, true, g)] + ([Act(t, true, 0)] + rest))), w')
  {
    hide IsRun, Call, CanAct, Target;
    var up := w.led.uploads[slot];
    FindCall(w, t, slot, id);
    var w1 := Call(w, t, slot, CommitStart(id), true, 0);
    CheckCall(w1, t, slot, up);
    var w2 := Call(w1, t, slot, CommitFound(up), true, 0);
    PromoteCall(w2, t, slot, up, g);
    var w3 := Call(w2, t, slot, CommitChecked(up), true, g);
    VerifyCall(w3, t, slot, up, g);
    var w4 := Call(w3, t, slot, CommitCopied(up, g), true, 0);
    Before(w3, c, t, slot, CommitCopied(up, g), true, 0, w4, rest, w');
    Before(w2, c, t, slot, CommitChecked(up), true, g, w3, [Act(t, true, 0)] + rest, w');
    Before(w1, c, t, slot, CommitFound(up), true, 0, w2, [Act(t, true, g)] + ([Act(t, true, 0)] + rest), w');
    Before(w, c, t, slot, CommitStart(id), true, 0, w1, [Act(t, true, 0)] + ([Act(t, true, g)] + ([Act(t, true, 0)] + rest)), w');
  }

  function CommitSteps(t: nat, g: nat, unstaged: bool, removed: bool): seq<Step> {
    [Act(t, true, 0)] + ([Act(t, true, 0)] + ([Act(t, true, g)] + ([Act(t, true, 0)] + ([Act(t, true, 0)] + Cleaning(t, unstaged, removed)))))
  }
  /** A commit's calls, whichever of its last two deletes fail, do what its method promises. */
  lemma CommitIsItsCalls(w: World, c: Limits, t: nat, slot: Slot, id: Id, g: nat, unstaged: bool, removed: bool) returns (w': World)
    requires t in w.ops && w.ops[t] == Inside(slot, CommitStart(id)) && WellFormed(w.led) && g !in w.gens
    requires slot in w.led.uploads && MustCommit(w.led, w.blobs, {w.led.uploads[slot].source}, slot, id, g)
    ensures IsRun(w, c, CommitSteps(t, g, unstaged, removed), w')
    ensures Committed(w.led, w'.led, w.blobs, w'.blobs, slot, id, g)
    ensures slot in w'.content && w'.content[slot] == w.blobs[Loc(w.led.uploads[slot].source, w.led.uploads[slot].physical)]
  {
    hide IsRun, Call, CanAct, WellFormed, CommitUpload, Physical;
    var up := w.led.uploads[slot];
    var staged, at := Loc(up.source, up.physical), Target(up.source, slot, g);
    NothingClashes(w.led, w.blobs, slot, id, g);
    CommitReplies(w.led, slot, id, at.key, up.size);
    var w4 := Verified(w, t, slot, up, g);
    StoreCall(w4, t, slot, up, g);
    var w5 := Call(w4, t, slot, CommitVerified(up, g), true, 0);
    var replaced := if slot in w.led.objects then Some(Place(w.led.objects[slot])) else None;
    w' := CleaningRun(w5, c, t, slot, up, replaced, unstaged, removed);
    Before(w4, c, t, slot, CommitVerified(up, g), true, 0, w5, Cleaning(t, unstaged, removed), w');
    VerifiedRun(w, c, t, slot, id, g, [Act(t, true, 0)] + Cleaning(t, unstaged, removed), w');
    IsCommitted(w.led, w'.led, w.blobs, w'.blobs, slot, id, g);
  }
  lemma CommitReplies(t: Tables, slot: Slot, id: Id, physical: string, actual: nat)
    ensures CommitUpload(t, slot, id, physical, actual).Done? <==> CommitRefusal(t, slot, id, physical) == None
  {
  }

  // ---------- The calls of a rotation and of a delete ----------

  lemma SwitchCall(w: World, t: nat, slot: Slot, row: Object, g: nat)
    requires WellFormed(w.led) && slot in w.led.objects && w.led.objects[slot] == row
    requires RotatePhysicalKey(w.led, row.id, Physical(slot.bucket, g, slot.key), g).Done?
    ensures CanAct(w, slot, RotateMoved(row, g), true, 0)
    ensures var at, w' := Target(row.source, slot, g), Call(w, t, slot, RotateMoved(row, g), true, 0);
      && w'.led == w.led.(objects := w.led.objects[slot := row.(physical := at.key, generation := g)])
      && w'.blobs == w.blobs && w'.ops == w.ops[t := Inside(slot, Finished)]
  {
    hide Physical;
    IdIsSlot(w.led.objects, slot);
    SwitchedRow(w.led, slot, Physical(slot.bucket, g, slot.key), g);
  }
  /** A rotation's calls, none failing, do what its method promises. */
  lemma RotationIsItsCalls(w: World, c: Limits, t: nat, slot: Slot, row: Object, g: nat) returns (w': World)
    requires t in w.ops && w.ops[t] == Inside(slot, RotateFound(row)) && WellFormed(w.led) && g !in w.gens
    requires slot in w.led.objects && w.led.objects[slot] == row && Place(row) in w.blobs && NewKey(w.led.objects, w.blobs, slot, g)
    ensures IsRun(w, c, [Act(t, true, g)] + ([Act(t, true, 0)] + ([Act(t, true, 0)] + [])), w')
    ensures Rotated(w.led, w'.led, w.blobs, w'.blobs, slot, g)
  {
    hide IsRun, Call, WellFormed, RotatePhysicalKey, Physical;
    NewKeyFits(w.led, w.blobs, slot, g);
    var w2 := MovedOn(w, t, slot, row, g);
    SwitchCall(w2, t, slot, row, g);
    w' := Call(w2, t, slot, RotateMoved(row, g), true, 0);
    IsRunNil(w', c);
    Before(w2, c, t, slot, RotateMoved(row, g), true, 0, w', [], w');
    MoveRun(w, c, t, slot, row, g, [Act(t, true, 0)] + [], w');
  }

  lemma DeleteCalls(w: World, t: nat, slot: Slot, row: Object)
    requires slot in w.led.objects && w.led.objects[slot] == row
    ensures CanAct(w, slot, DeleteStart, true, 0)
    ensures Call(w, t, slot, DeleteStart, true, 0) == Doing(w, t, slot, DeleteFound(row))
    ensures Call(w, t, slot, DeleteFound(row), true, 0) ==
      Doing(w, t, slot, DeleteGone(row)).(blobs := w.blobs - {Place(row)}, dangling := w.dangling + {slot})
  {
  }
  lemma RowCall(w: World, t: nat, slot: Slot, row: Object)
    requires WellFormed(w.led) && slot in w.led.objects && w.led.objects[slot] == row
    ensures var w' := Call(w, t, slot, DeleteGone(row), true, 0);
      w' == Doing(w, t, slot, Finished).(led := w'.led, dangling := w.dangling - {slot})
      && w'.led == w.led.(objects := w.led.objects - {slot}, links := LinksBut(w.led.links, {row.id}))
  {
    hide WellFormed, LinksBut;
    RowGoes(w.led, slot, row);
  }
  lemma RowGoes(t: Tables, slot: Slot, row: Object)
    requires WellFormed(t) && slot in t.objects && t.objects[slot] == row
    ensures DeleteObject(t, row.id) == Outcome.Done(t.(objects := t.objects - {slot}, links := LinksBut(t.links, {row.id})))
  {
    hide LinksBut;
    IdIsSlot(t.objects, slot);
  }
  /** A delete's calls, none failing, take the bytes, the row and the object's links and
      nothing else. */
  lemma DeleteIsItsCalls(w: World, c: Limits, t: nat, slot: Slot) returns (w': World)
    requires t in w.ops && w.ops[t] == Inside(slot, DeleteStart) && WellFormed(w.led) && slot in w.led.objects
    ensures IsRun(w, c, [Act(t, true, 0)] + ([Act(t, true, 0)] + ([Act(t, true, 0)] + [])), w')
    ensures w'.blobs == w.blobs - {Place(w.led.objects[slot])}
    ensures w'.led == w.led.(objects := w.led.objects - {slot},
      links := map s | s in w.led.links && w.led.links[s].target != w.led.objects[slot].id :: w.led.links[s])
  {
    hide IsRun, Call, WellFormed;
    var row := w.led.objects[slot];
    DeleteCalls(w, t, slot, row);
    var w1 := Call(w, t, slot, DeleteStart, true, 0);
    DeleteCalls(w1, t, slot, row);
    var w2 := Call(w1, t, slot, DeleteFound(row), true, 0);
    RowCall(w2, t, slot, row);
    w' := Call(w2, t, slot, DeleteGone(row), true, 0);
    IsRunNil(w', c);
    Before(w2, c, t, slot, DeleteGone(row), true, 0, w', [], w');
    Before(w1, c, t, slot, DeleteFound(row), true, 0, w2, [Act(t, true, 0)] + [], w');
    Before(w, c, t, slot, DeleteStart, true, 0, w1, [Act(t, true, 0)] + ([Act(t, true, 0)] + []), w');
  }
}

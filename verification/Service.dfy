/**
 The service's own methods, call by call against the store and the backends, with any backend
 call and any statement that writes rows free to fail. Failures are counted, so that what must
 succeed without one can be said. Run one at a time here: what interleaving and crashes can do
 to them is the subject of module Protocol.
 */
module Service {
  import opened Ledger
  import opened Names
  import opened Protocol
  import opened Sorting
  import opened Store
  import Tombstones

  datatype Failure =
    | Rejected(error: Error)
    | DatabaseDown
    | SourceUnavailable
    | BackendFailed
    | SizeMismatch
    | BadSize
    | BadKey
    | BadExpiry
    | NoCapacity
    | SigningFailed
    | SourceMissing

  /** What every configured backend stores. `faults` counts calls that failed although what
      they needed was there. */
  class Backends {
    var blobs: map<Loc, Blob>
    ghost var faults: nat

    method Head(at: Loc) returns (size: Option<nat>)
      modifies `faults
      ensures size.Some? ==> at in blobs && size.value == |blobs[at]|
      ensures faults == old(faults) + if size.None? && at in blobs then 1 else 0
    {
      if at !in blobs { return None; }
      if * { faults := faults + 1; return None; }
      return Some(|blobs[at]|);
    }

    method Copy(from: Loc, to: Loc) returns (ok: bool)
      modifies this
      ensures ok ==> from in old(blobs) && blobs == old(blobs)[to := old(blobs)[from]]
      ensures !ok ==> blobs == old(blobs)
      ensures faults == old(faults) + if !ok && from in old(blobs) then 1 else 0
    {
      if from !in blobs { return false; }
      if * { faults := faults + 1; return false; }
      blobs := blobs[to := blobs[from]];
      return true;
    }

    method Delete(at: Loc) returns (ok: bool)
      modifies this
      ensures blobs == if ok then old(blobs) - {at} else old(blobs)
      ensures faults == old(faults) + if ok then 0 else 1
    {
      if * { faults := faults + 1; return false; }
      blobs := blobs - {at};
      return true;
    }

    /** Signing a URL for a PUT changes nothing. */
    method Presign() returns (ok: bool)
      modifies `faults
      ensures faults == old(faults) + if ok then 0 else 1
    {
      if * { faults := faults + 1; return false; }
      return true;
    }

    /** A failed purge may have deleted some of what it was asked to. */
    method PurgePrefix(source: Id, prefix: string) returns (ok: bool)
      modifies this
      ensures forall l :: l in blobs ==> l in old(blobs) && blobs[l] == old(blobs)[l]
      ensures forall l :: l in old(blobs) && !(l.source == source && prefix <= l.key) ==> l in blobs
      ensures ok ==> forall l :: l in blobs && l.source == source ==> !(prefix <= l.key)
      ensures faults == old(faults) + if ok then 0 else 1
    {
      var matching := set l | l in blobs && l.source == source && prefix <= l.key;
      if * {
        var some: set<Loc> := *;
        blobs := blobs - (some * matching);
        faults := faults + 1;
        return false;
      }
      blobs := blobs - matching;
      return true;
    }
  }

  /** The key a generation makes for this place is neither stored nor mapped anywhere. */
  ghost predicate NewKey(objects: map<Slot, Object>, blobs: map<Loc, Blob>, slot: Slot, gen: nat) {
    && (forall l :: l in blobs ==> l.key != Physical(slot.bucket, gen, slot.key))
    && (forall s :: s in objects ==> objects[s].physical != Physical(slot.bucket, gen, slot.key))
  }

  class Service {
    const db: Store
    const backends: Backends
    /** The sources that have a backend in memory, and of those the enabled ones; the empty id
        is in both if there is a legacy backend. */
    var loaded: set<Id>
    var available: set<Id>
    /** How often the database did not answer. */
    ghost var outages: nat

    ghost predicate Valid()
      reads this, db
    {
      db.Valid() && ("" in loaded ==> "" in available)
    }

    constructor (db: Store, backends: Backends, loaded: set<Id>, available: set<Id>)
      requires db.Valid() && ("" in loaded ==> "" in available)
      ensures Valid() && this.db == db && this.backends == backends && this.loaded == loaded && this.available == available
    {
      this.db, this.backends, this.loaded, this.available := db, backends, loaded, available;
    }

    /** Does the database carry out the next statement? One it does not has no effect. */
    method Answers() returns (up: bool)
      modifies `outages
      ensures outages == old(outages) + if up then 0 else 1
    {
      if * { outages := outages + 1; return false; }
      return true;
    }

    /** The state check made on entering a bucket. */
    method RequireActiveBucket(b: Id) returns (err: Option<Failure>)
      ensures err == if b !in db.tables.buckets then Some(Rejected(NoRows))
                     else if b in db.tables.deletions then Some(Rejected(BucketDeleting)) else None
    {
      if b !in db.tables.buckets { return Some(Rejected(NoRows)); }
      if b in db.tables.deletions { return Some(Rejected(BucketDeleting)); }
      return None;
    }

    /** The metadata switch of a rotation, or a database that will not take it. */
    method SwitchKey(id: Id, physical: string, gen: int) returns (err: Option<Failure>)
      requires Valid()
      modifies db, `outages
      ensures Valid()
      ensures err == None ==> RotatePhysicalKey(old(db.tables), id, physical, gen) == Outcome.Done(db.tables)
      ensures err == Some(Rejected(Constraint)) ==> RotatePhysicalKey(old(db.tables), id, physical, gen) == Refused(Constraint)
      ensures err in {None, Some(DatabaseDown), Some(Rejected(Constraint))}
      ensures err != None ==> db.tables == old(db.tables)
      ensures outages == old(outages) + if err == Some(DatabaseDown) then 1 else 0
    {
      var up := Answers();
      if !up { return Some(DatabaseDown); }
      var e := db.RotatePhysicalKey(id, physical, gen);
      if e != None { return Some(Rejected(e.value)); }
      return None;
    }

    /** Copies the object to a new key, deletes the old one and switches the row; undoes the
        first two when the third fails. An object that is there goes through exactly if
        backend and database answer every call. With no backend fault a failed rotation leaves
        everything as it was; with any, at most the object's own bytes are gone, and those
        are exactly when the copy back fails and the delete of the copy does not. `undone` is
        what became of those two calls, if they were made. */
    method RotateObjectKey(slot: Slot, gen: nat) returns (err: Option<Failure>, ghost undone: Option<(bool, bool)>)
      requires Valid()
      modifies db, backends, `outages
      ensures Valid()
      ensures err == None ==> Rotated(old(db.tables), db.tables, old(backends.blobs), backends.blobs, slot, gen)
      ensures err == None ==> old(CanRotate(db.tables, backends.blobs, available, slot))
      ensures old(CanRotate(db.tables, backends.blobs, available, slot)) && old(NewKey(db.tables.objects, backends.blobs, slot, gen)) ==>
        (err == None <==> backends.faults == old(backends.faults) && outages == old(outages))
      ensures old(CanRotate(db.tables, backends.blobs, available, slot)) && backends.faults == old(backends.faults) ==>
        err in {None, Some(DatabaseDown), Some(Rejected(Constraint))}
      ensures err != None ==> db.tables == old(db.tables)
      ensures err != None && old(NewKey(db.tables.objects, backends.blobs, slot, gen)) && backends.faults == old(backends.faults) ==>
        backends.blobs == old(backends.blobs)
      ensures err != None && old(NewKey(db.tables.objects, backends.blobs, slot, gen)) ==>
        KeptBut(old(db.tables.objects), old(backends.blobs), backends.blobs, slot)
      ensures err != None && old(NewKey(db.tables.objects, backends.blobs, slot, gen)) && old(HasBytes(db.tables, backends.blobs, slot)) ==>
        (Lost(old(db.tables), backends.blobs, slot, gen) <==> undone == Some((false, true)))
    {
      hide WellFormed, Physical, RotatePhysicalKey;
      undone := None;
      err := RequireActiveBucket(slot.bucket);
      if err != None { return; }
      if slot !in db.tables.objects { err := Some(Rejected(NoRows)); return; }
      var row := db.tables.objects[slot];
      var next := Target(row.source, slot, gen);
      if row.source !in available { err := Some(SourceUnavailable); return; }
      ghost var were := backends.blobs;
      var copied := backends.Copy(Place(row), next);
      if !copied { err := Some(BackendFailed); return; }
      var deleted := backends.Delete(Place(row));
      if !deleted { err := Some(BackendFailed); return; }
      SwitchedRow(db.tables, slot, next.key, gen);
      NewKeyFits(db.tables, were, slot, gen);
      err := SwitchKey(row.id, next.key, gen);
      if err != None {
        UndoRestores(were, Place(row), next);
        var restored, cleaned := UndoRotation(Place(row), next);
        undone := Some((restored, cleaned));
      }
    }
    /** Copies the bytes back and deletes the copy, whatever becomes of the first. */
    method UndoRotation(at: Loc, next: Loc) returns (restored: bool, cleaned: bool)
      modifies backends
      ensures restored ==> next in old(backends.blobs)
      ensures backends.faults >= old(backends.faults)
      ensures backends.blobs ==
        (if restored then old(backends.blobs)[at := old(backends.blobs)[next]] else old(backends.blobs)) - (if cleaned then {next} else {})
      ensures old(next in backends.blobs) ==>
        backends.faults == old(backends.faults) + (if restored then 0 else 1) + if cleaned then 0 else 1
    {
      restored := backends.Copy(next, at);
      cleaned := backends.Delete(next);
    }

    /** The commit's transaction, or a database that will not take it. */
    method StoreUpload(slot: Slot, id: Id, physical: string, actual: nat) returns (err: Option<Failure>, replaced: Option<Object>)
      requires Valid()
      modifies db, `outages
      ensures Valid()
      ensures err == None ==> Ledger.CommitUpload(old(db.tables), slot, id, physical, actual) == Outcome.Done(db.tables)
      ensures err == None ==> replaced == if slot in old(db.tables).objects then Some(old(db.tables).objects[slot]) else None
      ensures err != None ==> db.tables == old(db.tables)
      ensures err == None || err == Some(DatabaseDown)
           || (err.value.Rejected? && CommitRefusal(old(db.tables), slot, id, physical) == Some(err.value.error))
      ensures outages == old(outages) + if err == Some(DatabaseDown) then 1 else 0
    {
      hide WellFormed;
      var up := Answers();
      if !up { return Some(DatabaseDown), None; }
      var e;
      e, replaced := db.CommitUpload(slot, id, physical, actual);
      if e != None { return Some(Rejected(e.value)), None; }
      return None, replaced;
    }

    /** Checks the uploaded size, copies the bytes to a key of their own, checks again, and
        only then commits; a failure before that takes the copy away again. Whatever fails,
        no byte stored before is touched; once committed, only the staged bytes and the
        replaced object's are deleted. An upload that can be committed is, unless a call to a
        backend or the database fails. */
    method CommitUpload(slot: Slot, id: Id, gen: nat) returns (err: Option<Failure>)
      requires Valid()
      modifies db, backends, `outages
      ensures Valid()
      ensures err == None && old(NewKey(db.tables.objects, backends.blobs, slot, gen)) ==>
        Committed(old(db.tables), db.tables, old(backends.blobs), backends.blobs, slot, id, gen)
      ensures err == None && old(NewKey(db.tables.objects, backends.blobs, slot, gen)) && backends.faults == old(backends.faults) ==>
        Tidied(old(db.tables), backends.blobs, available, slot)
      ensures err != None ==> db.tables == old(db.tables)
      ensures err != None && old(NewKey(db.tables.objects, backends.blobs, slot, gen)) ==>
        old(backends.blobs).Items <= backends.blobs.Items
      ensures err != None && old(NewKey(db.tables.objects, backends.blobs, slot, gen)) && backends.faults == old(backends.faults) ==>
        backends.blobs == old(backends.blobs)
      ensures err in {Some(BackendFailed), Some(SizeMismatch)} && old(NewKey(db.tables.objects, backends.blobs, slot, gen)) ==>
        backends.blobs == old(backends.blobs) || backends.faults > old(backends.faults) + 1
      ensures old(CanCommit(db.tables, backends.blobs, available, slot, id)) && backends.faults == old(backends.faults) ==>
        err in {None, Some(DatabaseDown), Some(Rejected(Constraint))}
      ensures old(MustCommit(db.tables, backends.blobs, available, slot, id, gen)) ==>
        err == None || backends.faults > old(backends.faults) || outages > old(outages)
    {
      hide WellFormed, Physical, Ledger.CommitUpload, Committed, NewKey;
      ghost var t, were := db.tables, backends.blobs;
      err := RequireActiveBucket(slot.bucket);
      if err != None { return; }
      if slot !in db.tables.uploads || db.tables.uploads[slot].id != id { return Some(Rejected(NoRows)); }
      var up := db.tables.uploads[slot];
      if up.source !in available { return Some(SourceUnavailable); }
      var staged, next := Loc(up.source, up.physical), Target(up.source, slot, gen);
      var head := backends.Head(staged);
      if head == None { return Some(BackendFailed); }
      if head.value != up.size { return Some(SizeMismatch); }
      CopyGone(were[next := were[staged]], were, staged, next);
      NewPlaces(t, were, slot, gen, next);
      NothingClashes(t, were, slot, id, gen);
      err := Promote(staged, next, up.size);
      if err != None { return; }
      var replaced;
      err, replaced := StoreUpload(slot, id, next.key, up.size);
      if err != None {
        var removed := backends.Delete(next);
        return;
      }
      RemoveReplaced(staged, next, replaced);
      if NewKey(t.objects, were, slot, gen) { IsCommitted(t, db.tables, were, backends.blobs, slot, id, gen); }
    }

    /** Copies staged bytes to their final key, and takes the copy away if it is not what was
        checked. */
    method Promote(staged: Loc, next: Loc, size: nat) returns (err: Option<Failure>)
      requires staged in backends.blobs && |backends.blobs[staged]| == size
      modifies backends
      ensures err == None ==> backends.blobs == old(backends.blobs)[next := old(backends.blobs)[staged]]
      ensures backends.faults >= old(backends.faults) + if err == None then 0 else 1
      ensures err in {None, Some(BackendFailed), Some(SizeMismatch)}
      ensures err != None && next !in old(backends.blobs) && backends.faults == old(backends.faults) + 1 ==>
        backends.blobs == old(backends.blobs)
      ensures err != None && next !in old(backends.blobs) ==>
        backends.blobs == old(backends.blobs) || backends.blobs == old(backends.blobs)[next := old(backends.blobs)[staged]]
    {
      ghost var were := backends.blobs;
      var copied := backends.Copy(staged, next);
      if !copied { return Some(BackendFailed); }
      var final := backends.Head(next);
      if final == None || final.value != size {
        CopyGone(backends.blobs, were, staged, next);
        var removed := backends.Delete(next);
        return Some(if final == None then BackendFailed else SizeMismatch);
      }
      return None;
    }

    /** The staged bytes have been promoted and the replaced object unmapped: neither delete
        has to succeed. */
    method RemoveReplaced(staged: Loc, next: Loc, replaced: Option<Object>)
      modifies backends
      ensures forall l :: l in backends.blobs ==> l in old(backends.blobs) && backends.blobs[l] == old(backends.blobs)[l]
      ensures forall l :: l in old(backends.blobs) && l != staged && (replaced.Some? ==> l != Place(replaced.value)) ==> l in backends.blobs
      ensures next in old(backends.blobs) && next != staged && (replaced.Some? ==> replaced.value.physical != next.key) ==>
        next in backends.blobs
      ensures backends.faults >= old(backends.faults)
      ensures backends.faults == old(backends.faults) ==> staged !in backends.blobs
      ensures backends.faults == old(backends.faults) && replaced.Some? && replaced.value.physical != next.key ==>
        replaced.value.source !in available || Place(replaced.value) !in backends.blobs
    {
      var unstaged := backends.Delete(staged);
      if replaced.Some? && replaced.value.physical != next.key && replaced.value.source in available {
        var removed := backends.Delete(Place(replaced.value));
      }
    }

    /** The row of an object goes, or the database will not take it. */
    method RemoveRow(id: Id) returns (err: Option<Failure>)
      requires Valid() && ObjectHas(db.tables.objects, id)
      modifies db, `outages
      ensures Valid()
      ensures err == None ==> Ledger.DeleteObject(old(db.tables), id) == Outcome.Done(db.tables)
      ensures err != None ==> err == Some(DatabaseDown) && db.tables == old(db.tables)
      ensures outages == old(outages) + if err == None then 0 else 1
    {
      var up := Answers();
      if !up { return Some(DatabaseDown); }
      var e := db.DeleteObject(id);
      return None;
    }

    /** Deletes the bytes, then the row. If the database fails in between, the row is left
        pointing at nothing, and deleting again finishes the job. */
    method Delete(slot: Slot) returns (err: Option<Failure>)
      requires Valid()
      modifies db, backends, `outages
      ensures Valid()
      ensures err == None ==>
        && Active(old(db.tables), slot.bucket) && slot in old(db.tables).objects
        && db.tables == old(db.tables).(
             objects := old(db.tables).objects - {slot},
             links := map s | s in old(db.tables).links && old(db.tables).links[s].target != old(db.tables).objects[slot].id
                          :: old(db.tables).links[s])
        && backends.blobs == old(backends.blobs) - {Place(old(db.tables).objects[slot])}
      ensures err != None ==> db.tables == old(db.tables)
      ensures err != None && err != Some(DatabaseDown) ==> backends.blobs == old(backends.blobs)
      ensures err == Some(DatabaseDown) ==>
        slot in old(db.tables).objects && backends.blobs == old(backends.blobs) - {Place(old(db.tables).objects[slot])}
      ensures Active(old(db.tables), slot.bucket) && slot in old(db.tables).objects && old(db.tables).objects[slot].source in available ==>
        (err == None <==> backends.faults == old(backends.faults) && outages == old(outages))
    {
      hide WellFormed;
      err := RequireActiveBucket(slot.bucket);
      if err != None { return; }
      if slot !in db.tables.objects { return Some(Rejected(NoRows)); }
      var row := db.tables.objects[slot];
      if row.source !in available { return Some(SourceUnavailable); }
      var deleted := backends.Delete(Place(row));
      if !deleted { return Some(BackendFailed); }
      RowOfId(db.tables, slot);
      err := RemoveRow(row.id);
    }

    /** Gives up at most a hundred uploads that have expired, oldest first: deletes the staged
        bytes, then cancels. One whose bytes cannot be deleted keeps its reservation and does
        not hold up the others: no more of them stay than calls failed. */
    method CleanupExpiredUploads(now: int) returns (list: seq<Slot>, ghost kept: set<Slot>)
      requires Valid()
      modifies db, backends, `outages
      ensures Valid()
      ensures OldestExpired(old(db.tables), now, list)
      ensures GaveUp(old(db.tables), db.tables, now, list)
      ensures forall s :: s in list && s !in db.tables.uploads ==> Staged(old(db.tables).uploads[s]) !in backends.blobs
      ensures |kept| <= (backends.faults - old(backends.faults)) + (outages - old(outages))
      ensures forall s :: s in list && old(db.tables).uploads[s].source in available && s in db.tables.uploads ==> s in kept
      ensures backends.faults >= old(backends.faults) && outages >= old(outages)
      ensures OnlyStaged(old(db.tables).uploads, old(backends.blobs), backends.blobs, list)
    {
      hide WellFormed, Expired, Ledger.CancelUpload, GaveUp, OnlyStaged, Staged, IsOldest, OldestExpired;
      ghost var t, were := db.tables, backends.blobs;
      db.PruneUploadGrants(now);
      list := Oldest(Expired(db.tables, now), 100);
      SameExpired(t, now, db.tables);
      ExpiredRows(t, now, list);
      OldestAreExpired(t, now, list);
      NothingYet(t, db.tables, now, were);
      kept := {};
      var i := 0;
      while i < |list|
        invariant 0 <= i <= |list| && Valid() && IsOldest(Expired(t, now), 100, list)
        invariant forall s :: s in list[..i] ==> s in t.uploads
        invariant GaveUp(t, db.tables, now, list[..i])
        invariant forall s :: s in list[..i] && s !in db.tables.uploads ==> Staged(t.uploads[s]) !in backends.blobs
        invariant backends.faults >= old(backends.faults) && outages >= old(outages)
        invariant |kept| <= (backends.faults - old(backends.faults)) + (outages - old(outages))
        invariant forall s :: s in list[..i] && t.uploads[s].source in available && s in db.tables.uploads ==> s in kept
        invariant OnlyStaged(t.uploads, old(backends.blobs), backends.blobs, list[..i])
      {
        assert list[..i + 1] == list[..i] + [list[i]];
        Untouched(t, db.tables, now, list, i);
        ghost var t1, blobs1 := db.tables, backends.blobs;
        GiveUp(list[i]);
        if list[i] in db.tables.uploads && t.uploads[list[i]].source in available { kept := kept + {list[i]}; }
        OneGivenUp(t, t1, db.tables, now, list[..i], list[i]);
        OneUnstaged(t.uploads, were, blobs1, backends.blobs, list[..i], list[i]);
        i := i + 1;
      }
      assert list[..i] == list;
    }

    method GiveUp(slot: Slot)
      requires Valid() && slot in db.tables.uploads
      modifies db, backends, `outages
      ensures Valid()
      ensures db.tables == old(db.tables) || db.tables == old(db.tables).(uploads := old(db.tables).uploads - {slot})
      ensures backends.blobs == old(backends.blobs) || backends.blobs == old(backends.blobs) - {Staged(old(db.tables).uploads[slot])}
      ensures slot !in db.tables.uploads ==> Staged(old(db.tables).uploads[slot]) !in backends.blobs
      ensures backends.faults >= old(backends.faults) && outages >= old(outages)
      ensures old(db.tables).uploads[slot].source in available && slot in db.tables.uploads ==>
        backends.faults + outages > old(backends.faults) + old(outages)
    {
      hide WellFormed, Ledger.CancelUpload;
      var upload := db.tables.uploads[slot];
      if upload.source !in available { return; }
      var deleted := backends.Delete(Loc(upload.source, upload.physical));
      if deleted {
        CancelsIt(db.tables, slot);
        var up := Answers();
        if up { var e := db.CancelUpload(upload.id); }
      }
    }

    /** Reserves room on the first source that has it, then signs. What refuses an upload
        leaves no trace: a reservation that cannot be signed is cancelled and its grant
        forgotten, which restores every table. `base` is the tables after expired uploads
        were cleaned up. */
    method BeginUpload(c: Limits, b: Id, key: string, id: Id, size: int, expires: int, now: int, candidates: seq<Id>)
      returns (err: Option<Failure>, ghost base: Tables, ghost list: seq<Slot>)
      requires Valid()
      modifies db, backends, `outages
      ensures Valid()
      ensures OnlyStaged(old(db.tables).uploads, old(backends.blobs), backends.blobs, list)
      ensures var refusal := Unfit(old(db.tables), b, TrimPrefix(key, "/"), size, expires);
        && (refusal != None ==> err == refusal && base == old(db.tables) == db.tables && list == [])
        && (refusal == None ==> GaveUp(old(db.tables), base, now, list) && OldestExpired(old(db.tables), now, list))
      ensures Unfit(old(db.tables), b, TrimPrefix(key, "/"), size, expires) == None ==>
        var slot, q := Slot(b, TrimPrefix(key, "/")), Request(id, "", Staging(b, id, TrimPrefix(key, "/")), size, now + expires);
        Begun(base, db.tables, c, slot, candidates, q, err, backends.faults > old(backends.faults), outages > old(outages))
    {
      hide WellFormed, Ledger.ReserveObject, ReserveRefusal, GaveUp, Staging, OnlyStaged, OldestExpired, Begun;
      NothingGone(db.tables.uploads, backends.blobs);
      base, list := db.tables, [];
      err := RequireActiveBucket(b);
      if err != None { return; }
      if size < 0 { err := Some(BadSize); return; }
      var slot := Slot(b, TrimPrefix(key, "/"));
      if slot.key == "" || |slot.key| > 1024 { err := Some(BadKey); return; }
      if expires < 1 { err := Some(BadExpiry); return; }
      ghost var kept;
      list, kept := CleanupExpiredUploads(now);
      base := db.tables;
      ghost var asked := Request(id, "", Staging(b, id, slot.key), size, now + expires);
      var i := 0;
      while i < |candidates|
        invariant 0 <= i <= |candidates| && Valid() && db.tables == base
        invariant backends.faults >= old(backends.faults) && outages >= old(outages)
        invariant OnlyStaged(old(db.tables).uploads, old(backends.blobs), backends.blobs, list)
        invariant FullBefore(base, c, slot, candidates, asked, i)
      {
        var q := Request(id, candidates[i], Staging(b, id, slot.key), size, now + expires);
        ReserveReplies(base, c, slot, q);
        var up := Answers();
        if !up {
          err := Some(DatabaseDown);
          NotReserved(base, c, slot, candidates, asked, backends.faults > old(backends.faults));
          return;
        }
        var e := db.ReserveObject(c, slot, q);
        if e == None {
          err := Sign(base, c, slot, q);
          PlacedAt(base, db.tables, c, slot, candidates, asked, i, err, backends.faults > old(backends.faults), outages > old(outages));
          return;
        }
        if e != Some(SourceCapacity) {
          err := Some(Rejected(e.value));
          RefusedAt(base, c, slot, candidates, asked, i, e.value, backends.faults > old(backends.faults), outages > old(outages));
          return;
        }
        i := i + 1;
      }
      err := Some(NoCapacity);
      AllFull(base, c, slot, candidates, asked, backends.faults > old(backends.faults), outages > old(outages));
    }

    /** Signing can fail; the reservation is then undone, as far as the database answers. */
    method Sign(ghost base: Tables, c: Limits, slot: Slot, q: Request) returns (err: Option<Failure>)
      requires Valid() && Ledger.ReserveObject(base, c, slot, q) == Outcome.Done(db.tables)
      modifies db, backends`faults, `outages
      ensures Valid()
      ensures backends.faults == old(backends.faults) + if err == None then 0 else 1
      ensures outages >= old(outages) && (err == None ==> outages == old(outages))
      ensures if err == None then db.tables == old(db.tables) else err == Some(SigningFailed) && Undone(base, db.tables, c, slot, q, outages > old(outages))
    {
      hide WellFormed, Ledger.ReserveObject, Ledger.CancelUpload, Ledger.ForgetUploadGrant;
      var signed := backends.Presign();
      if signed { return None; }
      ReserveUndone(base, c, slot, q);
      var up := Answers();
      if up {
        var e := db.CancelUpload(q.id);
        var still := Answers();
        if still { db.ForgetUploadGrant(q.id); }
      }
      return Some(SigningFailed);
    }

    /** The sources a sweep goes through: every one in the database, enabled or not, and the
        legacy backend. */
    function Listed(): set<Id>
      reads this, db
    {
      db.tables.sources.Keys + if "" in available then {""} else {}
    }

    /** Success means that no source holds a key in the swept namespaces any more. */
    method SweepBucketNamespaces(b: Id, stagingOnly: bool) returns (err: Option<Failure>)
      modifies backends
      ensures OnlyFrom(old(backends.blobs), backends.blobs, {b}, stagingOnly)
      ensures err == None ==> Clear(db.tables.sources.Keys, available, backends.blobs, b, stagingOnly)
      ensures err == Some(SourceMissing) <==> Unsourced(db.tables, loaded, available, b, stagingOnly)
      ensures backends.faults >= old(backends.faults)
      ensures err == None || err == Some(SourceMissing) || backends.faults > old(backends.faults)
    {
      hide Shrunk, Swept, Missing, Prefixes, OnlyFrom, Clear, Unsourced;
      ghost var were := backends.blobs;
      MissingIff(db.tables, loaded, available, b, stagingOnly);
      var prefixes, listed := Prefixes(b, stagingOnly), Listed();
      var rest := listed;
      NothingPurged(were, prefixes);
      ShrunkIsFrom(were, were, b, stagingOnly);
      assert listed - rest == {};
      if Missing(db.tables, loaded, listed, b, stagingOnly) { return Some(SourceMissing); }
      while rest != {}
        invariant rest <= listed && backends.faults >= old(backends.faults)
        invariant OnlyFrom(were, backends.blobs, {b}, stagingOnly)
        invariant Shrunk(were, backends.blobs, prefixes) && Swept(backends.blobs, listed - rest, prefixes)
        decreases |rest|
      {
        var source :| source in rest;
        ghost var blobs := backends.blobs;
        var ok := SweepSource(source, prefixes);
        ShrunkTwice(were, blobs, backends.blobs, prefixes);
        ShrunkIsFrom(were, backends.blobs, b, stagingOnly);
        if !ok { return Some(BackendFailed); }
        SweptOneMore(blobs, backends.blobs, listed - rest, source, prefixes);
        assert listed - rest + {source} == listed - (rest - {source});
        rest := rest - {source};
      }
      assert listed - rest == listed;
      SweptIsClear(backends.blobs, listed, db.tables.sources.Keys, available, b, stagingOnly);
      err := None;
    }

    method SweepSource(source: Id, prefixes: seq<string>) returns (ok: bool)
      modifies backends
      ensures Shrunk(old(backends.blobs), backends.blobs, prefixes)
      ensures ok ==> Swept(backends.blobs, {source}, prefixes)
      ensures backends.faults >= old(backends.faults) + if ok then 0 else 1
    {
      var i := 0;
      while i < |prefixes|
        invariant 0 <= i <= |prefixes| && backends.faults >= old(backends.faults)
        invariant Shrunk(old(backends.blobs), backends.blobs, prefixes)
        invariant Swept(backends.blobs, {source}, prefixes[..i])
      {
        ok := backends.PurgePrefix(source, prefixes[i]);
        if !ok { return; }
        i := i + 1;
      }
      return true;
    }

    /** The deletion's transaction, or a database that will not take it. */
    method FinishRows(b: Id, now: int) returns (err: Option<Failure>)
      requires Valid()
      modifies db, `outages
      ensures Valid()
      ensures err == None ==> Ledger.FinishBucketDeletion(old(db.tables), now, b) == Outcome.Done(db.tables)
      ensures err != None ==> db.tables == old(db.tables)
      ensures IsDue(old(db.tables), b, now) ==> err in {None, Some(DatabaseDown)}
      ensures outages == old(outages) + if err == Some(DatabaseDown) then 1 else 0
    {
      hide WellFormed, Ledger.FinishBucketDeletion;
      FinishReplies(db.tables, now, b);
      var up := Answers();
      if !up { return Some(DatabaseDown); }
      var e := db.FinishBucketDeletion(now, b);
      if e != None { return Some(Rejected(e.value)); }
      err := None;
    }

    /** Sweeps a deleted bucket's files, and once its grants have run out removes its rows.
        Rows go only after a sweep in which nothing failed, so no bytes of the bucket are left
        on any source, under the names the service gives or any other in its namespaces. */
    method CleanBucket(b: Id, after: int, now: int) returns (err: Option<Failure>)
      requires Valid()
      modifies db, backends, `outages
      ensures Valid()
      ensures OnlyFrom(old(backends.blobs), backends.blobs, {b}, false)
      ensures err != None || now < after ==> db.tables == old(db.tables)
      ensures err == None ==> Clear(old(db.tables).sources.Keys, available, backends.blobs, b, false)
      ensures err == None ==> NoBytes(old(db.tables).objects, backends.blobs, b)
      ensures err == None && after <= now ==> Ledger.FinishBucketDeletion(old(db.tables), now, b) == Outcome.Done(db.tables)
      ensures old(CanClean(db.tables, loaded, b)) && old(Due(db.tables, b, after)) ==>
        err == None || backends.faults > old(backends.faults) || outages > old(outages)
      ensures backends.faults >= old(backends.faults) && outages >= old(outages)
    {
      hide WellFormed, Ledger.FinishBucketDeletion, OnlyFrom, Clear, NoBytes, CanClean, SourcesOf;
      var used := SourcesOf(db.tables, b);
      CanCleanMeans(db.tables, loaded, available, b);
      if !(used <= loaded) {
        NothingFrom(backends.blobs, {b}, false);
        return Some(SourceMissing);
      }
      err := SweepBucketNamespaces(b, false);
      if err == None { ClearMeansNoBytes(db.tables, loaded, available, backends.blobs, b); }
      if err != None || now < after { return; }
      err := FinishRows(b, now);
    }

    /** One job of a pass: is its bucket gone now? */
    method CleanJob(b: Id, now: int) returns (done: bool)
      requires Valid() && b in db.tables.deletions
      modifies db, backends, `outages
      ensures Valid() && db.tables.sources == old(db.tables).sources && backends.faults >= old(backends.faults) && outages >= old(outages)
      ensures db.tables == if done then After(old(db.tables), Ledger.FinishBucketDeletion(old(db.tables), now, b)) else old(db.tables)
      ensures done ==> IsDue(old(db.tables), b, now) && Ledger.FinishBucketDeletion(old(db.tables), now, b).Done?
      ensures old(CanClean(db.tables, loaded, b)) && IsDue(old(db.tables), b, now) ==>
        done || backends.faults > old(backends.faults) || outages > old(outages)
      ensures OnlyFrom(old(backends.blobs), backends.blobs, {b}, false)
      ensures done ==> Clear(old(db.tables).sources.Keys, available, backends.blobs, b, false)
      ensures done ==> NoBytes(old(db.tables).objects, backends.blobs, b)
    {
      hide WellFormed, CanClean, Ledger.FinishBucketDeletion, Clear, NoBytes, OnlyFrom;
      var after := db.tables.deletions[b].cleanupAfter;
      FinishReplies(db.tables, now, b);
      var err := CleanBucket(b, after, now);
      done := err == None && after <= now;
    }

    /** One pass over every deleted bucket, longest requested first. One that fails does not
        hold up the others: of those that are due and can be swept no more stay than calls
        failed. Of those that go no row is left and no bytes are, and no row of another bucket
        goes. */
    method CleanupBuckets(now: int) returns (finished: seq<Id>, ghost missed: set<Id>)
      requires Valid()
      modifies db, backends, `outages
      ensures Valid()
      ensures db.tables == FinishAll(old(db.tables), now, finished)
      ensures forall b :: b in finished ==> IsDue(old(db.tables), b, now) && b !in db.tables.buckets
      ensures forall s :: s in db.tables.objects <==> s in old(db.tables).objects && s.bucket !in finished
      ensures forall i, j :: 0 <= i < j < |finished| ==>
        finished[i] in old(db.tables).deletions && finished[j] in old(db.tables).deletions
        && old(db.tables).deletions[finished[i]].requestedAt <= old(db.tables).deletions[finished[j]].requestedAt
      ensures |missed| <= (backends.faults - old(backends.faults)) + (outages - old(outages))
      ensures forall b :: IsDue(old(db.tables), b, now) && CanClean(old(db.tables), loaded, b) ==> b in finished || b in missed
      ensures OnlyFrom(old(backends.blobs), backends.blobs, old(db.tables).deletions.Keys, false)
      ensures forall b :: b in finished ==> Clear(old(db.tables).sources.Keys, available, backends.blobs, b, false)
      ensures forall b :: b in finished ==> NoBytes(old(db.tables).objects, backends.blobs, b)
    {
      hide WellFormed, CanClean, IsOldest, PassSoFar, Ledger.FinishBucketDeletion, Clear, NoBytes, OnlyFrom;
      ghost var t, were := db.tables, backends.blobs;
      var requested := map b | b in db.tables.deletions :: db.tables.deletions[b].requestedAt;
      var jobs := Oldest(requested, |requested|);
      EveryJob(requested, jobs);
      PassStarts(t, now, were, available, jobs);
      finished, missed := [], {};
      var i := 0;
      while i < |jobs|
        invariant 0 <= i <= |jobs| && Valid() && backends.faults >= old(backends.faults) && outages >= old(outages)
        invariant PassSoFar(t, db.tables, now, were, backends.blobs, available, jobs, i, finished)
        invariant |missed| <= (backends.faults - old(backends.faults)) + (outages - old(outages))
        invariant forall j :: 0 <= j < i && IsDue(t, jobs[j], now) && CanClean(t, loaded, jobs[j]) ==> jobs[j] in finished || jobs[j] in missed
      {
        ghost var t1, blobs := db.tables, backends.blobs;
        NextJob(t, t1, now, were, blobs, available, jobs, i, finished, loaded);
        var done := CleanJob(jobs[i], now);
        if done {
          JobDone(t, t1, now, were, blobs, backends.blobs, available, jobs, i, finished);
          finished := finished + [jobs[i]];
        } else {
          JobLeft(t, t1, now, were, blobs, backends.blobs, available, jobs, i, finished);
          if IsDue(t, jobs[i], now) && CanClean(t, loaded, jobs[i]) { missed := missed + {jobs[i]}; }
        }
        i := i + 1;
      }
      forall b | b in t.deletions ensures exists j :: 0 <= j < |jobs| && jobs[j] == b { assert b in requested; }
      PassEnds(t, db.tables, now, were, backends.blobs, available, jobs, finished);
    }

    /** One pass over the tombstones that are due: each bucket's staging names are swept and its
        row is then dropped or put off. The providers decide how long a sweep takes; it counts
        as successful only if nothing under the staging prefix is left on any source. */
    method CleanupTombstones(now: int) returns (list: seq<Id>, sweeps: seq<Tombstones.Sweep>, ended: int, ghost failed: set<nat>)
      requires Valid()
      modifies db, backends
      ensures Valid()
      ensures forall b :: b in list ==> b in old(db.tables).tombstones && old(db.tables).tombstones[b].next <= now
      ensures Tombstones.IsDueList(old(db.tables).tombstones, now, list) && |sweeps| == |list|
      ensures db.tables == old(db.tables).(tombstones := db.tables.tombstones)
      ensures Tombstones.Table(db.tables.tombstones, ended) == Tombstones.Pass(Tombstones.Table(old(db.tables).tombstones, now), list, sweeps)
      ensures forall j :: 0 <= j < |list| && sweeps[j].ok ==> Clear(db.tables.sources.Keys, available, backends.blobs, list[j], true)
      ensures OnlyFrom(old(backends.blobs), backends.blobs, (set b | b in list), true)
      ensures |failed| <= backends.faults - old(backends.faults)
      ensures db.tables.sources.Keys <= loaded ==> forall j: nat :: j < |sweeps| && !sweeps[j].ok ==> j in failed
    {
      hide WellFormed, Tombstones.IsDueList, Tombstones.Handled, Tombstones.Finished, Clear, OnlyFrom, Tombstones.Pass, SweepsSoFar;
      ghost var t, were := db.tables, backends.blobs;
      list := db.DueBucketCleanupTombstones(now);
      sweeps, ended, failed := [], now, {};
      SweepsStart(t, now, were, available, list);
      while |sweeps| < |list|
        invariant backends.faults >= old(backends.faults)
        invariant |failed| <= backends.faults - old(backends.faults)
        invariant t.sources.Keys <= loaded ==> forall j: nat :: j < |sweeps| && !sweeps[j].ok ==> j in failed
        invariant |sweeps| <= |list| && Valid() && db.tables == t.(tombstones := db.tables.tombstones)
        invariant SweepsSoFar(t, now, db.tables.tombstones, ended, were, backends.blobs, available, list, sweeps)
      {
        var b := list[|sweeps|];
        ghost var stones, began, blobs := db.tables.tombstones, ended, backends.blobs;
        var err := SweepBucketNamespaces(b, true);
        if err != None && t.sources.Keys <= loaded { failed := failed + {|sweeps|}; }
        var took: nat, lag: nat := *, *;
        ended := ended + took;
        var finished := Tombstones.Finished(db.tables.tombstones, b, err == None, ended);
        ended := ended + lag;
        db.UpdateBucketCleanupTombstone(b, finished, ended);
        OneMoreSweep(t, now, stones, began, were, blobs, backends.blobs, available, list, sweeps, Tombstones.Sweep(took, err == None, lag));
        sweeps := sweeps + [Tombstones.Sweep(took, err == None, lag)];
      }
      SweepsEnd(t, now, db.tables.tombstones, ended, were, backends.blobs, available, list, sweeps);
    }
  }

  predicate InNamespace(b: Id, stagingOnly: bool, key: string) {
    StagingPrefix(b) <= key || (!stagingOnly && FinalPrefix(b) <= key)
  }
  /** Bytes have gone only from these buckets' namespaces, and none have changed. */
  ghost predicate OnlyFrom(blobs: map<Loc, Blob>, blobs': map<Loc, Blob>, bs: set<Id>, stagingOnly: bool) {
    && (forall l :: l in blobs' ==> l in blobs && blobs'[l] == blobs[l])
    && (forall l :: l in blobs && l !in blobs' ==> exists b :: b in bs && InNamespace(b, stagingOnly, l.key))
  }
  lemma NothingFrom(blobs: map<Loc, Blob>, bs: set<Id>, stagingOnly: bool)
    ensures OnlyFrom(blobs, blobs, bs, stagingOnly)
  {
  }
  lemma ShrunkIsFrom(blobs: map<Loc, Blob>, blobs': map<Loc, Blob>, b: Id, stagingOnly: bool)
    requires Shrunk(blobs, blobs', Prefixes(b, stagingOnly))
    ensures OnlyFrom(blobs, blobs', {b}, stagingOnly)
  {
    hide StagingPrefix, FinalPrefix;
    forall l | l in blobs && l !in blobs' ensures InNamespace(b, stagingOnly, l.key) {
      var i :| 0 <= i < |Prefixes(b, stagingOnly)| && Prefixes(b, stagingOnly)[i] <= l.key;
    }
  }
  lemma MoreFrom(a: map<Loc, Blob>, blobs: map<Loc, Blob>, blobs': map<Loc, Blob>, bs: set<Id>, b: Id, stagingOnly: bool)
    requires OnlyFrom(a, blobs, bs, stagingOnly) && b in bs && OnlyFrom(blobs, blobs', {b}, stagingOnly)
    ensures OnlyFrom(a, blobs', bs, stagingOnly)
  {
    hide StagingPrefix, FinalPrefix;
  }
  /** No source known to the database, nor the legacy backend, holds a key of the bucket's
      staging namespace, or with `stagingOnly` false of either. */
  ghost predicate Clear(sources: set<Id>, available: set<Id>, blobs: map<Loc, Blob>, b: Id, stagingOnly: bool) {
    forall l :: l in blobs && (l.source in sources || (l.source == "" && "" in available)) ==>
      !(StagingPrefix(b) <= l.key) && (stagingOnly || !(FinalPrefix(b) <= l.key))
  }
  lemma SweptIsClear(blobs: map<Loc, Blob>, listed: set<Id>, sources: set<Id>, available: set<Id>, b: Id, stagingOnly: bool)
    requires Swept(blobs, listed, Prefixes(b, stagingOnly)) && listed == sources + if "" in available then {""} else {}
    ensures Clear(sources, available, blobs, b, stagingOnly)
  {
    hide StagingPrefix, FinalPrefix;
    var prefixes := Prefixes(b, stagingOnly);
    assert prefixes[|prefixes| - 1] == StagingPrefix(b) && (stagingOnly || prefixes[0] == FinalPrefix(b));
  }
  lemma StaysClear(blobs: map<Loc, Blob>, blobs': map<Loc, Blob>, sources: set<Id>, available: set<Id>, a: Id, b: Id, stagingOnly: bool)
    requires Clear(sources, available, blobs, a, stagingOnly) && OnlyFrom(blobs, blobs', {b}, stagingOnly)
    ensures Clear(sources, available, blobs', a, stagingOnly)
  {
    hide StagingPrefix, FinalPrefix;
  }
  /** None of the bucket's objects that are under a name the service gave them is stored. */
  ghost predicate NoBytes(objects: map<Slot, Object>, blobs: map<Loc, Blob>, b: Id) {
    forall s, g: nat :: s in objects && s.bucket == b && objects[s].physical == Physical(b, g, s.key) ==> Place(objects[s]) !in blobs
  }
  lemma ClearMeansNoBytes(t: Tables, loaded: set<Id>, available: set<Id>, blobs: map<Loc, Blob>, b: Id)
    requires WellFormed(t) && SourcesOf(t, b) <= loaded && ("" in loaded ==> "" in available)
    requires Clear(t.sources.Keys, available, blobs, b, false)
    ensures NoBytes(t.objects, blobs, b)
  {
    hide StagingPrefix, Decimal;
    forall s, g: nat | s in t.objects && s.bucket == b && t.objects[s].physical == Physical(b, g, s.key)
      ensures Place(t.objects[s]) !in blobs
    {
      var key := t.objects[s].physical;
      assert key == FinalPrefix(b) + ("g" + Decimal(g) + "/" + TrimPrefix(s.key, "/"));
      assert FinalPrefix(b) <= key;
      assert t.objects[s].source in SourcesOf(t, b);
    }
  }
  lemma ClearStays(blobs: map<Loc, Blob>, blobs': map<Loc, Blob>, t: Tables, available: set<Id>, done: seq<Id>, b: Id)
    requires OnlyFrom(blobs, blobs', {b}, false)
    requires forall a :: a in done ==> Clear(t.sources.Keys, available, blobs, a, false) && NoBytes(t.objects, blobs, a)
    ensures forall a :: a in done ==> Clear(t.sources.Keys, available, blobs', a, false) && NoBytes(t.objects, blobs', a)
  {
    hide Clear, Physical, StagingPrefix, FinalPrefix;
    forall a | a in done ensures Clear(t.sources.Keys, available, blobs', a, false) {
      StaysClear(blobs, blobs', t.sources.Keys, available, a, b, false);
    }
  }
  lemma BytesOfB(t: Tables, t1: Tables, blobs: map<Loc, Blob>, b: Id)
    requires NoBytes(t1.objects, blobs, b) && StillThere(t, t1, b)
    ensures NoBytes(t.objects, blobs, b)
  {
    hide Physical;
  }
  /** These buckets and their objects are gone, and no other object. */
  ghost predicate Without(t: Tables, t': Tables, gone: seq<Id>) {
    && (forall b :: b in gone ==> b !in t'.buckets)
    && (forall s :: s in t'.objects <==> s in t.objects && s.bucket !in gone)
  }
  lemma RowsTaken(t: Tables, t1: Tables, now: int, gone: seq<Id>, b: Id)
    requires Without(t, t1, gone) && Ledger.FinishBucketDeletion(t1, now, b).Done?
    ensures Without(t, Ledger.FinishBucketDeletion(t1, now, b).tables, gone + [b])
  {
  }
  /** Jobs are buckets being deleted, each once, longest requested first. */
  ghost predicate AreJobs(t: Tables, jobs: seq<Id>) {
    forall j, k :: 0 <= j <= k < |jobs| ==>
      && jobs[j] in t.deletions && jobs[k] in t.deletions && (j < k ==> jobs[j] != jobs[k])
      && t.deletions[jobs[j]].requestedAt <= t.deletions[jobs[k]].requestedAt
  }
  /** Finished are some of the first `i` jobs, in their order. */
  ghost predicate AreFinished(t: Tables, now: int, jobs: seq<Id>, i: nat, finished: seq<Id>) {
    && i <= |jobs| && (forall b :: b in finished ==> b in jobs[..i] && IsDue(t, b, now))
    && forall j, k :: 0 <= j < k < |finished| ==>
         finished[j] in t.deletions && finished[k] in t.deletions
         && t.deletions[finished[j]].requestedAt <= t.deletions[finished[k]].requestedAt
  }
  /** Where a pass stands after `i` jobs. */
  ghost predicate PassSoFar(t: Tables, t': Tables, now: int, were: map<Loc, Blob>, blobs: map<Loc, Blob>, available: set<Id>,
                            jobs: seq<Id>, i: nat, finished: seq<Id>)
  {
    && t' == FinishAll(t, now, finished) && t'.sources == t.sources
    && AreJobs(t, jobs) && AreFinished(t, now, jobs, i, finished) && Without(t, t', finished)
    && (forall j :: i <= j < |jobs| ==> StillThere(t, t', jobs[j]))
    && OnlyFrom(were, blobs, t.deletions.Keys, false)
    && (forall b :: b in finished ==> Clear(t.sources.Keys, available, blobs, b, false) && NoBytes(t.objects, blobs, b))
  }
  lemma PassStarts(t: Tables, now: int, blobs: map<Loc, Blob>, available: set<Id>, jobs: seq<Id>)
    requires var requested := map b | b in t.deletions :: t.deletions[b].requestedAt; IsOldest(requested, |requested|, jobs)
    ensures PassSoFar(t, t, now, blobs, blobs, available, jobs, 0, [])
  {
    hide StillThere, Clear, NoBytes, OnlyFrom;
    var requested := map b | b in t.deletions :: t.deletions[b].requestedAt;
    NothingFrom(blobs, t.deletions.Keys, false);
    forall j, k | 0 <= j < k < |jobs| ensures requested[jobs[j]] <= requested[jobs[k]] {}
    forall j | 0 <= j < |jobs| ensures StillThere(t, t, jobs[j]) { AllThere(t, jobs[j]); }
  }
  lemma NextJob(t: Tables, t': Tables, now: int, were: map<Loc, Blob>, blobs: map<Loc, Blob>, available: set<Id>,
                jobs: seq<Id>, i: nat, finished: seq<Id>, loaded: set<Id>)
    requires PassSoFar(t, t', now, were, blobs, available, jobs, i, finished) && i < |jobs|
    ensures jobs[i] in t'.deletions && (IsDue(t', jobs[i], now) <==> IsDue(t, jobs[i], now))
    ensures CanClean(t, loaded, jobs[i]) ==> CanClean(t', loaded, jobs[i])
    ensures t'.sources == t.sources
  {
    hide CanClean, FinishAll, OnlyFrom, Clear, NoBytes, Without, AreFinished;
    CanStillClean(t, t', loaded, jobs[i]);
  }
  lemma OneMoreFinished(t: Tables, now: int, jobs: seq<Id>, i: nat, finished: seq<Id>)
    requires AreJobs(t, jobs) && AreFinished(t, now, jobs, i, finished) && i < |jobs|
    ensures AreFinished(t, now, jobs, i + 1, finished)
    ensures IsDue(t, jobs[i], now) ==> AreFinished(t, now, jobs, i + 1, finished + [jobs[i]])
  {
    assert jobs[..i + 1] == jobs[..i] + [jobs[i]];
    forall j | 0 <= j < |finished|
      ensures finished[j] in t.deletions && t.deletions[finished[j]].requestedAt <= t.deletions[jobs[i]].requestedAt
    {
      assert finished[j] in finished;
      var k :| 0 <= k < i && jobs[..i][k] == finished[j];
      assert jobs[k] == finished[j];
    }
  }
  lemma JobLeft(t: Tables, t': Tables, now: int, were: map<Loc, Blob>, blobs: map<Loc, Blob>, blobs': map<Loc, Blob>, available: set<Id>,
                jobs: seq<Id>, i: nat, finished: seq<Id>)
    requires PassSoFar(t, t', now, were, blobs, available, jobs, i, finished) && i < |jobs| && OnlyFrom(blobs, blobs', {jobs[i]}, false)
    ensures PassSoFar(t, t', now, were, blobs', available, jobs, i + 1, finished)
  {
    hide OnlyFrom, Clear, NoBytes, FinishAll, Without, AreFinished, StillThere;
    assert jobs[i] in t.deletions.Keys;
    MoreFrom(were, blobs, blobs', t.deletions.Keys, jobs[i], false);
    ClearStays(blobs, blobs', t, available, finished, jobs[i]);
    OneMoreFinished(t, now, jobs, i, finished);
  }
  lemma JobDone(t: Tables, t1: Tables, now: int, were: map<Loc, Blob>, blobs: map<Loc, Blob>, blobs': map<Loc, Blob>, available: set<Id>,
                jobs: seq<Id>, i: nat, finished: seq<Id>)
    requires PassSoFar(t, t1, now, were, blobs, available, jobs, i, finished) && i < |jobs| && OnlyFrom(blobs, blobs', {jobs[i]}, false)
    requires IsDue(t, jobs[i], now) && Ledger.FinishBucketDeletion(t1, now, jobs[i]).Done?
    requires Clear(t1.sources.Keys, available, blobs', jobs[i], false) && NoBytes(t1.objects, blobs', jobs[i])
    ensures PassSoFar(t, Ledger.FinishBucketDeletion(t1, now, jobs[i]).tables, now, were, blobs', available, jobs, i + 1, finished + [jobs[i]])
  {
    hide OnlyFrom, Clear, NoBytes, FinishAll, Without, AreFinished, StillThere, Ledger.FinishBucketDeletion;
    JobLeft(t, t1, now, were, blobs, blobs', available, jobs, i, finished);
    OneMoreFinished(t, now, jobs, i, finished);
    FinishOneMore(t, now, finished, jobs[i]);
    FinishReplies(t1, now, jobs[i]);
    RowsTaken(t, t1, now, finished, jobs[i]);
    BytesOfB(t, t1, blobs', jobs[i]);
    RestStays(t, t1, now, jobs, i);
  }
  lemma PassEnds(t: Tables, t': Tables, now: int, were: map<Loc, Blob>, blobs: map<Loc, Blob>, available: set<Id>,
                 jobs: seq<Id>, finished: seq<Id>)
    requires PassSoFar(t, t', now, were, blobs, available, jobs, |jobs|, finished)
    ensures t' == FinishAll(t, now, finished)
    ensures forall b :: b in finished ==> IsDue(t, b, now) && b !in t'.buckets
    ensures forall s :: s in t'.objects <==> s in t.objects && s.bucket !in finished
    ensures forall i, j :: 0 <= i < j < |finished| ==>
      finished[i] in t.deletions && finished[j] in t.deletions
      && t.deletions[finished[i]].requestedAt <= t.deletions[finished[j]].requestedAt
    ensures OnlyFrom(were, blobs, t.deletions.Keys, false)
    ensures forall b :: b in finished ==> Clear(t.sources.Keys, available, blobs, b, false) && NoBytes(t.objects, blobs, b)
  {
    hide FinishAll, OnlyFrom, Clear, NoBytes, StillThere;
  }
  /** Where a pass over the tombstones stands. */
  ghost predicate SweepsSoFar(t: Tables, now: int, stones: Tombstones.Stones, ended: int, were: map<Loc, Blob>, blobs: map<Loc, Blob>,
                              available: set<Id>, list: seq<Id>, sweeps: seq<Tombstones.Sweep>)
  {
    && |sweeps| <= |list|
    && Tombstones.Table(stones, ended) == Tombstones.Pass(Tombstones.Table(t.tombstones, now), list[..|sweeps|], sweeps)
    && (forall j :: 0 <= j < |sweeps| && sweeps[j].ok ==> Clear(t.sources.Keys, available, blobs, list[j], true))
    && OnlyFrom(were, blobs, (set b | b in list), true)
  }
  lemma SweepsStart(t: Tables, now: int, blobs: map<Loc, Blob>, available: set<Id>, list: seq<Id>)
    ensures SweepsSoFar(t, now, t.tombstones, now, blobs, blobs, available, list, [])
  {
    NothingFrom(blobs, (set b | b in list), true);
    EmptyPass(Tombstones.Table(t.tombstones, now), list);
  }
  lemma OneMoreSweep(t: Tables, now: int, stones: Tombstones.Stones, began: int, were: map<Loc, Blob>, blobs: map<Loc, Blob>,
                     blobs': map<Loc, Blob>, available: set<Id>, list: seq<Id>, sweeps: seq<Tombstones.Sweep>, s: Tombstones.Sweep)
    requires SweepsSoFar(t, now, stones, began, were, blobs, available, list, sweeps) && |sweeps| < |list|
    requires OnlyFrom(blobs, blobs', {list[|sweeps|]}, true)
    requires s.ok ==> Clear(t.sources.Keys, available, blobs', list[|sweeps|], true)
    ensures var b, ended := list[|sweeps|], began + s.took + s.lag;
      SweepsSoFar(t, now, Tombstones.Handled(stones, b, Tombstones.Finished(stones, b, s.ok, began + s.took), ended), ended, were, blobs',
                  available, list, sweeps + [s])
  {
    hide Clear, OnlyFrom, Tombstones.Handled, Tombstones.Finished, Tombstones.Pass;
    var b := list[|sweeps|];
    OneSweep(Tombstones.Table(stones, began), b, s);
    Tombstones.PassOneMore(Tombstones.Table(t.tombstones, now), list[..|sweeps|], sweeps, b, s);
    assert list[..|sweeps| + 1] == list[..|sweeps|] + [b];
    MoreFrom(were, blobs, blobs', (set b | b in list), b, true);
    forall j | 0 <= j < |sweeps| && sweeps[j].ok ensures Clear(t.sources.Keys, available, blobs', list[j], true) {
      StaysClear(blobs, blobs', t.sources.Keys, available, list[j], b, true);
    }
  }
  lemma SweepsEnd(t: Tables, now: int, stones: Tombstones.Stones, ended: int, were: map<Loc, Blob>, blobs: map<Loc, Blob>,
                  available: set<Id>, list: seq<Id>, sweeps: seq<Tombstones.Sweep>)
    requires SweepsSoFar(t, now, stones, ended, were, blobs, available, list, sweeps) && |sweeps| == |list|
    ensures Tombstones.Table(stones, ended) == Tombstones.Pass(Tombstones.Table(t.tombstones, now), list, sweeps)
    ensures forall j :: 0 <= j < |list| && sweeps[j].ok ==> Clear(t.sources.Keys, available, blobs, list[j], true)
    ensures OnlyFrom(were, blobs, (set b | b in list), true)
  {
    hide Clear, OnlyFrom, Tombstones.Pass;
    assert list[..|sweeps|] == list;
  }
  lemma EmptyPass(t: Tombstones.Table, list: seq<Id>)
    ensures Tombstones.Pass(t, list[..0], []) == t
  {
  }
  lemma OneSweep(t: Tombstones.Table, b: Id, s: Tombstones.Sweep)
    ensures Tombstones.Pass(t, [b], [s]) ==
      Tombstones.Table(Tombstones.Handled(t.stones, b, Tombstones.Finished(t.stones, b, s.ok, t.now + s.took), t.now + s.took + s.lag), t.now + s.took + s.lag)
  {
    hide Tombstones.Handled, Tombstones.Finished;
    assert [b][1..] == [];
  }

  /** Finishing these deletions one after the other. */
  function FinishAll(t: Tables, now: int, bs: seq<Id>): Tables
    decreases |bs|
  {
    if bs == [] then t else FinishAll(After(t, Ledger.FinishBucketDeletion(t, now, bs[0])), now, bs[1..])
  }
  lemma {:induction false} FinishOneMore(t: Tables, now: int, bs: seq<Id>, b: Id)
    ensures FinishAll(t, now, bs + [b]) == After(FinishAll(t, now, bs), Ledger.FinishBucketDeletion(FinishAll(t, now, bs), now, b))
    decreases |bs|
  {
    hide Ledger.FinishBucketDeletion;
    if bs == [] {
      assert bs + [b] == [b];
    } else {
      FinishOneMore(After(t, Ledger.FinishBucketDeletion(t, now, bs[0])), now, bs[1..], b);
      assert (bs + [b])[0] == bs[0] && (bs + [b])[1..] == bs[1..] + [b];
    }
  }
  /** Every source that holds rows of the bucket, and every source there is, has a backend. */
  ghost predicate CanClean(t: Tables, loaded: set<Id>, b: Id) {
    && t.sources.Keys <= loaded
    && (forall s :: s in t.objects && s.bucket == b ==> t.objects[s].source in loaded)
    && (forall s :: s in t.uploads && s.bucket == b ==> t.uploads[s].source in loaded)
  }
  lemma CanCleanMeans(t: Tables, loaded: set<Id>, available: set<Id>, b: Id)
    requires WellFormed(t) && ("" in loaded ==> "" in available)
    ensures CanClean(t, loaded, b) ==> SourcesOf(t, b) <= loaded && t.sources.Keys <= loaded
    ensures CanClean(t, loaded, b) && t.sources == map[] && "" !in available ==>
      forall s :: s in t.objects ==> s.bucket != b
  {
  }
  /** A source has no backend, or there are objects and no source at all. */
  ghost predicate Unsourced(t: Tables, loaded: set<Id>, available: set<Id>, b: Id, stagingOnly: bool) {
    || !(t.sources.Keys <= loaded)
    || (!stagingOnly && t.sources == map[] && "" !in available
        && exists s :: s in t.objects && s.bucket == b && t.objects[s].ready)
  }
  lemma MissingIff(t: Tables, loaded: set<Id>, available: set<Id>, b: Id, stagingOnly: bool)
    ensures Missing(t, loaded, t.sources.Keys + (if "" in available then {""} else {}), b, stagingOnly)
      <==> Unsourced(t, loaded, available, b, stagingOnly)
  {
    var listed := t.sources.Keys + (if "" in available then {""} else {});
    if listed == {} {
      assert t.sources.Keys == {} && t.sources == map[];
    } else if t.sources == map[] {
      assert listed == if "" in available then {""} else {};
    }
  }
  predicate Due(t: Tables, b: Id, after: int) {
    b in t.deletions && t.deletions[b].cleanupAfter == after
  }
  predicate IsDue(t: Tables, b: Id, now: int) {
    b in t.deletions && t.deletions[b].cleanupAfter <= now
  }
  /** The deletion and the rows of the bucket are as they were. */
  ghost predicate StillThere(t: Tables, t': Tables, b: Id) {
    && b in t.deletions && b in t'.deletions && t'.deletions[b] == t.deletions[b]
    && (forall s: Slot :: s.bucket == b ==> (s in t'.objects <==> s in t.objects) && (s in t.objects ==> t'.objects[s] == t.objects[s]))
    && (forall s: Slot :: s.bucket == b ==> (s in t'.uploads <==> s in t.uploads) && (s in t.uploads ==> t'.uploads[s] == t.uploads[s]))
  }
  lemma AllThere(t: Tables, b: Id)
    requires b in t.deletions
    ensures StillThere(t, t, b)
  {
  }
  lemma EveryJob(requested: map<Id, int>, jobs: seq<Id>)
    requires IsOldest(requested, |requested|, jobs)
    ensures forall b :: b in requested ==> b in jobs
    ensures forall i, j :: 0 <= i < j < |jobs| ==> jobs[i] != jobs[j]
    ensures forall i :: 0 <= i < |jobs| ==> jobs[i] in requested
  {
    if |jobs| == |requested| {
      var all := set b | b in jobs;
      Tombstones.Distinct(jobs);
      assert all <= requested.Keys;
      SameSize(all, requested.Keys);
    }
  }
  lemma SameSize(a: set<Id>, b: set<Id>)
    requires a <= b && |a| == |b|
    ensures a == b
  {
    if x :| x in b && x !in a { Tombstones.Fewer(a, b - {x}); }
  }
  lemma CanStillClean(t: Tables, t': Tables, loaded: set<Id>, b: Id)
    requires StillThere(t, t', b) && t'.sources == t.sources
    ensures CanClean(t, loaded, b) ==> CanClean(t', loaded, b)
  {
  }
  lemma OthersStay(t: Tables, t1: Tables, now: int, b: Id, other: Id)
    requires Ledger.FinishBucketDeletion(t1, now, b).Done? && b != other && StillThere(t, t1, other)
    ensures StillThere(t, Ledger.FinishBucketDeletion(t1, now, b).tables, other)
  {
  }
  lemma RestStays(t: Tables, t1: Tables, now: int, jobs: seq<Id>, i: nat)
    requires i < |jobs| && Ledger.FinishBucketDeletion(t1, now, jobs[i]).Done?
    requires forall j :: i < j < |jobs| ==> jobs[j] != jobs[i] && StillThere(t, t1, jobs[j])
    ensures forall j :: i < j < |jobs| ==> StillThere(t, Ledger.FinishBucketDeletion(t1, now, jobs[i]).tables, jobs[j])
  {
    hide StillThere, Ledger.FinishBucketDeletion;
    forall j | i < j < |jobs| ensures StillThere(t, Ledger.FinishBucketDeletion(t1, now, jobs[i]).tables, jobs[j]) {
      OthersStay(t, t1, now, jobs[i], jobs[j]);
    }
  }
  lemma FinishReplies(t: Tables, now: int, b: Id)
    ensures b in t.deletions && t.deletions[b].cleanupAfter <= now ==> Reply(Ledger.FinishBucketDeletion(t, now, b)) == None
    ensures After(t, Ledger.FinishBucketDeletion(t, now, b)).sources == t.sources
  {
  }

  function SourcesOf(t: Tables, b: Id): set<Id> {
    (set s | s in t.objects && s.bucket == b :: t.objects[s].source) + (set s | s in t.uploads && s.bucket == b :: t.uploads[s].source)
  }
  function Prefixes(b: Id, stagingOnly: bool): seq<string> {
    if stagingOnly then [StagingPrefix(b)] else [FinalPrefix(b), StagingPrefix(b)]
  }
  /** Bytes have gone only under the prefixes, and none have changed. */
  ghost predicate Shrunk(blobs: map<Loc, Blob>, blobs': map<Loc, Blob>, prefixes: seq<string>) {
    && (forall l :: l in blobs' ==> l in blobs && blobs'[l] == blobs[l])
    && (forall l :: l in blobs && (forall i :: 0 <= i < |prefixes| ==> !(prefixes[i] <= l.key)) ==> l in blobs')
  }
  ghost predicate Swept(blobs: map<Loc, Blob>, sources: set<Id>, prefixes: seq<string>) {
    forall l, i :: l in blobs && l.source in sources && 0 <= i < |prefixes| ==> !(prefixes[i] <= l.key)
  }
  /** A source without a backend, or no source at all for files there are, must not pass for
      an empty bucket. */
  predicate Missing(t: Tables, loaded: set<Id>, listed: set<Id>, b: Id, stagingOnly: bool) {
    !(t.sources.Keys <= loaded) || (!stagingOnly && listed == {} && exists s :: s in t.objects && s.bucket == b && t.objects[s].ready)
  }
  lemma ShrunkTwice(a: map<Loc, Blob>, b: map<Loc, Blob>, c: map<Loc, Blob>, prefixes: seq<string>)
    requires Shrunk(a, b, prefixes) && Shrunk(b, c, prefixes)
    ensures Shrunk(a, c, prefixes)
  {
  }
  lemma SweptOneMore(a: map<Loc, Blob>, b: map<Loc, Blob>, sources: set<Id>, source: Id, prefixes: seq<string>)
    requires Swept(a, sources, prefixes) && Swept(b, {source}, prefixes) && Shrunk(a, b, prefixes)
    ensures Swept(b, sources + {source}, prefixes)
  {
  }
  lemma NothingPurged(blobs: map<Loc, Blob>, prefixes: seq<string>)
    ensures Shrunk(blobs, blobs, prefixes) && Swept(blobs, {}, prefixes)
  {
  }

  /** Why an upload is refused before anything is cleaned up or reserved. */
  ghost function Unfit(t: Tables, b: Id, key: string, size: int, expires: int): Option<Failure> {
    if b !in t.buckets then Some(Rejected(NoRows))
    else if b in t.deletions then Some(Rejected(BucketDeleting))
    else if size < 0 then Some(BadSize)
    else if key == "" || 1024 < |key| then Some(BadKey)
    else if expires < 1 then Some(BadExpiry)
    else None
  }
  /** All candidates before the i-th refuse for want of capacity. */
  ghost predicate FullBefore(t: Tables, c: Limits, slot: Slot, candidates: seq<Id>, q: Request, i: nat) {
    i <= |candidates| && forall j :: 0 <= j < i ==> ReserveRefusal(t, c, slot, q.(source := candidates[j])) == Some(SourceCapacity)
  }
  /** It is for the i-th candidate to decide: the first that does not refuse for want of capacity. */
  ghost predicate Decides(t: Tables, c: Limits, slot: Slot, candidates: seq<Id>, q: Request, i: nat) {
    && i < |candidates| && FullBefore(t, c, slot, candidates, q, i)
    && ReserveRefusal(t, c, slot, q.(source := candidates[i])) != Some(SourceCapacity)
  }
  /** The reservation is undone; if the database did not answer, it or its grant is still there. */
  ghost predicate Undone(t: Tables, t': Tables, c: Limits, slot: Slot, q: Request, outage: bool) {
    t' == t || (outage && (Ledger.ReserveObject(t, c, slot, q) == Outcome.Done(t')
                           || t' == t.(grants := t.grants[q.id := Grant(slot.bucket, q.expires)])))
  }
  ghost predicate PlacedBy(t: Tables, t': Tables, c: Limits, slot: Slot, candidates: seq<Id>, q: Request, i: nat) {
    Decides(t, c, slot, candidates, q, i) && Ledger.ReserveObject(t, c, slot, q.(source := candidates[i])) == Outcome.Done(t')
  }
  ghost predicate UndoneBy(t: Tables, t': Tables, c: Limits, slot: Slot, candidates: seq<Id>, q: Request, i: nat, outage: bool) {
    Decides(t, c, slot, candidates, q, i) && Undone(t, t', c, slot, q.(source := candidates[i]), outage)
  }
  ghost predicate RefusedBy(t: Tables, c: Limits, slot: Slot, candidates: seq<Id>, q: Request, i: nat, e: Error) {
    Decides(t, c, slot, candidates, q, i) && ReserveRefusal(t, c, slot, q.(source := candidates[i])) == Some(e)
  }
  /** Where the search for room leads. The first candidate that does not refuse for want of
      capacity decides: it holds the reservation, signed unless signing failed, or its refusal
      is the answer. Only when there is none is there no capacity, and only an outage can keep
      any of this from happening. */
  ghost predicate Begun(t: Tables, t': Tables, c: Limits, slot: Slot, candidates: seq<Id>, q: Request, err: Option<Failure>,
                        fault: bool, outage: bool)
  {
    && (err == None ==> exists i: nat :: PlacedBy(t, t', c, slot, candidates, q, i))
    && (err == Some(SigningFailed) ==> fault && exists i: nat :: UndoneBy(t, t', c, slot, candidates, q, i, outage))
    && (err == Some(NoCapacity) ==> t' == t && FullBefore(t, c, slot, candidates, q, |candidates|))
    && (err == Some(DatabaseDown) ==> t' == t && outage)
    && (err.Some? && err.value.Rejected? ==> t' == t && exists i: nat :: RefusedBy(t, c, slot, candidates, q, i, err.value.error))
    && (err == None || err in {Some(SigningFailed), Some(NoCapacity), Some(DatabaseDown)} || err.value.Rejected?)
  }
  /** So with no fault and no outage the deciding candidate alone says what happens. */
  lemma FirstWithRoomIsTaken(t: Tables, t': Tables, c: Limits, slot: Slot, candidates: seq<Id>, q: Request, err: Option<Failure>, i: nat)
    requires Begun(t, t', c, slot, candidates, q, err, false, false) && Decides(t, c, slot, candidates, q, i)
    ensures var r := Ledger.ReserveObject(t, c, slot, q.(source := candidates[i]));
      t' == After(t, r) && err == if r.Done? then None else Some(Rejected(r.error))
  {
    hide ReserveRefusal, Ledger.ReserveObject;
    ReserveReplies(t, c, slot, q.(source := candidates[i]));
    forall j: nat | Decides(t, c, slot, candidates, q, j) ensures j == i {
      if j < i { OnlyFull(t, c, slot, candidates, q, i, j); }
      if i < j { OnlyFull(t, c, slot, candidates, q, j, i); }
    }
    if err == Some(NoCapacity) { OnlyFull(t, c, slot, candidates, q, |candidates|, i); }
  }
  lemma OnlyFull(t: Tables, c: Limits, slot: Slot, candidates: seq<Id>, q: Request, i: nat, j: nat)
    requires FullBefore(t, c, slot, candidates, q, i) && j < i
    ensures !Decides(t, c, slot, candidates, q, j)
  {
    hide ReserveRefusal;
  }
  lemma NotReserved(t: Tables, c: Limits, slot: Slot, candidates: seq<Id>, q: Request, fault: bool)
    ensures Begun(t, t, c, slot, candidates, q, Some(DatabaseDown), fault, true)
  {
    hide ReserveRefusal, Ledger.ReserveObject;
  }
  lemma PlacedAt(t: Tables, t': Tables, c: Limits, slot: Slot, candidates: seq<Id>, q: Request, i: nat, err: Option<Failure>,
                 fault: bool, outage: bool)
    requires i < |candidates| && FullBefore(t, c, slot, candidates, q, i)
    requires var r := Ledger.ReserveObject(t, c, slot, q.(source := candidates[i]));
      r.Done? && if err == None then t' == r.tables
                 else err == Some(SigningFailed) && fault && Undone(t, t', c, slot, q.(source := candidates[i]), outage)
    ensures Begun(t, t', c, slot, candidates, q, err, fault, outage)
  {
    hide ReserveRefusal, Ledger.ReserveObject, Undone;
    ReserveReplies(t, c, slot, q.(source := candidates[i]));
    assert if err == None then PlacedBy(t, t', c, slot, candidates, q, i) else UndoneBy(t, t', c, slot, candidates, q, i, outage);
  }
  lemma RefusedAt(t: Tables, c: Limits, slot: Slot, candidates: seq<Id>, q: Request, i: nat, e: Error, fault: bool, outage: bool)
    requires i < |candidates| && FullBefore(t, c, slot, candidates, q, i)
    requires ReserveRefusal(t, c, slot, q.(source := candidates[i])) == Some(e) && e != SourceCapacity
    ensures Begun(t, t, c, slot, candidates, q, Some(Rejected(e)), fault, outage)
  {
    hide ReserveRefusal, Ledger.ReserveObject;
    assert RefusedBy(t, c, slot, candidates, q, i, e);
  }
  lemma AllFull(t: Tables, c: Limits, slot: Slot, candidates: seq<Id>, q: Request, fault: bool, outage: bool)
    requires FullBefore(t, c, slot, candidates, q, |candidates|)
    ensures Begun(t, t, c, slot, candidates, q, Some(NoCapacity), fault, outage)
  {
    hide ReserveRefusal, Ledger.ReserveObject;
  }
  lemma ReserveReplies(t: Tables, c: Limits, slot: Slot, q: Request)
    ensures Reply(Ledger.ReserveObject(t, c, slot, q)) == ReserveRefusal(t, c, slot, q)
  {
    hide ReserveRefusal;
  }

  /** Cancelling and forgetting a reservation restores every table. */
  lemma ReserveUndone(t: Tables, c: Limits, slot: Slot, q: Request)
    requires Ledger.ReserveObject(t, c, slot, q).Done?
    ensures var cancelled := Ledger.CancelUpload(Ledger.ReserveObject(t, c, slot, q).tables, q.id);
      && cancelled == Outcome.Done(t.(grants := t.grants[q.id := Grant(slot.bucket, q.expires)]))
      && Ledger.ForgetUploadGrant(cancelled.tables, q.id) == Outcome.Done(t)
  {
    var t1 := Ledger.ReserveObject(t, c, slot, q).tables;
    assert slot in t1.uploads && t1.uploads[slot].id == q.id;
    assert t1.uploads - {slot} == t.uploads;
    assert t1.grants - {q.id} == t.grants;
  }

  function Staged(up: Upload): Loc { Loc(up.source, up.physical) }

  function Expired(t: Tables, now: int): map<Slot, int> {
    map s | s in t.uploads && s.bucket !in t.deletions && t.uploads[s].expires < now :: t.uploads[s].expires
  }
  /** Grants were pruned and some of the listed uploads are gone; every other row is as it was. */
  ghost predicate GaveUp(t: Tables, t': Tables, now: int, list: seq<Slot>) {
    && t'.uploads.Keys <= t.uploads.Keys
    && (forall s :: s in t.uploads && s !in list ==> s in t'.uploads)
    && (forall s :: s in t'.uploads ==> t'.uploads[s] == t.uploads[s])
    && t' == Ledger.PruneUploadGrants(t, now).tables.(uploads := t'.uploads)
  }
  /** No bytes have gone but staged ones of the listed uploads. */
  ghost predicate OnlyStaged(uploads: map<Slot, Upload>, blobs: map<Loc, Blob>, blobs': map<Loc, Blob>, list: seq<Slot>) {
    && (forall l :: l in blobs' ==> l in blobs && blobs'[l] == blobs[l])
    && (forall l :: l in blobs && l !in blobs' ==> exists s :: s in list && s in uploads && Staged(uploads[s]) == l)
  }
  lemma NothingGone(uploads: map<Slot, Upload>, blobs: map<Loc, Blob>)
    ensures OnlyStaged(uploads, blobs, blobs, [])
  {
  }
  lemma SameExpired(t: Tables, now: int, t': Tables)
    requires t'.uploads == t.uploads && t'.deletions == t.deletions
    ensures Expired(t', now) == Expired(t, now)
  {
  }
  /** A hundred of the uploads whose time is over, or all of them, those over longest first;
      none of a bucket that is being deleted, which are left to its cleanup. */
  ghost predicate OldestExpired(t: Tables, now: int, list: seq<Slot>) {
    && |list| <= 100
    && (forall s :: s in list ==> s in t.uploads && t.uploads[s].expires < now && s.bucket !in t.deletions)
    && (forall i, j :: 0 <= i < j < |list| ==>
          list[i] != list[j] && list[i] in t.uploads && list[j] in t.uploads && t.uploads[list[i]].expires <= t.uploads[list[j]].expires)
    && (forall s, r :: s in t.uploads && t.uploads[s].expires < now && s.bucket !in t.deletions && s !in list ==>
          |list| == 100 && (r in list && r in t.uploads ==> t.uploads[r].expires <= t.uploads[s].expires))
  }
  lemma OldestAreExpired(t: Tables, now: int, list: seq<Slot>)
    requires IsOldest(Expired(t, now), 100, list)
    ensures OldestExpired(t, now, list)
  {
    var times := Expired(t, now);
    forall i, j | 0 <= i < j < |list| ensures times[list[i]] <= times[list[j]] {}
  }
  lemma ExpiredRows(t: Tables, now: int, list: seq<Slot>)
    requires IsOldest(Expired(t, now), 100, list)
    ensures forall s :: s in list ==> s in Expired(t, now) && s in t.uploads
  {
  }
  lemma NothingYet(t: Tables, t': Tables, now: int, blobs: map<Loc, Blob>)
    requires t' == Ledger.PruneUploadGrants(t, now).tables
    ensures GaveUp(t, t', now, []) && OnlyStaged(t.uploads, blobs, blobs, [])
  {
  }
  lemma OneGivenUp(t: Tables, t1: Tables, t2: Tables, now: int, list: seq<Slot>, slot: Slot)
    requires GaveUp(t, t1, now, list) && (t2 == t1 || t2 == t1.(uploads := t1.uploads - {slot}))
    ensures GaveUp(t, t2, now, list + [slot])
    ensures forall s :: s in list && s !in t1.uploads ==> s !in t2.uploads
    ensures forall s :: s in list && s !in t2.uploads && s != slot ==> s !in t1.uploads
  {
  }
  lemma OneUnstaged(uploads: map<Slot, Upload>, blobs: map<Loc, Blob>, blobs1: map<Loc, Blob>, blobs2: map<Loc, Blob>,
                    list: seq<Slot>, slot: Slot)
    requires OnlyStaged(uploads, blobs, blobs1, list) && slot in uploads
    requires blobs2 == blobs1 || blobs2 == blobs1 - {Staged(uploads[slot])}
    ensures OnlyStaged(uploads, blobs, blobs2, list + [slot])
    ensures forall l :: l in blobs2 ==> l in blobs1
  {
    forall l | l in blobs && l !in blobs2 ensures exists s :: s in list + [slot] && s in uploads && Staged(uploads[s]) == l {
      if l !in blobs1 {
        var s :| s in list && s in uploads && Staged(uploads[s]) == l;
        assert s in list + [slot];
      } else {
        assert slot in list + [slot];
      }
    }
  }
  lemma Untouched(t: Tables, t': Tables, now: int, list: seq<Slot>, i: nat)
    requires i < |list| && IsOldest(Expired(t, now), 100, list) && GaveUp(t, t', now, list[..i])
    ensures list[i] in t.uploads && list[i] in t'.uploads && t'.uploads[list[i]] == t.uploads[list[i]]
  {
    assert list[i] in Expired(t, now);
    assert list[i] !in list[..i];
  }
  lemma CancelsIt(t: Tables, slot: Slot)
    requires WellFormed(t) && slot in t.uploads
    ensures Ledger.CancelUpload(t, t.uploads[slot].id) == Outcome.Done(t.(uploads := t.uploads - {slot}))
  {
    assert UploadSlot(t.uploads, t.uploads[slot].id) == slot;
  }

  lemma CopyGone(blobs: map<Loc, Blob>, was: map<Loc, Blob>, staged: Loc, next: Loc)
    requires staged in was && blobs == was[next := was[staged]]
    ensures next !in was ==> blobs - {next} == was && was.Items <= blobs.Items
  {
  }

  lemma NewPlaces(t: Tables, blobs: map<Loc, Blob>, slot: Slot, gen: nat, next: Loc)
    requires next.key == Physical(slot.bucket, gen, slot.key)
    ensures NewKey(t.objects, blobs, slot, gen) ==> next !in blobs && (slot in t.objects ==> t.objects[slot].physical != next.key)
  {
  }
  lemma IsCommitted(t: Tables, t': Tables, blobs: map<Loc, Blob>, blobs': map<Loc, Blob>, slot: Slot, id: Id, gen: nat)
    requires slot in t.uploads && t.uploads[slot].id == id && NewKey(t.objects, blobs, slot, gen)
    requires var up := t.uploads[slot];
      var staged, next := Loc(up.source, up.physical), Target(up.source, slot, gen);
      && staged in blobs && |blobs[staged]| == up.size && Ledger.CommitUpload(t, slot, id, next.key, up.size) == Outcome.Done(t')
      && next in blobs'
      && var promoted := blobs[next := blobs[staged]];
         && (forall l :: l in blobs' ==> l in promoted && blobs'[l] == promoted[l])
         && (forall l :: l in promoted && l != staged && (slot in t.objects ==> l != Place(t.objects[slot])) ==> l in blobs')
    ensures Committed(t, t', blobs, blobs', slot, id, gen)
  {
    hide Ledger.CommitUpload, Physical;
  }

  lemma NothingClashes(t: Tables, blobs: map<Loc, Blob>, slot: Slot, id: Id, gen: nat)
    requires WellFormed(t) && Active(t, slot.bucket) && slot in t.uploads && t.uploads[slot].id == id
    ensures NewKey(t.objects, blobs, slot, gen) && IdIsFree(t, slot) ==>
      CommitRefusal(t, slot, id, Physical(slot.bucket, gen, slot.key)) == None
  {
    hide Physical;
  }
  /** The id a new object would get is not taken. */
  ghost predicate IdIsFree(t: Tables, slot: Slot) {
    slot in t.uploads && slot !in t.objects ==> forall s :: s in t.objects ==> t.objects[s].id != ObjectId(t.uploads[slot].id)
  }
  /** Neither the staged bytes nor those of the replaced object are left. */
  ghost predicate Tidied(t: Tables, blobs: map<Loc, Blob>, available: set<Id>, slot: Slot) {
    && (slot in t.uploads ==> Loc(t.uploads[slot].source, t.uploads[slot].physical) !in blobs)
    && (slot in t.objects && t.objects[slot].source in available ==> Loc(t.objects[slot].source, t.objects[slot].physical) !in blobs)
  }
  ghost predicate MustCommit(t: Tables, blobs: map<Loc, Blob>, available: set<Id>, slot: Slot, id: Id, gen: nat) {
    CanCommit(t, blobs, available, slot, id) && IdIsFree(t, slot) && NewKey(t.objects, blobs, slot, gen)
  }
  ghost predicate CanCommit(t: Tables, blobs: map<Loc, Blob>, available: set<Id>, slot: Slot, id: Id) {
    && Active(t, slot.bucket) && slot in t.uploads && t.uploads[slot].id == id && t.uploads[slot].source in available
    && var staged := Loc(t.uploads[slot].source, t.uploads[slot].physical);
       staged in blobs && |blobs[staged]| == t.uploads[slot].size
  }
  /** The row records the declared size, which is the size of the bytes stored under it, which
      are the staged ones. */
  ghost predicate Committed(t: Tables, t': Tables, blobs: map<Loc, Blob>, blobs': map<Loc, Blob>, slot: Slot, id: Id, gen: nat) {
    && slot in t.uploads && t.uploads[slot].id == id
    && var up := t.uploads[slot];
       var staged, next := Loc(up.source, up.physical), Target(up.source, slot, gen);
       && Ledger.CommitUpload(t, slot, id, next.key, up.size) == Outcome.Done(t')
       && staged in blobs && |blobs[staged]| == up.size
       && next in blobs' && blobs'[next] == blobs[staged]
       && (forall l :: l in blobs' && l != next ==> l in blobs && blobs'[l] == blobs[l])
       && (forall l :: l in blobs && l != staged && (slot in t.objects ==> l != Place(t.objects[slot])) ==>
             l in blobs' && blobs'[l] == blobs[l])
  }

  ghost predicate CanRotate(t: Tables, blobs: map<Loc, Blob>, available: set<Id>, slot: Slot) {
    Active(t, slot.bucket) && slot in t.objects && t.objects[slot].source in available && Place(t.objects[slot]) in blobs
  }
  ghost predicate HasBytes(t: Tables, blobs: map<Loc, Blob>, slot: Slot) {
    slot in t.objects && Place(t.objects[slot]) in blobs
  }
  /** The object is at neither of the rotation's two places. */
  ghost predicate Lost(t: Tables, blobs: map<Loc, Blob>, slot: Slot, gen: nat) {
    slot in t.objects && Place(t.objects[slot]) !in blobs && Target(t.objects[slot].source, slot, gen) !in blobs
  }
  /** The object's row points at its new place, which holds the old bytes; the old place is
      empty; nothing else has changed. */
  ghost predicate Rotated(t: Tables, t': Tables, blobs: map<Loc, Blob>, blobs': map<Loc, Blob>, slot: Slot, gen: nat) {
    && slot in t.objects && Place(t.objects[slot]) in blobs
    && var row := t.objects[slot];
       var next := Target(row.source, slot, gen);
       && t' == t.(objects := t.objects[slot := row.(physical := next.key, generation := gen)])
       && blobs' == blobs[next := blobs[Place(row)]] - {Place(row)}
  }
  /** Everything that was stored still is, but perhaps for the object's own bytes. */
  ghost predicate KeptBut(objects: map<Slot, Object>, blobs: map<Loc, Blob>, blobs': map<Loc, Blob>, slot: Slot) {
    forall l :: l in blobs && (slot in objects ==> l != Place(objects[slot])) ==> l in blobs' && blobs'[l] == blobs[l]
  }

  lemma SwitchedRow(t: Tables, slot: Slot, physical: string, gen: int)
    requires WellFormed(t) && slot in t.objects
    ensures var r, row := RotatePhysicalKey(t, t.objects[slot].id, physical, gen), t.objects[slot];
      r.Done? ==> r.tables == t.(objects := t.objects[slot := row.(physical := physical, generation := gen)])
  {
  }
  lemma NewKeyFits(t: Tables, blobs: map<Loc, Blob>, slot: Slot, gen: nat)
    requires WellFormed(t) && slot in t.objects
    ensures NewKey(t.objects, blobs, slot, gen) ==>
      RotatePhysicalKey(t, t.objects[slot].id, Physical(slot.bucket, gen, slot.key), gen).Done?
  {
    hide Physical;
    RowOfId(t, slot);
  }
  lemma UndoRestores(blobs: map<Loc, Blob>, at: Loc, next: Loc)
    requires at in blobs
    ensures next !in blobs ==> (blobs[next := blobs[at]] - {at})[at := blobs[at]] - {next} == blobs
  {
  }

  lemma RowOfId(t: Tables, slot: Slot)
    requires WellFormed(t) && slot in t.objects
    ensures ObjectHas(t.objects, t.objects[slot].id) && ObjectSlot(t.objects, t.objects[slot].id) == slot
  {
  }
}

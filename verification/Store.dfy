/**
 The store the service talks to: the tables, with the running counters the database keeps
 on each bucket and source. Every transaction adjusts its counters in place, clamping each
 subtraction at zero, and is proved to do to the tables exactly what module Ledger says,
 where the same numbers are sums over the rows. So the counters equal those sums after
 every transaction, and no clamp ever cuts anything off.
 */
module Store {
  import opened Sums
  import opened Ledger
  import opened Sorting
  import Tombstones

  /** The used_bytes and reserved_bytes columns of one bucket or source. */
  datatype Account = Account(used: int, reserved: int)

  function Clamp(x: int): int { if x < 0 then 0 else x }

  /** The counters are the sums over the rows, and no row lacks them. */
  ghost predicate Balanced(t: Tables, bucketAccounts: map<Id, Account>, sourceAccounts: map<Id, Account>) {
    && bucketAccounts.Keys == t.buckets.Keys
    && (forall b :: b in bucketAccounts ==> bucketAccounts[b] == Account(Used(t, b), Reserved(t, b)))
    && sourceAccounts.Keys == t.sources.Keys
    && (forall s :: s in sourceAccounts ==> sourceAccounts[s] == Account(SourceUsed(t, s), SourceReserved(t, s)))
  }

  /** `SET reserved_bytes=reserved_bytes+? WHERE id=?`. As in SQL, no row is no update, which
      is what the legacy source's empty id gets: it never has a row. */
  function Hold(accounts: map<Id, Account>, id: Id, reserve: nat): map<Id, Account> {
    if id in accounts then accounts[id := Account(accounts[id].used, accounts[id].reserved + reserve)] else accounts
  }
  /** `SET reserved_bytes=MAX(0,reserved_bytes-?), used_bytes=MAX(0,used_bytes-?)+? WHERE id=?` */
  function Settle(accounts: map<Id, Account>, id: Id, release: nat, free: nat, fill: nat): map<Id, Account> {
    if id in accounts
    then accounts[id := Account(Clamp(accounts[id].used - free) + fill, Clamp(accounts[id].reserved - release))]
    else accounts
  }

  // ---------- How the sums move ----------

  lemma ObjectPut(objects: map<Slot, Object>, slot: Slot, row: Object)
    ensures forall b {:trigger ObjectBytes(b)} ::
      Sum(objects[slot := row], ObjectBytes(b)) ==
        Sum(objects, ObjectBytes(b)) - At(objects, ObjectBytes(b), slot) + ObjectBytes(b)(slot, row)
    ensures forall s {:trigger PlacedBytes(s)} ::
      Sum(objects[slot := row], PlacedBytes(s)) ==
        Sum(objects, PlacedBytes(s)) - At(objects, PlacedBytes(s), slot) + PlacedBytes(s)(slot, row)
  {
    forall b { Put(objects, ObjectBytes(b), slot, row); }
    forall s { Put(objects, PlacedBytes(s), slot, row); }
  }

  lemma ObjectDrop(objects: map<Slot, Object>, slot: Slot)
    ensures forall b {:trigger ObjectBytes(b)} ::
      Sum(objects - {slot}, ObjectBytes(b)) == Sum(objects, ObjectBytes(b)) - At(objects, ObjectBytes(b), slot)
    ensures forall s {:trigger PlacedBytes(s)} ::
      Sum(objects - {slot}, PlacedBytes(s)) == Sum(objects, PlacedBytes(s)) - At(objects, PlacedBytes(s), slot)
  {
    forall b { Drop(objects, ObjectBytes(b), slot); }
    forall s { Drop(objects, PlacedBytes(s), slot); }
  }

  lemma UploadPut(uploads: map<Slot, Upload>, slot: Slot, row: Upload)
    requires slot !in uploads
    ensures forall b {:trigger UploadBytes(b)} ::
      Sum(uploads[slot := row], UploadBytes(b)) == Sum(uploads, UploadBytes(b)) + UploadBytes(b)(slot, row)
    ensures forall s {:trigger PlacedUploads(s)} ::
      Sum(uploads[slot := row], PlacedUploads(s)) == Sum(uploads, PlacedUploads(s)) + PlacedUploads(s)(slot, row)
  {
    forall b { Put(uploads, UploadBytes(b), slot, row); }
    forall s { Put(uploads, PlacedUploads(s), slot, row); }
  }

  lemma UploadDrop(uploads: map<Slot, Upload>, slot: Slot)
    ensures forall b {:trigger UploadBytes(b)} ::
      Sum(uploads - {slot}, UploadBytes(b)) == Sum(uploads, UploadBytes(b)) - At(uploads, UploadBytes(b), slot)
    ensures forall s {:trigger PlacedUploads(s)} ::
      Sum(uploads - {slot}, PlacedUploads(s)) == Sum(uploads, PlacedUploads(s)) - At(uploads, PlacedUploads(s), slot)
  {
    forall b { Drop(uploads, UploadBytes(b), slot); }
    forall s { Drop(uploads, PlacedUploads(s), slot); }
  }

  lemma ObjectsWeigh(objects: map<Slot, Object>, b: Id, s: Id)
    ensures 0 <= Sum(objects, ObjectBytes(b)) && 0 <= Sum(objects, PlacedBytes(s))
    ensures forall slot :: slot in objects ==> ObjectBytes(b)(slot, objects[slot]) <= Sum(objects, ObjectBytes(b))
    ensures forall slot :: slot in objects ==> PlacedBytes(s)(slot, objects[slot]) <= Sum(objects, PlacedBytes(s))
  {
    forall slot | slot in objects ensures 0 <= ObjectBytes(b)(slot, objects[slot]) { assert 0 <= objects[slot].size; }
    NonNegative(objects, ObjectBytes(b));
    NonNegative(objects, PlacedBytes(s));
  }
  lemma UploadsWeigh(uploads: map<Slot, Upload>, b: Id, s: Id)
    ensures 0 <= Sum(uploads, UploadBytes(b)) && 0 <= Sum(uploads, PlacedUploads(s))
    ensures forall slot :: slot in uploads ==> UploadBytes(b)(slot, uploads[slot]) <= Sum(uploads, UploadBytes(b))
    ensures forall slot :: slot in uploads ==> PlacedUploads(s)(slot, uploads[slot]) <= Sum(uploads, PlacedUploads(s))
  {
    forall slot | slot in uploads ensures 0 <= UploadBytes(b)(slot, uploads[slot]) { assert 0 <= uploads[slot].reserved; }
    forall slot | slot in uploads ensures 0 <= PlacedUploads(s)(slot, uploads[slot]) { assert 0 <= uploads[slot].sourceReserved; }
    NonNegative(uploads, UploadBytes(b));
    NonNegative(uploads, PlacedUploads(s));
  }

  /** What a row contributes to a counter is never more than the counter holds, so the
      clamped subtraction of it is the plain one. */
  lemma NeverClamped(t: Tables, slot: Slot)
    ensures slot in t.objects && t.objects[slot].ready ==>
      t.objects[slot].size <= Used(t, slot.bucket) && t.objects[slot].size <= SourceUsed(t, t.objects[slot].source)
    ensures slot in t.uploads ==>
      t.uploads[slot].reserved <= Reserved(t, slot.bucket) && t.uploads[slot].sourceReserved <= SourceReserved(t, t.uploads[slot].source)
  {
    if slot in t.objects {
      ObjectsWeigh(t.objects, slot.bucket, t.objects[slot].source);
      assert ObjectBytes(slot.bucket)(slot, t.objects[slot]) <= Used(t, slot.bucket);
    }
    if slot in t.uploads {
      UploadsWeigh(t.uploads, slot.bucket, t.uploads[slot].source);
      assert UploadBytes(slot.bucket)(slot, t.uploads[slot]) <= Reserved(t, slot.bucket);
    }
  }

  lemma NeverNegative(t: Tables, b: Id, s: Id)
    ensures 0 <= Used(t, b) && 0 <= Reserved(t, b) && 0 <= SourceUsed(t, s) && 0 <= SourceReserved(t, s)
  {
    ObjectsWeigh(t.objects, b, s);
    UploadsWeigh(t.uploads, b, s);
  }

  function OthersPlacedBytes(b: Id, source: Id): (Slot, Object) -> int {
    (s: Slot, o: Object) => if s.bucket == b then 0 else PlacedBytes(source)(s, o)
  }
  function OthersPlacedUploads(b: Id, source: Id): (Slot, Upload) -> int {
    (s: Slot, u: Upload) => if s.bucket == b then 0 else PlacedUploads(source)(s, u)
  }

  /** Removing a bucket's rows takes from a source exactly that bucket's share of it. */
  lemma ShareOfSource(objects: map<Slot, Object>, uploads: map<Slot, Upload>, b: Id, s: Id)
    ensures Sum(objects - ObjectSlots(objects, b), PlacedBytes(s)) == Sum(objects, PlacedBytes(s)) - Sum(objects, BucketPlacedBytes(b, s))
    ensures Sum(uploads - UploadSlots(uploads, b), PlacedUploads(s)) ==
      Sum(uploads, PlacedUploads(s)) - Sum(uploads, BucketPlacedUploads(b, s))
    ensures 0 <= Sum(objects - ObjectSlots(objects, b), PlacedBytes(s))
    ensures 0 <= Sum(uploads - UploadSlots(uploads, b), PlacedUploads(s))
  {
    Keep(objects, ObjectSlots(objects, b), PlacedBytes(s), OthersPlacedBytes(b, s));
    Add(objects, BucketPlacedBytes(b, s), OthersPlacedBytes(b, s), PlacedBytes(s));
    NonNegative(objects, OthersPlacedBytes(b, s));
    Keep(uploads, UploadSlots(uploads, b), PlacedUploads(s), OthersPlacedUploads(b, s));
    Add(uploads, BucketPlacedUploads(b, s), OthersPlacedUploads(b, s), PlacedUploads(s));
    NonNegative(uploads, OthersPlacedUploads(b, s));
  }

  /** ... and leaves the other buckets' own numbers alone. */
  lemma OtherBuckets(objects: map<Slot, Object>, uploads: map<Slot, Upload>, b: Id, c: Id)
    requires b != c
    ensures Sum(objects - ObjectSlots(objects, b), ObjectBytes(c)) == Sum(objects, ObjectBytes(c))
    ensures Sum(uploads - UploadSlots(uploads, b), UploadBytes(c)) == Sum(uploads, UploadBytes(c))
  {
    Keep(objects, ObjectSlots(objects, b), ObjectBytes(c), ObjectBytes(c));
    Keep(uploads, UploadSlots(uploads, b), UploadBytes(c), UploadBytes(c));
  }

  /** A source's counters once a bucket's share has been taken off, with the clamps. */
  ghost function Released(t: Tables, b: Id, s: Id): Account {
    Account(
      Clamp(SourceUsed(t, s) - Sum(t.objects, BucketPlacedBytes(b, s))),
      Clamp(SourceReserved(t, s) - Sum(t.uploads, BucketPlacedUploads(b, s))))
  }

  lemma FinishBalances(t: Tables, now: int, b: Id, ba: map<Id, Account>, sa: map<Id, Account>)
    requires FinishBucketDeletion(t, now, b).Done?
    requires ba.Keys == t.buckets.Keys && forall c :: c in ba ==> ba[c] == Account(Used(t, c), Reserved(t, c))
    requires sa.Keys == t.sources.Keys
    requires forall s :: s in sa ==> sa[s] == Released(t, b, s)
    ensures Balanced(FinishBucketDeletion(t, now, b).tables, ba - {b}, sa)
  {
    forall s | s in sa { ShareOfSource(t.objects, t.uploads, b, s); }
    forall c | c in ba && c != b { OtherBuckets(t.objects, t.uploads, b, c); }
  }

  lemma OtherColumns(t: Tables, t': Tables, ba: map<Id, Account>, sa: map<Id, Account>)
    requires Balanced(t, ba, sa)
    requires t'.objects == t.objects && t'.uploads == t.uploads && t'.buckets.Keys == t.buckets.Keys && t'.sources.Keys == t.sources.Keys
    ensures Balanced(t', ba, sa)
  {
  }

  lemma UploadAdded(t: Tables, ba: map<Id, Account>, sa: map<Id, Account>, slot: Slot, row: Upload)
    requires Balanced(t, ba, sa) && slot !in t.uploads
    ensures Balanced(t.(uploads := t.uploads[slot := row]), Hold(ba, slot.bucket, row.reserved), Hold(sa, row.source, row.sourceReserved))
  {
    UploadPut(t.uploads, slot, row);
  }

  lemma UploadRemoved(t: Tables, ba: map<Id, Account>, sa: map<Id, Account>, slot: Slot)
    requires Balanced(t, ba, sa) && slot in t.uploads
    ensures var u := t.uploads[slot];
      Balanced(t.(uploads := t.uploads - {slot}), Settle(ba, slot.bucket, u.reserved, 0, 0), Settle(sa, u.source, u.sourceReserved, 0, 0))
  {
    UploadDrop(t.uploads, slot);
    NeverClamped(t, slot);
    ObjectsWeigh(t.objects, slot.bucket, t.uploads[slot].source);
  }

  lemma ObjectAdded(t: Tables, ba: map<Id, Account>, sa: map<Id, Account>, slot: Slot, row: Object)
    requires Balanced(t, ba, sa) && slot !in t.objects && row.ready
    ensures Balanced(t.(objects := t.objects[slot := row]), Settle(ba, slot.bucket, 0, 0, row.size), Settle(sa, row.source, 0, 0, row.size))
  {
    BucketCharged(t, ba, slot, row);
    SourceCharged(t, sa, slot, row);
  }
  lemma BucketCharged(t: Tables, ba: map<Id, Account>, slot: Slot, row: Object)
    requires ba.Keys == t.buckets.Keys && slot !in t.objects && row.ready
    requires forall b :: b in ba ==> ba[b] == Account(Used(t, b), Reserved(t, b))
    ensures var t', ba' := t.(objects := t.objects[slot := row]), Settle(ba, slot.bucket, 0, 0, row.size);
      ba'.Keys == t'.buckets.Keys && forall b :: b in ba' ==> ba'[b] == Account(Used(t', b), Reserved(t', b))
  {
    ObjectPut(t.objects, slot, row);
    NeverNegative(t, slot.bucket, "");
  }
  lemma SourceCharged(t: Tables, sa: map<Id, Account>, slot: Slot, row: Object)
    requires sa.Keys == t.sources.Keys && slot !in t.objects && row.ready
    requires forall s :: s in sa ==> sa[s] == Account(SourceUsed(t, s), SourceReserved(t, s))
    ensures var t', sa' := t.(objects := t.objects[slot := row]), Settle(sa, row.source, 0, 0, row.size);
      sa'.Keys == t'.sources.Keys && forall s :: s in sa' ==> sa'[s] == Account(SourceUsed(t', s), SourceReserved(t', s))
  {
    ObjectPut(t.objects, slot, row);
    NeverNegative(t, "", row.source);
  }

  lemma ObjectRemoved(t: Tables, ba: map<Id, Account>, sa: map<Id, Account>, slot: Slot)
    requires Balanced(t, ba, sa) && slot in t.objects && t.objects[slot].ready
    ensures var o := t.objects[slot];
      Balanced(t.(objects := t.objects - {slot}), Settle(ba, slot.bucket, 0, o.size, 0), Settle(sa, o.source, 0, o.size, 0))
  {
    ObjectDrop(t.objects, slot);
    NeverClamped(t, slot);
    UploadsWeigh(t.uploads, slot.bucket, t.objects[slot].source);
  }

  /** A new bucket or source starts at zero because no row can name it yet. */
  lemma NoRowsNoBytes(t: Tables, id: Id)
    requires WellFormed(t)
    ensures id !in t.buckets ==> Used(t, id) == 0 && Reserved(t, id) == 0
    ensures id !in t.sources && id != "" ==> SourceUsed(t, id) == 0 && SourceReserved(t, id) == 0
  {
    if id !in t.buckets {
      Zero(t.objects, ObjectBytes(id));
      Zero(t.uploads, UploadBytes(id));
    }
    if id !in t.sources && id != "" {
      Zero(t.objects, PlacedBytes(id));
      Zero(t.uploads, PlacedUploads(id));
    }
  }

  lemma SettleTwice(accounts: map<Id, Account>, id: Id, release: nat, free: nat, fill: nat)
    requires id in accounts ==> free <= accounts[id].used && release <= accounts[id].reserved
    ensures Settle(Settle(Settle(accounts, id, release, 0, 0), id, 0, free, 0), id, 0, 0, fill) == Settle(accounts, id, release, free, fill)
    ensures Settle(Settle(accounts, id, release, 0, 0), id, 0, 0, fill) == Settle(accounts, id, release, 0, fill)
  {
  }

  lemma SettleElsewhere(accounts: map<Id, Account>, to: Id, from: Id, release: nat, free: nat, fill: nat)
    requires to in accounts ==> 0 <= accounts[to].used && release <= accounts[to].reserved
    requires from in accounts ==> free <= accounts[from].used && 0 <= accounts[from].reserved
    ensures Settle(Settle(Settle(accounts, to, release, 0, 0), from, 0, free, 0), to, 0, 0, fill)
         == Settle(Settle(accounts, to, release, 0, fill), from, 0, free, 0)
  {
  }

  lemma InsertBalances(t: Tables, ba: map<Id, Account>, sa: map<Id, Account>, slot: Slot, row: Object)
    requires Balanced(t, ba, sa) && slot in t.uploads && slot !in t.objects && row.ready && row.source == t.uploads[slot].source
    ensures Balanced(t.(objects := t.objects[slot := row], uploads := t.uploads - {slot}),
      Settle(ba, slot.bucket, t.uploads[slot].reserved, 0, row.size),
      Settle(sa, row.source, t.uploads[slot].sourceReserved, 0, row.size))
  {
    var u := t.uploads[slot];
    UploadRemoved(t, ba, sa, slot);
    NeverClamped(t, slot);
    ObjectsWeigh(t.objects, slot.bucket, row.source);
    SettleTwice(ba, slot.bucket, u.reserved, 0, row.size);
    SettleTwice(sa, row.source, u.sourceReserved, 0, row.size);
    var ba1, sa1 := Settle(ba, slot.bucket, u.reserved, 0, 0), Settle(sa, row.source, u.sourceReserved, 0, 0);
    ObjectAdded(t.(uploads := t.uploads - {slot}), ba1, sa1, slot, row);
  }

  /** A commit releases the reservation, frees the replaced object and charges the new one,
      each on its own source. */
  lemma ReplaceBalances(t: Tables, ba: map<Id, Account>, sa: map<Id, Account>, slot: Slot, row: Object)
    requires Balanced(t, ba, sa) && slot in t.uploads && row.ready && row.source == t.uploads[slot].source
    requires slot in t.objects && t.objects[slot].ready
    ensures Balanced(t.(objects := t.objects[slot := row], uploads := t.uploads - {slot}),
      Settle(ba, slot.bucket, t.uploads[slot].reserved, t.objects[slot].size, row.size),
      Settle(Settle(sa, row.source, t.uploads[slot].sourceReserved, 0, row.size), t.objects[slot].source, 0, t.objects[slot].size, 0))
  {
    var u, o := t.uploads[slot], t.objects[slot];
    UploadRemoved(t, ba, sa, slot);
    var t1 := t.(uploads := t.uploads - {slot});
    var ba1, sa1 := Settle(ba, slot.bucket, u.reserved, 0, 0), Settle(sa, row.source, u.sourceReserved, 0, 0);
    ObjectRemoved(t1, ba1, sa1, slot);
    ObjectAdded(t1.(objects := t.objects - {slot}), Settle(ba1, slot.bucket, 0, o.size, 0), Settle(sa1, o.source, 0, o.size, 0), slot, row);
    assert (t.objects - {slot})[slot := row] == t.objects[slot := row];
    ReplaceSettles(t, ba, sa, slot, row);
  }

  lemma ReplaceSettles(t: Tables, ba: map<Id, Account>, sa: map<Id, Account>, slot: Slot, row: Object)
    requires Balanced(t, ba, sa) && slot in t.uploads && slot in t.objects && t.objects[slot].ready && row.source == t.uploads[slot].source
    ensures var u, o, b := t.uploads[slot], t.objects[slot], slot.bucket;
      && Settle(Settle(Settle(ba, b, u.reserved, 0, 0), b, 0, o.size, 0), b, 0, 0, row.size) == Settle(ba, b, u.reserved, o.size, row.size)
      && Settle(Settle(Settle(sa, row.source, u.sourceReserved, 0, 0), o.source, 0, o.size, 0), row.source, 0, 0, row.size)
         == Settle(Settle(sa, row.source, u.sourceReserved, 0, row.size), o.source, 0, o.size, 0)
  {
    var u, o := t.uploads[slot], t.objects[slot];
    NeverClamped(t, slot);
    ObjectsWeigh(t.objects, slot.bucket, row.source);
    UploadsWeigh(t.uploads, slot.bucket, o.source);
    SettleTwice(ba, slot.bucket, u.reserved, o.size, row.size);
    SettleElsewhere(sa, row.source, o.source, u.sourceReserved, o.size, row.size);
  }

  lemma DeadlineGrows(seen: map<Id, Grant>, b: Id, now: int, a: int, g: Id, row: Grant)
    requires IsDeadline(seen, b, now, a) && g !in seen
    ensures IsDeadline(seen[g := row], b, now, if row.bucket == b && row.expires + MINUTE > a then row.expires + MINUTE else a)
  {
    var more := seen[g := row];
    assert g in more && more[g] == row;
    assert forall h :: h in seen ==> h in more && more[h] == seen[h];
  }

  /** The one UPDATE over all sources that gives back this bucket's share of each. */
  method ReleaseShares(t: Tables, b: Id, before: map<Id, Account>) returns (accounts: map<Id, Account>)
    requires before.Keys == t.sources.Keys
    requires forall s :: s in before ==> before[s] == Account(SourceUsed(t, s), SourceReserved(t, s))
    ensures accounts.Keys == t.sources.Keys
    ensures forall s :: s in accounts ==> accounts[s] == Released(t, b, s)
  {
    hide BucketPlacedBytes, BucketPlacedUploads, SourceUsed, SourceReserved;
    accounts := map[];
    var rest := before.Keys;
    while rest != {}
      invariant rest <= before.Keys && accounts.Keys == before.Keys - rest
      invariant forall s :: s in accounts ==> accounts[s] == Released(t, b, s)
      decreases |rest|
    {
      var s :| s in rest;
      var bytes := Aggregate(t.objects, BucketPlacedBytes(b, s));
      var held := Aggregate(t.uploads, BucketPlacedUploads(b, s));
      accounts := accounts[s := Account(Clamp(before[s].used - bytes), Clamp(before[s].reserved - held))];
      rest := rest - {s};
    }
  }

  /** The deletes of one finished bucket, after its late-transfer tombstone is left behind. */
  method DeleteBucketRows(t: Tables, now: int, b: Id) returns (t': Tables)
    requires FinishBucketDeletion(t, now, b).Done?
    ensures t' == FinishBucketDeletion(t, now, b).tables
  {
    t' := t;
    if b !in t.tombstones {
      t' := t'.(tombstones := t.tombstones[b := Tombstone(now + LATE_TRANSFER_WINDOW, now + SWEEP_INTERVAL)]);
    }
    t' := t'.(links := LinksBut(t'.links, BucketObjectIds(t'.objects, b)));
    t' := t'.(confirmations := ConfirmationsBut(t'.confirmations, b));
    t' := t'.(uploads := t'.uploads - UploadSlots(t'.uploads, b));
    t' := t'.(grants := GrantsBut(t'.grants, b));
    t' := t'.(objects := t'.objects - ObjectSlots(t'.objects, b));
    t' := t'.(deletions := t'.deletions - {b});
    t' := t'.(buckets := t'.buckets - {b});
  }

  /** Moving an object to another physical key moves no bytes. */
  lemma RotateBalances(t: Tables, ba: map<Id, Account>, sa: map<Id, Account>, slot: Slot, physical: string, generation: int)
    requires Balanced(t, ba, sa) && slot in t.objects
    ensures Balanced(t.(objects := t.objects[slot := t.objects[slot].(physical := physical, generation := generation)]), ba, sa)
  {
    ObjectPut(t.objects, slot, t.objects[slot].(physical := physical, generation := generation));
  }

  class Store {
    var tables: Tables
    var bucketAccounts: map<Id, Account>
    var sourceAccounts: map<Id, Account>

    ghost predicate Valid()
      reads this
    {
      WellFormed(tables) && Balanced(tables, bucketAccounts, sourceAccounts)
    }

    constructor ()
      ensures Valid() && tables == EMPTY
    {
      tables, bucketAccounts, sourceAccounts := EMPTY, map[], map[];
    }

    method ReserveRefusal(c: Limits, slot: Slot, q: Request) returns (err: Option<Error>)
      requires Valid()
      ensures err == Ledger.ReserveRefusal(tables, c, slot, q)
    {
      hide WellFormed, UploadHas, UploadPhysical, Sum;
      var b := slot.bucket;
      if b !in tables.buckets { return Some(NoRows); }
      if b in tables.deletions { return Some(BucketDeleting); }
      var pending := Aggregate(tables.uploads, UploadRows(b));
      if pending >= c.maxPending { return Some(PendingLimit); }
      if !HasReady(tables.objects, slot) {
        var count := Aggregate(tables.objects, ObjectRows(b));
        if count >= c.maxObjects { return Some(ObjectLimit); }
      }
      var account := bucketAccounts[b];
      var reserved := Clamp(q.size - SizeAt(tables.objects, slot));
      if !tables.buckets[b].unlimited && account.used + account.reserved + reserved > tables.buckets[b].quota {
        return Some(BucketQuota);
      }
      var sourceReserved := if SourceAt(tables.objects, slot) == q.source then reserved else q.size;
      if q.source != "" {
        if q.source !in tables.sources || !tables.sources[q.source].enabled { return Some(NoRows); }
        var load := sourceAccounts[q.source];
        if !tables.sources[q.source].unlimited && load.used + load.reserved + sourceReserved > tables.sources[q.source].capacity {
          return Some(SourceCapacity);
        }
      }
      if slot in tables.uploads || UploadHas(tables.uploads, q.id) || UploadPhysical(tables.uploads, q.physical) || q.id in tables.grants {
        return Some(Constraint);
      }
      return None;
    }

    method ReserveObject(c: Limits, slot: Slot, q: Request) returns (err: Option<Error>)
      requires Valid()
      modifies this
      ensures Valid()
      ensures var r := Ledger.ReserveObject(old(tables), c, slot, q);
        tables == After(old(tables), r) && err == Reply(r)
    {
      hide WellFormed, Growth, SourceGrowth;
      err := ReserveRefusal(c, slot, q);
      if err == None {
        var row := Reservation(tables.objects, slot, q);
        ReserveKeepsWellFormed(tables, c, slot, q);
        UploadAdded(tables, bucketAccounts, sourceAccounts, slot, row);
        tables := tables.(uploads := tables.uploads[slot := row]);
        ghost var inserted := tables;
        tables := tables.(grants := tables.grants[q.id := Grant(slot.bucket, q.expires)]);
        bucketAccounts := Hold(bucketAccounts, slot.bucket, row.reserved);
        sourceAccounts := Hold(sourceAccounts, q.source, row.sourceReserved);
        OtherColumns(inserted, tables, bucketAccounts, sourceAccounts);
      }
    }

    method CancelUpload(id: Id) returns (err: Option<Error>)
      requires Valid()
      modifies this
      ensures Valid()
      ensures var r := Ledger.CancelUpload(old(tables), id);
        tables == After(old(tables), r) && err == Reply(r)
    {
      if slot :| slot in tables.uploads && tables.uploads[slot].id == id {
        var row := tables.uploads[slot];
        CancelKeepsWellFormed(tables, id);
        UploadRemoved(tables, bucketAccounts, sourceAccounts, slot);
        tables := tables.(uploads := tables.uploads - {slot});
        bucketAccounts := Settle(bucketAccounts, slot.bucket, row.reserved, 0, 0);
        sourceAccounts := Settle(sourceAccounts, row.source, row.sourceReserved, 0, 0);
        err := None;
      } else {
        err := Some(NoRows);
      }
    }

    /** Returns the replaced object, if any, so that the caller can delete its bytes. */
    method CommitUpload(slot: Slot, id: Id, physical: string, actual: nat) returns (err: Option<Error>, replaced: Option<Object>)
      requires Valid()
      modifies this
      ensures Valid()
      ensures var r := Ledger.CommitUpload(old(tables), slot, id, physical, actual);
        tables == After(old(tables), r) && err == Reply(r)
      ensures replaced == if err == None && slot in old(tables).objects then Some(old(tables).objects[slot]) else None
    {
      hide ObjectsDistinct, UploadsFit, UploadsDistinct, LinksFit, DeletionsFit, Balanced, Settle;
      replaced := None;
      err := CommitRefusal(tables, slot, id, physical);
      if err == None {
        var upload := tables.uploads[slot];
        var row := Promoted(tables.objects, slot, upload, physical, actual);
        CommitKeepsWellFormed(tables, slot, id, physical, actual);
        if slot in tables.objects {
          ReplaceBalances(tables, bucketAccounts, sourceAccounts, slot, row);
          replaced := Some(tables.objects[slot]);
        } else {
          InsertBalances(tables, bucketAccounts, sourceAccounts, slot, row);
        }
        var oldSize := if replaced.Some? then replaced.value.size else 0;
        tables := tables.(objects := tables.objects[slot := row]);
        bucketAccounts := Settle(bucketAccounts, slot.bucket, upload.reserved, oldSize, actual);
        tables := tables.(uploads := tables.uploads - {slot});
        sourceAccounts := Settle(sourceAccounts, upload.source, upload.sourceReserved, 0, actual);
        if replaced.Some? {
          sourceAccounts := Settle(sourceAccounts, replaced.value.source, 0, oldSize, 0);
        }
      }
    }

    method DeleteObject(id: Id) returns (err: Option<Error>)
      requires Valid()
      modifies this
      ensures Valid()
      ensures var r := Ledger.DeleteObject(old(tables), id);
        tables == After(old(tables), r) && err == Reply(r)
    {
      hide UploadsFit, UploadsDistinct, LinksFit, DeletionsFit, Balanced, Settle, LinksBut;
      if slot :| slot in tables.objects && tables.objects[slot].id == id {
        var row := tables.objects[slot];
        DeleteKeepsWellFormed(tables, id);
        ObjectRemoved(tables, bucketAccounts, sourceAccounts, slot);
        ghost var t := tables;
        tables := tables.(links := LinksBut(tables.links, {id}));
        tables := tables.(objects := tables.objects - {slot});
        if row.ready {
          bucketAccounts := Settle(bucketAccounts, slot.bucket, 0, row.size, 0);
          sourceAccounts := Settle(sourceAccounts, row.source, 0, row.size, 0);
        } else {
          // The branch that would release a reservation instead: no row is ever in that state.
          assert false;
        }
        OtherColumns(t.(objects := t.objects - {slot}), tables, bucketAccounts, sourceAccounts);
        err := None;
      } else {
        err := Some(NoRows);
      }
    }

    method RotatePhysicalKey(id: Id, physical: string, generation: int) returns (err: Option<Error>)
      requires Valid()
      modifies this
      ensures Valid()
      ensures var r := Ledger.RotatePhysicalKey(old(tables), id, physical, generation);
        tables == After(old(tables), r) && err == Reply(r)
    {
      err := None;
      if slot :| slot in tables.objects && tables.objects[slot].id == id {
        if ObjectClash(tables.objects, slot, id, physical) {
          err := Some(Constraint);
        } else {
          var row := tables.objects[slot].(physical := physical, generation := generation);
          RotateKeepsWellFormed(tables, id, physical, generation);
          RotateBalances(tables, bucketAccounts, sourceAccounts, slot, physical, generation);
          tables := tables.(objects := tables.objects[slot := row]);
        }
      }
    }

    method CreateBucket(c: Limits, id: Id, b: Bucket, primaryUnlimited: bool) returns (err: Option<Error>)
      requires Valid()
      modifies this
      ensures Valid()
      ensures var r := Ledger.CreateBucket(old(tables), c, id, b, primaryUnlimited);
        tables == After(old(tables), r) && err == Reply(r)
    {
      if b.unlimited && !primaryUnlimited { return Some(NeedsUnlimitedPrimary); }
      if !b.unlimited && b.quota <= 0 { return Some(BadQuota); }
      var granted := Aggregate(tables.buckets, Quotas());
      if !b.unlimited && granted + b.quota > c.totalQuota { return Some(TotalQuota); }
      if id in tables.buckets { return Some(Constraint); }
      BucketsGrow(tables, id, b);
      NoRowsNoBytes(tables, id);
      tables := tables.(buckets := tables.buckets[id := b]);
      bucketAccounts := bucketAccounts[id := Account(0, 0)];
      err := None;
    }

    method UpdateBucket(c: Limits, id: Id, b: Bucket, primaryUnlimited: bool) returns (err: Option<Error>)
      requires Valid()
      modifies this
      ensures Valid()
      ensures var r := Ledger.UpdateBucket(old(tables), c, id, b, primaryUnlimited);
        tables == After(old(tables), r) && err == Reply(r)
    {
      if b.unlimited && !primaryUnlimited { return Some(NeedsUnlimitedPrimary); }
      if !b.unlimited && b.quota <= 0 { return Some(BadQuota); }
      if id !in tables.buckets { return Some(NoRows); }
      if id in tables.deletions { return Some(BucketDeleting); }
      var account := bucketAccounts[id];
      if !b.unlimited && b.quota < account.used + account.reserved { return Some(QuotaBelowUse); }
      var granted := Aggregate(tables.buckets, QuotasBut(id));
      if !b.unlimited && granted + b.quota > c.totalQuota { return Some(TotalQuota); }
      BucketsGrow(tables, id, b);
      tables := tables.(buckets := tables.buckets[id := b]);
      err := None;
    }

    method CreateStorageSource(id: SourceId, s: Source) returns (err: Option<Error>)
      requires Valid()
      modifies this
      ensures Valid()
      ensures var r := Ledger.AddSource(old(tables), id, s);
        tables == After(old(tables), r) && err == Reply(r)
    {
      if !s.unlimited && s.capacity <= 0 { return Some(BadCapacity); }
      if id in tables.sources { return Some(Constraint); }
      SourcesGrow(tables, id, s);
      NoRowsNoBytes(tables, id);
      tables := tables.(sources := tables.sources[id := s]);
      sourceAccounts := sourceAccounts[id := Account(0, 0)];
      err := None;
    }

    method UpdateStorageSource(id: SourceId, s: Source) returns (err: Option<Error>)
      requires Valid()
      modifies this
      ensures Valid()
      ensures var r := Ledger.UpdateSource(old(tables), id, s);
        tables == After(old(tables), r) && err == Reply(r)
    {
      if id !in tables.sources { return Some(NoRows); }
      if !s.unlimited && s.capacity <= 0 { return Some(BadCapacity); }
      var load := sourceAccounts[id];
      if !s.unlimited && s.capacity < load.used + load.reserved { return Some(CapacityBelowUse); }
      SourcesGrow(tables, id, s);
      tables := tables.(sources := tables.sources[id := s]);
      err := None;
    }

    method PrepareBucketDeletion(now: int, b: Id, hash: string, readyAt: int, expiresAt: int) returns (err: Option<Error>)
      requires Valid()
      modifies this
      ensures Valid()
      ensures var t := ExpireConfirmations(old(tables), now).tables;
        var r := Ledger.PrepareDeletion(t, b, hash, readyAt, expiresAt);
        tables == After(t, r) && err == Reply(r)
    {
      hide WellFormed, Balanced;
      ghost var was := tables;
      PrepareKeepsWellFormed(tables, Limits(0, 0, 0), Expire(now));
      tables := tables.(confirmations := map h | h in tables.confirmations && tables.confirmations[h].expiresAt >= now :: tables.confirmations[h]);
      OtherColumns(was, tables, bucketAccounts, sourceAccounts);
      if hash in tables.confirmations || b !in tables.buckets { return Some(Constraint); }
      PrepareKeepsWellFormed(tables, Limits(0, 0, 0), Prepare(b, hash, readyAt, expiresAt));
      tables := tables.(confirmations := tables.confirmations[hash := Confirmation(b, readyAt, expiresAt)]);
      OtherColumns(was, tables, bucketAccounts, sourceAccounts);
      err := None;
    }

    /** The scan of a bucket's upload grants for the instant after which no presigned PUT can
        still be alive. */
    method CleanupAfter(now: int, b: Id) returns (after: int)
      ensures after == Deadline(tables.grants, b, now)
      ensures now <= after && forall g :: g in tables.grants && tables.grants[g].bucket == b ==> tables.grants[g].expires + 60 <= after
      ensures after == now || exists g :: g in tables.grants && tables.grants[g].bucket == b && tables.grants[g].expires + 60 == after
    {
      var grants := tables.grants;
      after := now;
      var rest := grants.Keys;
      while rest != {}
        invariant rest <= grants.Keys
        invariant IsDeadline(grants - rest, b, now, after)
        decreases |rest|
      {
        var g :| g in rest;
        ghost var seen := grants - rest;
        assert grants - (rest - {g}) == seen[g := grants[g]];
        ghost var before := after;
        if grants[g].bucket == b && grants[g].expires + MINUTE > after {
          after := grants[g].expires + MINUTE;
        }
        DeadlineGrows(seen, b, now, before, g, grants[g]);
        rest := rest - {g};
      }
      assert grants - rest == grants;
    }

    /** Records the intent to delete. */
    method BeginBucketDeletion(now: int, b: Id, hash: string) returns (err: Option<Error>)
      requires Valid()
      modifies this
      ensures Valid()
      ensures var r := Ledger.BeginBucketDeletion(old(tables), now, b, hash);
        tables == After(old(tables), r) && err == Reply(r)
    {
      hide WellFormed, Balanced, ConfirmationsBut, RevokeAll, BucketObjectIds, IsDeadline;
      if b in tables.deletions { return None; }
      if hash !in tables.confirmations || tables.confirmations[hash].bucket != b { return Some(ConfirmationInvalid); }
      if now < tables.confirmations[hash].readyAt { return Some(ConfirmationEarly); }
      if now >= tables.confirmations[hash].expiresAt { return Some(ConfirmationExpired); }
      ghost var was := tables;
      BeginKeepsWellFormed(tables, now, b, hash);
      var after := CleanupAfter(now, b);
      tables := tables.(confirmations := ConfirmationsBut(tables.confirmations, b));
      tables := tables.(deletions := tables.deletions[b := Deletion(now, after)]);
      tables := tables.(links := RevokeAll(tables.links, BucketObjectIds(tables.objects, b)));
      OtherColumns(was, tables, bucketAccounts, sourceAccounts);
      err := None;
    }

    /** Takes the bucket's share off every source's counters, then removes all its rows. */
    method FinishBucketDeletion(now: int, b: Id) returns (err: Option<Error>)
      requires Valid()
      modifies this
      ensures Valid()
      ensures var r := Ledger.FinishBucketDeletion(old(tables), now, b);
        tables == After(old(tables), r) && err == Reply(r)
    {
      if b !in tables.deletions { return Some(NoRows); }
      if now < tables.deletions[b].cleanupAfter { return Some(GrantsLive); }
      FinishKeepsWellFormed(tables, now, b);
      sourceAccounts := ReleaseShares(tables, b, sourceAccounts);
      FinishBalances(tables, now, b, bucketAccounts, sourceAccounts);
      tables := DeleteBucketRows(tables, now, b);
      bucketAccounts := bucketAccounts - {b};
      err := None;
    }

    method PruneUploadGrants(now: int)
      requires Valid()
      modifies this
      ensures Valid() && tables == Ledger.PruneUploadGrants(old(tables), now).tables
      ensures forall g :: g in tables.grants <==>
        g in old(tables).grants && !(old(tables).grants[g].expires < now - 60 && old(tables).grants[g].bucket !in old(tables).deletions)
    {
      GrantsShrink(tables, Prune(now), Limits(0, 0, 0));
      tables := tables.(grants := map g | g in tables.grants
        && !(tables.grants[g].expires < now - MINUTE && tables.grants[g].bucket !in tables.deletions) :: tables.grants[g]);
    }

    method ForgetUploadGrant(id: Id)
      requires Valid()
      modifies this
      ensures Valid() && tables == Ledger.ForgetUploadGrant(old(tables), id).tables
    {
      GrantsShrink(tables, Forget(id), Limits(0, 0, 0));
      tables := tables.(grants := tables.grants - {id});
    }

    /** The fifty tombstones that have been due longest. */
    method DueBucketCleanupTombstones(now: int) returns (list: seq<Id>)
      ensures |list| <= 50 && forall b :: b in list ==> b in tables.tombstones && tables.tombstones[b].next <= now
      ensures forall i, j :: 0 <= i < j < |list| ==> tables.tombstones[list[i]].next <= tables.tombstones[list[j]].next
      ensures forall b, c :: b in tables.tombstones && tables.tombstones[b].next <= now && b !in list ==>
        |list| == 50 && (c in list ==> tables.tombstones[c].next <= tables.tombstones[b].next)
      ensures Tombstones.IsDueList(tables.tombstones, now, list)
    {
      ghost var due := Tombstones.Due(tables.tombstones, now);
      list := Oldest(Tombstones.Due(tables.tombstones, now), Tombstones.BATCH);
      forall i, j | 0 <= i < j < |list| ensures due[list[i]] <= due[list[j]] {}
    }

    /** Drops the tombstone or puts it off; with no such row, changes nothing. */
    method UpdateBucketCleanupTombstone(b: Id, finished: bool, now: int)
      requires Valid()
      modifies this
      ensures Valid()
      ensures tables == old(tables).(tombstones := Tombstones.Handled(old(tables).tombstones, b, finished, now))
      ensures tables.tombstones ==
        if finished then old(tables).tombstones - {b}
        else if b in old(tables).tombstones then old(tables).tombstones[b := Tombstone(old(tables).tombstones[b].until, now + 900)]
        else old(tables).tombstones
    {
      if finished {
        tables := tables.(tombstones := tables.tombstones - {b});
      } else if b in tables.tombstones {
        var later := tables.tombstones[b].(next := now + SWEEP_INTERVAL);
        tables := tables.(tombstones := tables.tombstones[b := later]);
      }
    }

    method CreatePublicLink(slug: string, target: Id, expires: Option<int>) returns (err: Option<Error>)
      requires Valid()
      modifies this
      ensures Valid()
      ensures var r := Ledger.CreatePublicLink(old(tables), slug, target, expires);
        tables == After(old(tables), r) && err == Reply(r)
    {
      if slug in tables.links || !ObjectHas(tables.objects, target) { return Some(Constraint); }
      LinkPut(tables, slug, Link(target, expires, false));
      tables := tables.(links := tables.links[slug := Link(target, expires, false)]);
      err := None;
    }

    method RevokePublicLink(b: Id, slug: string) returns (err: Option<Error>)
      requires Valid()
      modifies this
      ensures Valid()
      ensures var r := Ledger.RevokePublicLink(old(tables), b, slug);
        tables == After(old(tables), r) && err == Reply(r)
    {
      if slug !in tables.links || tables.links[slug].target !in BucketObjectIds(tables.objects, b) { return Some(NoRows); }
      LinkPut(tables, slug, tables.links[slug].(revoked := true));
      tables := tables.(links := tables.links[slug := tables.links[slug].(revoked := true)]);
      err := None;
    }
  }
}

/**
 The metadata tables and what each transaction does to them, without the running
 counters: here the bytes a bucket or a source uses and has reserved are sums over the
 rows. Module Store keeps the counters the database keeps and is proved to agree.

 A transaction either commits (`Done`) or rolls back (`Refused`), so a refused one leaves
 no trace. Instants are in seconds. `Tables.objects` and `Tables.uploads` are keyed by
 (bucket, logical key), which the schema declares unique in both.
 */
module Ledger {
  import opened Sums

  type Id = string
  /** The id of a configured source; the empty id names the legacy backend, which has no row. */
  type SourceId = s: string | s != "" witness "src_"

  const MINUTE := 60
  const SWEEP_INTERVAL := 15 * MINUTE
  const LATE_TRANSFER_WINDOW := 7 * 24 * 60 * MINUTE

  datatype Option<+T> = None | Some(value: T)

  datatype Slot = Slot(bucket: Id, key: string)
  datatype Bucket = Bucket(public: bool, quota: int, unlimited: bool)
  datatype Source = Source(priority: int, created: int, capacity: int, unlimited: bool, enabled: bool)
  datatype Object = Object(id: Id, source: Id, physical: string, size: nat, ready: bool, generation: int)
  datatype Upload = Upload(id: Id, source: Id, physical: string, size: nat, reserved: nat, sourceReserved: nat, expires: int)
  datatype Grant = Grant(bucket: Id, expires: int)
  datatype Link = Link(target: Id, expires: Option<int>, revoked: bool)
  datatype Deletion = Deletion(requestedAt: int, cleanupAfter: int)
  datatype Confirmation = Confirmation(bucket: Id, readyAt: int, expiresAt: int)
  datatype Tombstone = Tombstone(until: int, next: int)

  datatype Tables = Tables(
    buckets: map<Id, Bucket>,
    sources: map<Id, Source>,
    objects: map<Slot, Object>,
    uploads: map<Slot, Upload>,
    grants: map<Id, Grant>,
    links: map<string, Link>,
    deletions: map<Id, Deletion>,
    confirmations: map<string, Confirmation>,
    tombstones: map<Id, Tombstone>)

  const EMPTY := Tables(map[], map[], map[], map[], map[], map[], map[], map[], map[])

  datatype Error =
    | NoRows | BucketDeleting | Constraint
    | PendingLimit | ObjectLimit | BucketQuota | SourceCapacity
    | NeedsUnlimitedPrimary | BadQuota | QuotaBelowUse | TotalQuota | BadCapacity | CapacityBelowUse
    | ConfirmationInvalid | ConfirmationEarly | ConfirmationExpired | GrantsLive

  datatype Outcome = Done(tables: Tables) | Refused(error: Error)

  /** The configured limits, fixed for the life of the process. */
  datatype Limits = Limits(maxObjects: int, maxPending: int, totalQuota: int)

  /** What BeginUpload asks for. */
  datatype Request = Request(id: Id, source: Id, physical: string, size: nat, expires: int)

  // ---------- Weights: what each aggregate query adds up ----------

  function ObjectBytes(b: Id): (Slot, Object) -> int {
    (s: Slot, o: Object) => if s.bucket == b && o.ready then o.size else 0
  }
  function ObjectRows(b: Id): (Slot, Object) -> int {
    (s: Slot, o: Object) => if s.bucket == b && o.ready then 1 else 0
  }
  function PlacedBytes(source: Id): (Slot, Object) -> int {
    (s: Slot, o: Object) => if o.source == source && o.ready then o.size else 0
  }
  function BucketPlacedBytes(b: Id, source: Id): (Slot, Object) -> int {
    (s: Slot, o: Object) => if s.bucket == b then PlacedBytes(source)(s, o) else 0
  }
  function UploadBytes(b: Id): (Slot, Upload) -> int {
    (s: Slot, u: Upload) => if s.bucket == b then u.reserved else 0
  }
  function UploadRows(b: Id): (Slot, Upload) -> int {
    (s: Slot, u: Upload) => if s.bucket == b then 1 else 0
  }
  function PlacedUploads(source: Id): (Slot, Upload) -> int {
    (s: Slot, u: Upload) => if u.source == source then u.sourceReserved else 0
  }
  function BucketPlacedUploads(b: Id, source: Id): (Slot, Upload) -> int {
    (s: Slot, u: Upload) => if s.bucket == b then PlacedUploads(source)(s, u) else 0
  }
  function QuotasBut(id: Id): (Id, Bucket) -> int {
    (b: Id, row: Bucket) => if b == id || row.unlimited then 0 else row.quota
  }
  function Quotas(): (Id, Bucket) -> int {
    (b: Id, row: Bucket) => if row.unlimited then 0 else row.quota
  }

  ghost function Used(t: Tables, b: Id): int { Sum(t.objects, ObjectBytes(b)) }
  ghost function Reserved(t: Tables, b: Id): int { Sum(t.uploads, UploadBytes(b)) }
  ghost function Pending(t: Tables, b: Id): int { Sum(t.uploads, UploadRows(b)) }
  ghost function ReadyObjects(t: Tables, b: Id): int { Sum(t.objects, ObjectRows(b)) }
  ghost function SourceUsed(t: Tables, s: Id): int { Sum(t.objects, PlacedBytes(s)) }
  ghost function SourceReserved(t: Tables, s: Id): int { Sum(t.uploads, PlacedUploads(s)) }

  // ---------- Rows ----------

  predicate HasReady(objects: map<Slot, Object>, slot: Slot) {
    slot in objects && objects[slot].ready
  }
  function SizeAt(objects: map<Slot, Object>, slot: Slot): nat {
    if HasReady(objects, slot) then objects[slot].size else 0
  }
  function SourceAt(objects: map<Slot, Object>, slot: Slot): Id {
    if HasReady(objects, slot) then objects[slot].source else ""
  }
  /** A replacement reserves only what it adds to the object it replaces. */
  function Growth(objects: map<Slot, Object>, slot: Slot, size: nat): nat {
    if size <= SizeAt(objects, slot) then 0 else size - SizeAt(objects, slot)
  }
  /** On the source that holds the object it also only adds the growth, elsewhere all of it. */
  function SourceGrowth(objects: map<Slot, Object>, slot: Slot, size: nat, source: Id): nat {
    if SourceAt(objects, slot) == source then Growth(objects, slot, size) else size
  }

  predicate ObjectHas(objects: map<Slot, Object>, id: Id) {
    exists s :: s in objects && objects[s].id == id
  }
  ghost function ObjectSlot(objects: map<Slot, Object>, id: Id): (s: Slot)
    requires ObjectHas(objects, id)
    ensures s in objects && objects[s].id == id
  {
    var s :| s in objects && objects[s].id == id;
    s
  }
  predicate UploadHas(uploads: map<Slot, Upload>, id: Id) {
    exists s :: s in uploads && uploads[s].id == id
  }
  ghost function UploadSlot(uploads: map<Slot, Upload>, id: Id): (s: Slot)
    requires UploadHas(uploads, id)
    ensures s in uploads && uploads[s].id == id
  {
    var s :| s in uploads && uploads[s].id == id;
    s
  }

  function TrimPrefix(s: string, prefix: string): (r: string)
    ensures s == prefix + r || (s == r && !(prefix <= s))
  {
    if prefix <= s then s[|prefix|..] else s
  }
  function ObjectId(uploadId: Id): Id { "obj_" + TrimPrefix(uploadId, "obj_") }

  // ---------- Transactions ----------

  ghost function ReserveRefusal(t: Tables, c: Limits, slot: Slot, q: Request): Option<Error> {
    var b := slot.bucket;
    if b !in t.buckets then Some(NoRows)
    else if b in t.deletions then Some(BucketDeleting)
    else if Pending(t, b) >= c.maxPending then Some(PendingLimit)
    else if !HasReady(t.objects, slot) && ReadyObjects(t, b) >= c.maxObjects then Some(ObjectLimit)
    else if !t.buckets[b].unlimited && Used(t, b) + Reserved(t, b) + Growth(t.objects, slot, q.size) > t.buckets[b].quota
    then Some(BucketQuota)
    else if q.source != "" && (q.source !in t.sources || !t.sources[q.source].enabled) then Some(NoRows)
    else if q.source != "" && !t.sources[q.source].unlimited
            && SourceUsed(t, q.source) + SourceReserved(t, q.source) + SourceGrowth(t.objects, slot, q.size, q.source)
               > t.sources[q.source].capacity
    then Some(SourceCapacity)
    else if slot in t.uploads || UploadHas(t.uploads, q.id) || UploadPhysical(t.uploads, q.physical) || q.id in t.grants
    then Some(Constraint)
    else None
  }

  function Reservation(objects: map<Slot, Object>, slot: Slot, q: Request): Upload {
    Upload(q.id, q.source, q.physical, q.size, Growth(objects, slot, q.size), SourceGrowth(objects, slot, q.size, q.source), q.expires)
  }

  ghost function ReserveObject(t: Tables, c: Limits, slot: Slot, q: Request): Outcome {
    var refusal := ReserveRefusal(t, c, slot, q);
    if refusal.Some? then Refused(refusal.value)
    else Done(t.(
      uploads := t.uploads[slot := Reservation(t.objects, slot, q)],
      grants := t.grants[q.id := Grant(slot.bucket, q.expires)]))
  }

  predicate UploadPhysical(uploads: map<Slot, Upload>, physical: string) {
    exists s :: s in uploads && uploads[s].physical == physical
  }
  /** Some row other than the one at `slot` already has this id or this physical key. */
  predicate ObjectClash(objects: map<Slot, Object>, slot: Slot, id: Id, physical: string) {
    exists s :: s in objects && s != slot && (objects[s].id == id || objects[s].physical == physical)
  }

  ghost function CancelUpload(t: Tables, id: Id): Outcome {
    if !UploadHas(t.uploads, id) then Refused(NoRows)
    else Done(t.(uploads := t.uploads - {UploadSlot(t.uploads, id)}))
  }

  /** The row a commit writes over `old`, the row at its slot if there is one. */
  function Promoted(objects: map<Slot, Object>, slot: Slot, u: Upload, physical: string, actual: nat): Object {
    if slot in objects then
      var next := objects[slot].generation + 1;
      Object(objects[slot].id, u.source, physical, actual, true, if next < 1 then 1 else next)
    else Object(ObjectId(u.id), u.source, physical, actual, true, 1)
  }

  function CommitRefusal(t: Tables, slot: Slot, id: Id, physical: string): Option<Error> {
    if slot.bucket !in t.buckets then Some(NoRows)
    else if slot.bucket in t.deletions then Some(BucketDeleting)
    else if slot !in t.uploads || t.uploads[slot].id != id then Some(NoRows)
    else if ObjectClash(t.objects, slot, Promoted(t.objects, slot, t.uploads[slot], physical, 0).id, physical) then Some(Constraint)
    else None
  }

  function CommitUpload(t: Tables, slot: Slot, id: Id, physical: string, actual: nat): Outcome {
    var refusal := CommitRefusal(t, slot, id, physical);
    if refusal.Some? then Refused(refusal.value)
    else Done(t.(
      objects := t.objects[slot := Promoted(t.objects, slot, t.uploads[slot], physical, actual)],
      uploads := t.uploads - {slot}))
  }

  function LinksBut(links: map<string, Link>, ids: set<Id>): map<string, Link> {
    map s | s in links && links[s].target !in ids :: links[s]
  }

  ghost function DeleteObject(t: Tables, id: Id): Outcome {
    if !ObjectHas(t.objects, id) then Refused(NoRows)
    else Done(t.(objects := t.objects - {ObjectSlot(t.objects, id)}, links := LinksBut(t.links, {id})))
  }

  /** An UPDATE by id: it changes nothing, and succeeds, when there is no such row. */
  ghost function RotatePhysicalKey(t: Tables, id: Id, physical: string, generation: int): Outcome {
    if !ObjectHas(t.objects, id) then Done(t)
    else
      var slot := ObjectSlot(t.objects, id);
      if ObjectClash(t.objects, slot, id, physical) then Refused(Constraint)
      else Done(t.(objects := t.objects[slot := t.objects[slot].(physical := physical, generation := generation)]))
  }

  ghost function CreateBucket(t: Tables, c: Limits, id: Id, b: Bucket, primaryUnlimited: bool): Outcome {
    if b.unlimited && !primaryUnlimited then Refused(NeedsUnlimitedPrimary)
    else if !b.unlimited && b.quota <= 0 then Refused(BadQuota)
    else if !b.unlimited && Sum(t.buckets, Quotas()) + b.quota > c.totalQuota then Refused(TotalQuota)
    else if id in t.buckets then Refused(Constraint)
    else Done(t.(buckets := t.buckets[id := b]))
  }

  ghost function UpdateBucket(t: Tables, c: Limits, id: Id, b: Bucket, primaryUnlimited: bool): Outcome {
    if b.unlimited && !primaryUnlimited then Refused(NeedsUnlimitedPrimary)
    else if !b.unlimited && b.quota <= 0 then Refused(BadQuota)
    else if id !in t.buckets then Refused(NoRows)
    else if id in t.deletions then Refused(BucketDeleting)
    else if !b.unlimited && b.quota < Used(t, id) + Reserved(t, id) then Refused(QuotaBelowUse)
    else if !b.unlimited && Sum(t.buckets, QuotasBut(id)) + b.quota > c.totalQuota then Refused(TotalQuota)
    else Done(t.(buckets := t.buckets[id := b]))
  }

  /** Adding a source, with the capacity check made before it reaches the database. */
  function AddSource(t: Tables, id: SourceId, s: Source): Outcome {
    if !s.unlimited && s.capacity <= 0 then Refused(BadCapacity)
    else if id in t.sources then Refused(Constraint)
    else Done(t.(sources := t.sources[id := s]))
  }

  ghost function UpdateSource(t: Tables, id: SourceId, s: Source): Outcome {
    if id !in t.sources then Refused(NoRows)
    else if !s.unlimited && s.capacity <= 0 then Refused(BadCapacity)
    else if !s.unlimited && s.capacity < SourceUsed(t, id) + SourceReserved(t, id) then Refused(CapacityBelowUse)
    else Done(t.(sources := t.sources[id := s]))
  }

  function ConfirmationsBut(cs: map<string, Confirmation>, b: Id): map<string, Confirmation> {
    map h | h in cs && cs[h].bucket != b :: cs[h]
  }

  /** Preparing a deletion is two statements, not one transaction: expired tokens go first. */
  function ExpireConfirmations(t: Tables, now: int): Outcome {
    Done(t.(confirmations := map h | h in t.confirmations && t.confirmations[h].expiresAt >= now :: t.confirmations[h]))
  }
  function PrepareDeletion(t: Tables, b: Id, hash: string, readyAt: int, expiresAt: int): Outcome {
    if hash in t.confirmations || b !in t.buckets then Refused(Constraint)
    else Done(t.(confirmations := t.confirmations[hash := Confirmation(b, readyAt, expiresAt)]))
  }

  /** Sweeping may not finish before `a`: now, or a minute after the last upload grant ends. */
  ghost predicate IsDeadline(grants: map<Id, Grant>, b: Id, now: int, a: int) {
    && now <= a
    && (forall g :: g in grants && grants[g].bucket == b ==> grants[g].expires + MINUTE <= a)
    && (a == now || exists g :: g in grants && grants[g].bucket == b && grants[g].expires + MINUTE == a)
  }
  ghost function Deadline(grants: map<Id, Grant>, b: Id, now: int): (a: int)
    ensures IsDeadline(grants, b, now, a)
    decreases |grants|
  {
    if grants == map[] then now
    else
      var g := Pick(grants);
      assert (grants - {g}).Keys == grants.Keys - {g};
      var rest := Deadline(grants - {g}, b, now);
      assert forall h :: h in grants ==> h == g || h in grants - {g};
      if grants[g].bucket == b && rest < grants[g].expires + MINUTE then grants[g].expires + MINUTE else rest
  }

  function BucketObjectIds(objects: map<Slot, Object>, b: Id): set<Id> {
    set s | s in objects && s.bucket == b :: objects[s].id
  }
  function RevokeAll(links: map<string, Link>, ids: set<Id>): map<string, Link> {
    map s | s in links :: if links[s].target in ids then links[s].(revoked := true) else links[s]
  }

  ghost function BeginBucketDeletion(t: Tables, now: int, b: Id, hash: string): Outcome {
    if b in t.deletions then Done(t)
    else if hash !in t.confirmations || t.confirmations[hash].bucket != b then Refused(ConfirmationInvalid)
    else if now < t.confirmations[hash].readyAt then Refused(ConfirmationEarly)
    else if now >= t.confirmations[hash].expiresAt then Refused(ConfirmationExpired)
    else Done(t.(
      confirmations := ConfirmationsBut(t.confirmations, b),
      deletions := t.deletions[b := Deletion(now, Deadline(t.grants, b, now))],
      links := RevokeAll(t.links, BucketObjectIds(t.objects, b))))
  }

  function ObjectSlots(objects: map<Slot, Object>, b: Id): set<Slot> { set s | s in objects && s.bucket == b }
  function UploadSlots(uploads: map<Slot, Upload>, b: Id): set<Slot> { set s | s in uploads && s.bucket == b }
  function GrantsBut(grants: map<Id, Grant>, b: Id): map<Id, Grant> {
    map g | g in grants && grants[g].bucket != b :: grants[g]
  }

  function FinishBucketDeletion(t: Tables, now: int, b: Id): Outcome {
    if b !in t.deletions then Refused(NoRows)
    else if now < t.deletions[b].cleanupAfter then Refused(GrantsLive)
    else Done(Tables(
      t.buckets - {b},
      t.sources,
      t.objects - ObjectSlots(t.objects, b),
      t.uploads - UploadSlots(t.uploads, b),
      GrantsBut(t.grants, b),
      LinksBut(t.links, BucketObjectIds(t.objects, b)),
      t.deletions - {b},
      ConfirmationsBut(t.confirmations, b),
      if b in t.tombstones then t.tombstones
      else t.tombstones[b := Tombstone(now + LATE_TRANSFER_WINDOW, now + SWEEP_INTERVAL)]))
  }

  function PruneUploadGrants(t: Tables, now: int): Outcome {
    Done(t.(grants := map g | g in t.grants && !(t.grants[g].expires < now - MINUTE && t.grants[g].bucket !in t.deletions) :: t.grants[g]))
  }
  function ForgetUploadGrant(t: Tables, id: Id): Outcome {
    Done(t.(grants := t.grants - {id}))
  }

  function CreatePublicLink(t: Tables, slug: string, target: Id, expires: Option<int>): Outcome {
    if slug in t.links || !ObjectHas(t.objects, target) then Refused(Constraint)
    else Done(t.(links := t.links[slug := Link(target, expires, false)]))
  }
  function RevokePublicLink(t: Tables, b: Id, slug: string): Outcome {
    if slug in t.links && t.links[slug].target in BucketObjectIds(t.objects, b)
    then Done(t.(links := t.links[slug := t.links[slug].(revoked := true)]))
    else Refused(NoRows)
  }

  // ---------- Runs ----------

  datatype Op =
    | Reserve(slot: Slot, request: Request)
    | Cancel(id: Id)
    | Commit(slot: Slot, id: Id, physical: string, actual: nat)
    | Delete(id: Id)
    | Rotate(id: Id, physical: string, generation: int)
    | NewBucket(id: Id, bucket: Bucket, primaryUnlimited: bool)
    | EditBucket(id: Id, bucket: Bucket, primaryUnlimited: bool)
    | NewSource(sid: SourceId, source: Source)
    | EditSource(sid: SourceId, source: Source)
    | Expire(now: int)
    | Prepare(id: Id, hash: string, readyAt: int, expiresAt: int)
    | Begin(now: int, id: Id, hash: string)
    | Finish(now: int, id: Id)
    | Prune(now: int)
    | Forget(id: Id)
    | Publish(slug: string, id: Id, expires: Option<int>)
    | Revoke(id: Id, slug: string)

  ghost function Apply(t: Tables, c: Limits, op: Op): Outcome {
    match op
    case Reserve(slot, q) => ReserveObject(t, c, slot, q)
    case Cancel(id) => CancelUpload(t, id)
    case Commit(slot, id, physical, actual) => CommitUpload(t, slot, id, physical, actual)
    case Delete(id) => DeleteObject(t, id)
    case Rotate(id, physical, generation) => RotatePhysicalKey(t, id, physical, generation)
    case NewBucket(id, b, pu) => CreateBucket(t, c, id, b, pu)
    case EditBucket(id, b, pu) => UpdateBucket(t, c, id, b, pu)
    case NewSource(id, s) => AddSource(t, id, s)
    case EditSource(id, s) => UpdateSource(t, id, s)
    case Expire(now) => ExpireConfirmations(t, now)
    case Prepare(id, hash, r, e) => PrepareDeletion(t, id, hash, r, e)
    case Begin(now, id, hash) => BeginBucketDeletion(t, now, id, hash)
    case Finish(now, id) => FinishBucketDeletion(t, now, id)
    case Prune(now) => PruneUploadGrants(t, now)
    case Forget(id) => ForgetUploadGrant(t, id)
    case Publish(slug, id, e) => CreatePublicLink(t, slug, id, e)
    case Revoke(id, slug) => RevokePublicLink(t, id, slug)
  }

  function After(t: Tables, r: Outcome): Tables {
    match r case Done(t') => t' case Refused(_) => t
  }
  function Reply(r: Outcome): Option<Error> {
    match r case Done(_) => None case Refused(e) => Some(e)
  }
  ghost function Next(t: Tables, c: Limits, op: Op): Tables { After(t, Apply(t, c, op)) }

  ghost function Run(t: Tables, c: Limits, ops: seq<Op>): Tables
    decreases ops
  {
    if ops == [] then t else Run(Next(t, c, ops[0]), c, ops[1..])
  }

  // ---------- What every run keeps ----------

  ghost predicate ObjectsFit(buckets: map<Id, Bucket>, sources: map<Id, Source>, objects: map<Slot, Object>) {
    forall s :: s in objects ==> s.bucket in buckets && objects[s].ready && (objects[s].source == "" || objects[s].source in sources)
  }
  ghost predicate ObjectsDistinct(objects: map<Slot, Object>) {
    forall s, s' :: s in objects && s' in objects && s != s' ==>
      objects[s].id != objects[s'].id && objects[s].physical != objects[s'].physical
  }
  ghost predicate UploadsFit(buckets: map<Id, Bucket>, sources: map<Id, Source>, uploads: map<Slot, Upload>) {
    forall s :: s in uploads ==>
      s.bucket in buckets && (uploads[s].source == "" || uploads[s].source in sources)
      && uploads[s].reserved <= uploads[s].size && uploads[s].sourceReserved <= uploads[s].size
  }
  ghost predicate UploadsDistinct(uploads: map<Slot, Upload>) {
    forall s, s' :: s in uploads && s' in uploads && s != s' ==>
      uploads[s].id != uploads[s'].id && uploads[s].physical != uploads[s'].physical
  }
  ghost predicate LinksFit(objects: map<Slot, Object>, links: map<string, Link>) {
    forall s :: s in links ==> ObjectHas(objects, links[s].target)
  }
  ghost predicate DeletionsFit(t: Tables) {
    && t.deletions.Keys <= t.buckets.Keys
    && (forall g :: g in t.grants ==> t.grants[g].bucket in t.buckets)
    && (forall h :: h in t.confirmations ==> t.confirmations[h].bucket in t.buckets)
  }

  /** Every object and upload belongs to an existing bucket and source, every reference has
      its target, the unique columns are unique, and every object row is ready. */
  ghost predicate WellFormed(t: Tables) {
    && "" !in t.sources
    && ObjectsFit(t.buckets, t.sources, t.objects) && ObjectsDistinct(t.objects)
    && UploadsFit(t.buckets, t.sources, t.uploads) && UploadsDistinct(t.uploads)
    && LinksFit(t.objects, t.links) && DeletionsFit(t)
  }

  lemma PutObject(buckets: map<Id, Bucket>, sources: map<Id, Source>, objects: map<Slot, Object>,
                  links: map<string, Link>, slot: Slot, row: Object)
    requires ObjectsFit(buckets, sources, objects) && ObjectsDistinct(objects) && LinksFit(objects, links)
    requires slot.bucket in buckets && row.ready && (row.source == "" || row.source in sources)
    requires !ObjectClash(objects, slot, row.id, row.physical)
    requires slot in objects ==> objects[slot].id == row.id
    ensures ObjectsFit(buckets, sources, objects[slot := row]) && ObjectsDistinct(objects[slot := row])
    ensures LinksFit(objects[slot := row], links)
  {
    var objects' := objects[slot := row];
    forall l | l in links ensures ObjectHas(objects', links[l].target) {
      var s := ObjectSlot(objects, links[l].target);
      assert s in objects' && objects'[s].id == objects[s].id;
    }
  }

  lemma DropObjects(buckets: map<Id, Bucket>, sources: map<Id, Source>, objects: map<Slot, Object>,
                    links: map<string, Link>, gone: set<Slot>)
    requires ObjectsFit(buckets, sources, objects) && ObjectsDistinct(objects) && LinksFit(objects, links)
    requires gone <= objects.Keys
    ensures ObjectsFit(buckets, sources, objects - gone) && ObjectsDistinct(objects - gone)
    ensures LinksFit(objects - gone, LinksBut(links, set s | s in gone :: objects[s].id))
  {
    forall l | l in LinksBut(links, set s | s in gone :: objects[s].id) ensures ObjectHas(objects - gone, links[l].target) {
      var s := ObjectSlot(objects, links[l].target);
      assert s in objects - gone;
    }
  }

  lemma CommitKeepsWellFormed(t: Tables, slot: Slot, id: Id, physical: string, actual: nat)
    requires WellFormed(t)
    ensures WellFormed(After(t, CommitUpload(t, slot, id, physical, actual)))
  {
    if CommitUpload(t, slot, id, physical, actual).Done? {
      PutObject(t.buckets, t.sources, t.objects, t.links, slot, Promoted(t.objects, slot, t.uploads[slot], physical, actual));
    }
  }

  /** A commit goes through exactly for a pending upload of an active bucket whose new row
      clashes with no other: an object that is replaced keeps its id, a new one takes the
      upload's. */
  lemma CommitGoesIff(t: Tables, slot: Slot, id: Id, physical: string, actual: nat)
    requires WellFormed(t)
    ensures CommitUpload(t, slot, id, physical, actual).Done? <==>
      && slot.bucket in t.buckets && slot.bucket !in t.deletions
      && slot in t.uploads && t.uploads[slot].id == id
      && (forall s :: s in t.objects && s != slot ==> t.objects[s].physical != physical)
      && (slot in t.objects || forall s :: s in t.objects ==> t.objects[s].id != ObjectId(id))
  {
    hide UploadsFit, UploadsDistinct, LinksFit, DeletionsFit, ObjectId;
  }
  /** What it writes: the object of the upload, with the id and a later generation of the one
      it replaces if there is one. */
  lemma CommitWrites(t: Tables, slot: Slot, id: Id, physical: string, actual: nat)
    requires CommitUpload(t, slot, id, physical, actual).Done?
    ensures var t' := CommitUpload(t, slot, id, physical, actual).tables;
      && t' == t.(objects := t'.objects, uploads := t'.uploads)
      && (forall s :: s != slot ==> (s in t'.objects <==> s in t.objects) && (s in t.objects ==> t'.objects[s] == t.objects[s]))
      && (forall s :: s in t'.uploads <==> s in t.uploads && s != slot)
      && (forall s :: s in t'.uploads ==> t'.uploads[s] == t.uploads[s])
      && slot in t.uploads && slot in t'.objects
      && var row := t'.objects[slot];
         && row.source == t.uploads[slot].source && row.physical == physical && row.size == actual && row.ready && 1 <= row.generation
         && (slot in t.objects ==> row.id == t.objects[slot].id && t.objects[slot].generation < row.generation)
         && (slot in t.objects && 0 <= t.objects[slot].generation ==> row.generation == t.objects[slot].generation + 1)
         && (slot !in t.objects ==> row.id == ObjectId(id) && row.generation == 1)
  {
    hide ObjectClash, ObjectId;
  }
  /** An upload is let in exactly if its bucket is active and has room for it under each limit,
      its source is enabled and has room for what it adds there, and it is new. */
  lemma ReservationGoesIff(t: Tables, c: Limits, slot: Slot, q: Request)
    ensures var b := slot.bucket;
      var had := if slot in t.objects && t.objects[slot].ready then t.objects[slot].size else 0;
      var here := slot in t.objects && t.objects[slot].ready && t.objects[slot].source == q.source;
      var growth := if q.size <= had then 0 else q.size - had;
      ReserveObject(t, c, slot, q).Done? <==>
        && b in t.buckets && b !in t.deletions && Pending(t, b) < c.maxPending
        && ((slot in t.objects && t.objects[slot].ready) || ReadyObjects(t, b) < c.maxObjects)
        && (t.buckets[b].unlimited || Used(t, b) + Reserved(t, b) + growth <= t.buckets[b].quota)
        && (q.source == "" ||
              (q.source in t.sources && t.sources[q.source].enabled &&
               (t.sources[q.source].unlimited ||
                SourceUsed(t, q.source) + SourceReserved(t, q.source) + (if here then growth else q.size) <= t.sources[q.source].capacity)))
        && (forall s :: s in t.uploads ==> s != slot && t.uploads[s].id != q.id && t.uploads[s].physical != q.physical)
        && q.id !in t.grants
  {
    hide Used, Reserved, SourceUsed, SourceReserved, Pending, ReadyObjects, Reservation;
  }

  /** What is written then: an upload that holds what it adds, and its grant. */
  lemma ReservationWrites(t: Tables, c: Limits, slot: Slot, q: Request)
    requires ReserveObject(t, c, slot, q).Done?
    ensures var t' := ReserveObject(t, c, slot, q).tables;
      var had := if slot in t.objects && t.objects[slot].ready then t.objects[slot].size else 0;
      var here := slot in t.objects && t.objects[slot].ready && t.objects[slot].source == q.source;
      var growth := if q.size <= had then 0 else q.size - had;
      t' == t.(
        uploads := t.uploads[slot := Upload(q.id, q.source, q.physical, q.size, growth, if here then growth else q.size, q.expires)],
        grants := t.grants[q.id := Grant(slot.bucket, q.expires)])
  {
    hide ReserveRefusal;
  }

  lemma DeleteKeepsWellFormed(t: Tables, id: Id)
    requires WellFormed(t)
    ensures WellFormed(After(t, DeleteObject(t, id)))
  {
    hide ObjectsFit, ObjectsDistinct, UploadsFit, UploadsDistinct, LinksFit, LinksBut;
    if ObjectHas(t.objects, id) {
      var gone := {ObjectSlot(t.objects, id)};
      DropObjects(t.buckets, t.sources, t.objects, t.links, gone);
      assert (set s | s in gone :: t.objects[s].id) == {id};
    }
  }

  lemma RotateKeepsWellFormed(t: Tables, id: Id, physical: string, generation: int)
    requires WellFormed(t)
    ensures WellFormed(After(t, RotatePhysicalKey(t, id, physical, generation)))
  {
    if RotatePhysicalKey(t, id, physical, generation).Done? && ObjectHas(t.objects, id) {
      var slot := ObjectSlot(t.objects, id);
      PutObject(t.buckets, t.sources, t.objects, t.links, slot, t.objects[slot].(physical := physical, generation := generation));
    }
  }

  lemma FinishObjects(t: Tables, b: Id)
    requires WellFormed(t)
    ensures var objects := t.objects - ObjectSlots(t.objects, b);
      ObjectsDistinct(objects) && LinksFit(objects, LinksBut(t.links, BucketObjectIds(t.objects, b)))
  {
    hide ObjectsFit, ObjectsDistinct, LinksFit, LinksBut, UploadsFit, UploadsDistinct, DeletionsFit;
    var gone := ObjectSlots(t.objects, b);
    DropObjects(t.buckets, t.sources, t.objects, t.links, gone);
    assert (set s | s in gone :: t.objects[s].id) == BucketObjectIds(t.objects, b);
  }
  lemma FinishRows(t: Tables, b: Id)
    requires WellFormed(t)
    ensures ObjectsFit(t.buckets - {b}, t.sources, t.objects - ObjectSlots(t.objects, b))
    ensures UploadsFit(t.buckets - {b}, t.sources, t.uploads - UploadSlots(t.uploads, b))
    ensures UploadsDistinct(t.uploads - UploadSlots(t.uploads, b))
  {
    hide ObjectsDistinct, LinksFit, DeletionsFit;
  }
  lemma FinishKeepsWellFormed(t: Tables, now: int, b: Id)
    requires WellFormed(t)
    ensures WellFormed(After(t, FinishBucketDeletion(t, now, b)))
  {
    hide ObjectsFit, ObjectsDistinct, UploadsFit, UploadsDistinct, LinksFit, LinksBut, BucketObjectIds, ObjectSlots, UploadSlots;
    FinishObjects(t, b);
    FinishRows(t, b);
  }

  lemma PutUpload(buckets: map<Id, Bucket>, sources: map<Id, Source>, uploads: map<Slot, Upload>, slot: Slot, row: Upload)
    requires UploadsFit(buckets, sources, uploads) && UploadsDistinct(uploads)
    requires slot.bucket in buckets && (row.source == "" || row.source in sources)
    requires row.reserved <= row.size && row.sourceReserved <= row.size
    requires slot !in uploads && !UploadHas(uploads, row.id) && !UploadPhysical(uploads, row.physical)
    ensures UploadsFit(buckets, sources, uploads[slot := row]) && UploadsDistinct(uploads[slot := row])
  {
  }

  lemma ReserveKeepsWellFormed(t: Tables, c: Limits, slot: Slot, q: Request)
    requires WellFormed(t)
    ensures WellFormed(After(t, ReserveObject(t, c, slot, q)))
  {
    var r := ReserveObject(t, c, slot, q);
    if r.Done? {
      PutUpload(t.buckets, t.sources, t.uploads, slot, r.tables.uploads[slot]);
    }
  }

  lemma CancelKeepsWellFormed(t: Tables, id: Id)
    requires WellFormed(t)
    ensures WellFormed(After(t, CancelUpload(t, id)))
  {
  }

  lemma BucketsGrow(t: Tables, id: Id, b: Bucket)
    requires WellFormed(t)
    ensures WellFormed(t.(buckets := t.buckets[id := b]))
  {
  }

  lemma SourcesGrow(t: Tables, id: SourceId, s: Source)
    requires WellFormed(t)
    ensures WellFormed(t.(sources := t.sources[id := s]))
  {
  }

  lemma GrantsShrink(t: Tables, op: Op, c: Limits)
    requires WellFormed(t)
    requires op.Prune? || op.Forget?
    ensures WellFormed(Next(t, c, op))
  {
  }

  lemma PrepareKeepsWellFormed(t: Tables, c: Limits, op: Op)
    requires WellFormed(t) && (op.Expire? || op.Prepare?)
    ensures WellFormed(Next(t, c, op))
  {
    hide ObjectsFit, ObjectsDistinct, UploadsFit, UploadsDistinct, LinksFit;
  }
  lemma BeginKeepsWellFormed(t: Tables, now: int, b: Id, hash: string)
    requires WellFormed(t)
    ensures WellFormed(After(t, BeginBucketDeletion(t, now, b, hash)))
  {
    hide ObjectsFit, ObjectsDistinct, UploadsFit, UploadsDistinct;
  }

  lemma LinkPut(t: Tables, slug: string, link: Link)
    requires WellFormed(t) && ObjectHas(t.objects, link.target)
    ensures WellFormed(t.(links := t.links[slug := link]))
  {
    assert LinksFit(t.objects, t.links[slug := link]);
  }

  lemma RevokeKeepsWellFormed(t: Tables, b: Id, slug: string)
    requires WellFormed(t)
    ensures WellFormed(After(t, RevokePublicLink(t, b, slug)))
  {
    if RevokePublicLink(t, b, slug).Done? {
      LinkPut(t, slug, t.links[slug].(revoked := true));
    }
  }

  lemma PublishKeepsWellFormed(t: Tables, slug: string, id: Id, expires: Option<int>)
    requires WellFormed(t)
    ensures WellFormed(After(t, CreatePublicLink(t, slug, id, expires)))
  {
    if ObjectHas(t.objects, id) { LinkPut(t, slug, Link(id, expires, false)); }
  }
  lemma AdminKeepsWellFormed(t: Tables, c: Limits, op: Op)
    requires WellFormed(t) && (op.NewBucket? || op.EditBucket? || op.NewSource? || op.EditSource?)
    ensures WellFormed(Next(t, c, op))
  {
    hide WellFormed, Used, Reserved, SourceUsed, SourceReserved;
    if op.NewBucket? || op.EditBucket? { BucketsGrow(t, op.id, op.bucket); } else { SourcesGrow(t, op.sid, op.source); }
  }

  lemma StepKeepsWellFormed(t: Tables, c: Limits, op: Op)
    requires WellFormed(t)
    ensures WellFormed(Next(t, c, op))
  {
    hide WellFormed, ReserveObject, CancelUpload, CommitUpload, DeleteObject, RotatePhysicalKey, FinishBucketDeletion;
    match op
    case Commit(slot, id, physical, actual) => CommitKeepsWellFormed(t, slot, id, physical, actual);
    case Delete(id) => DeleteKeepsWellFormed(t, id);
    case Rotate(id, physical, generation) => RotateKeepsWellFormed(t, id, physical, generation);
    case Finish(now, id) => FinishKeepsWellFormed(t, now, id);
    case Reserve(slot, q) => ReserveKeepsWellFormed(t, c, slot, q);
    case Cancel(id) => CancelKeepsWellFormed(t, id);
    case NewBucket(_, _, _) => AdminKeepsWellFormed(t, c, op);
    case EditBucket(_, _, _) => AdminKeepsWellFormed(t, c, op);
    case NewSource(_, _) => AdminKeepsWellFormed(t, c, op);
    case EditSource(_, _) => AdminKeepsWellFormed(t, c, op);
    case Expire(_) => PrepareKeepsWellFormed(t, c, op);
    case Prepare(_, _, _, _) => PrepareKeepsWellFormed(t, c, op);
    case Begin(now, id, hash) => BeginKeepsWellFormed(t, now, id, hash);
    case Prune(_) => GrantsShrink(t, op, c);
    case Forget(_) => GrantsShrink(t, op, c);
    case Publish(slug, id, e) => PublishKeepsWellFormed(t, slug, id, e);
    case Revoke(id, slug) => RevokeKeepsWellFormed(t, id, slug);
  }

  lemma {:induction false} RunKeepsWellFormed(t: Tables, c: Limits, ops: seq<Op>)
    requires WellFormed(t)
    ensures WellFormed(Run(t, c, ops))
    decreases ops
  {
    if ops != [] {
      StepKeepsWellFormed(t, c, ops[0]);
      RunKeepsWellFormed(Next(t, c, ops[0]), c, ops[1..]);
    }
  }
}

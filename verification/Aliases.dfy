/**
 Public aliases. A link names an object id; replacing or rotating the object keeps that id
 and its place in the bucket, deleting the object deletes its links with it.
 */
module Aliases {
  import opened Ledger

  /** The place of the object a visit to the alias is redirected to, if it resolves at all. */
  ghost function PublicObject(t: Tables, now: int, slug: string): Option<Slot> {
    if slug !in t.links || t.links[slug].revoked || !ObjectHas(t.objects, t.links[slug].target) then None
    else
      var slot := ObjectSlot(t.objects, t.links[slug].target);
      if slot.bucket !in t.buckets || !t.buckets[slot.bucket].public || slot.bucket in t.deletions then None
      else if t.links[slug].expires.Some? && now > t.links[slug].expires.value then None
      else Some(slot)
  }

  predicate Publishes(ops: seq<Op>, slug: string) {
    exists i :: 0 <= i < |ops| && ops[i].Publish? && ops[i].slug == slug
  }

  /** The alias, while it exists, leads to the object with this id at this place. */
  ghost predicate Leads(t: Tables, slug: string, id: Id, slot: Slot) {
    slug in t.links ==> t.links[slug].target == id && slot in t.objects && t.objects[slot].id == id
  }
  ghost predicate Dead(t: Tables, slug: string) {
    slug in t.links ==> t.links[slug].revoked
  }

  lemma LeadsDelete(t: Tables, id': Id, slug: string, id: Id, slot: Slot)
    requires WellFormed(t) && Leads(t, slug, id, slot)
    ensures Leads(After(t, DeleteObject(t, id')), slug, id, slot)
  {
    if ObjectHas(t.objects, id') && slug in t.links {
      assert id' == id || ObjectSlot(t.objects, id') != slot;
    }
  }

  lemma LeadsFinish(t: Tables, now: int, b: Id, slug: string, id: Id, slot: Slot)
    requires Leads(t, slug, id, slot)
    ensures Leads(After(t, FinishBucketDeletion(t, now, b)), slug, id, slot)
  {
  }

  lemma LeadsKept(t: Tables, c: Limits, op: Op, slug: string, id: Id, slot: Slot)
    requires WellFormed(t) && Leads(t, slug, id, slot) && !(op.Publish? && op.slug == slug)
    ensures Leads(Next(t, c, op), slug, id, slot)
  {
    if op.Delete? {
      LeadsDelete(t, op.id, slug, id, slot);
    } else if op.Finish? {
      LeadsFinish(t, op.now, op.id, slug, id, slot);
    } else {
      LeadsOther(t, c, op, slug, id, slot);
    }
  }
  lemma LeadsOther(t: Tables, c: Limits, op: Op, slug: string, id: Id, slot: Slot)
    requires Leads(t, slug, id, slot) && !op.Delete? && !op.Finish? && !(op.Publish? && op.slug == slug)
    ensures Leads(Next(t, c, op), slug, id, slot)
  {
    hide Used, Reserved, SourceUsed, SourceReserved, Deadline, Reservation, ReserveRefusal;
  }

  lemma DeadKept(t: Tables, c: Limits, op: Op, slug: string)
    requires Dead(t, slug) && !(op.Publish? && op.slug == slug)
    ensures Dead(Next(t, c, op), slug)
  {
  }

  lemma {:induction false} LeadsThroughout(t: Tables, c: Limits, ops: seq<Op>, slug: string, id: Id, slot: Slot)
    requires WellFormed(t) && Leads(t, slug, id, slot) && !Publishes(ops, slug)
    ensures Leads(Run(t, c, ops), slug, id, slot) && WellFormed(Run(t, c, ops))
    decreases ops
  {
    if ops != [] {
      assert !(ops[0].Publish? && ops[0].slug == slug);
      assert forall i :: 0 <= i < |ops[1..]| ==> ops[1..][i] == ops[i + 1];
      StepKeepsWellFormed(t, c, ops[0]);
      LeadsKept(t, c, ops[0], slug, id, slot);
      LeadsThroughout(Next(t, c, ops[0]), c, ops[1..], slug, id, slot);
    }
  }

  lemma {:induction false} DeadForever(t: Tables, c: Limits, ops: seq<Op>, now: int, slug: string)
    requires Dead(t, slug) && !Publishes(ops, slug)
    ensures PublicObject(Run(t, c, ops), now, slug) == None
    decreases ops
  {
    if ops != [] {
      assert !(ops[0].Publish? && ops[0].slug == slug);
      assert forall i :: 0 <= i < |ops[1..]| ==> ops[1..][i] == ops[i + 1];
      DeadKept(t, c, ops[0], slug);
      DeadForever(Next(t, c, ops[0]), c, ops[1..], now, slug);
    }
  }

  // ---------- Which links stay ----------

  /** The transaction deletes the object the link names, or its whole bucket. */
  ghost predicate Removes(t: Tables, op: Op, target: Id)
    requires ObjectHas(t.objects, target)
  {
    || (op.Delete? && op.id == target)
    || (op.Finish? && FinishBucketDeletion(t, op.now, op.id).Done? && op.id == ObjectSlot(t.objects, target).bucket)
  }
  /** It takes the link back, or begins the deletion of its bucket. */
  ghost predicate Revokes(t: Tables, op: Op, slug: string, target: Id)
    requires ObjectHas(t.objects, target)
  {
    || (op.Revoke? && op.slug == slug && op.id == ObjectSlot(t.objects, target).bucket)
    || (op.Begin? && op.id !in t.deletions && BeginBucketDeletion(t, op.now, op.id, op.hash).Done?
        && op.id == ObjectSlot(t.objects, target).bucket)
  }

  lemma InBucketIff(objects: map<Slot, Object>, target: Id, b: Id)
    requires ObjectsDistinct(objects) && ObjectHas(objects, target)
    ensures target in BucketObjectIds(objects, b) <==> ObjectSlot(objects, target).bucket == b
  {
  }
  lemma DeleteLinks(t: Tables, id: Id, slug: string)
    requires WellFormed(t) && slug in t.links
    ensures var links := After(t, DeleteObject(t, id)).links;
      (slug in links <==> t.links[slug].target != id) && (slug in links ==> links[slug] == t.links[slug])
  {
    assert ObjectHas(t.objects, t.links[slug].target);
  }
  lemma FinishLinks(t: Tables, now: int, b: Id, slug: string)
    requires WellFormed(t) && slug in t.links
    ensures var links := After(t, FinishBucketDeletion(t, now, b)).links;
      && (slug in links <==> !(FinishBucketDeletion(t, now, b).Done? && ObjectSlot(t.objects, t.links[slug].target).bucket == b))
      && (slug in links ==> links[slug] == t.links[slug])
  {
    hide ConfirmationsBut, GrantsBut, ObjectSlots, UploadSlots;
    assert ObjectHas(t.objects, t.links[slug].target);
    InBucketIff(t.objects, t.links[slug].target, b);
  }
  lemma BeginLinks(t: Tables, now: int, b: Id, hash: string, slug: string)
    requires WellFormed(t) && slug in t.links
    ensures var links := After(t, BeginBucketDeletion(t, now, b, hash)).links;
      slug in links && links[slug] == t.links[slug].(revoked := t.links[slug].revoked || Revokes(t, Op.Begin(now, b, hash), slug, t.links[slug].target))
  {
    hide Deadline, ConfirmationsBut;
    assert ObjectHas(t.objects, t.links[slug].target);
    InBucketIff(t.objects, t.links[slug].target, b);
  }
  /** Only a link to an object of the given bucket can be revoked. */
  lemma RevokeIff(t: Tables, b: Id, slug: string)
    requires WellFormed(t)
    ensures RevokePublicLink(t, b, slug).Done? <==> slug in t.links && ObjectSlot(t.objects, t.links[slug].target).bucket == b
  {
    if slug in t.links { InBucketIff(t.objects, t.links[slug].target, b); }
  }
  lemma RevokeLinks(t: Tables, b: Id, revoked: string, slug: string)
    requires WellFormed(t) && slug in t.links
    ensures var links := After(t, RevokePublicLink(t, b, revoked)).links;
      slug in links && links[slug] == t.links[slug].(revoked := t.links[slug].revoked || Revokes(t, Op.Revoke(b, revoked), slug, t.links[slug].target))
  {
    hide BucketObjectIds;
    RevokeIff(t, b, revoked);
  }
  lemma OtherLinks(t: Tables, c: Limits, op: Op, slug: string)
    requires slug in t.links && !op.Delete? && !op.Finish? && !op.Begin? && !op.Revoke?
    ensures slug in Next(t, c, op).links && Next(t, c, op).links[slug] == t.links[slug]
  {
    hide Used, Reserved, SourceUsed, SourceReserved, ReserveRefusal, CommitRefusal;
  }

  /** A link goes with its object and with nothing else, and is revoked on its own or with its
      bucket; every other transaction leaves it exactly as it is. */
  lemma LinkStaysIff(t: Tables, c: Limits, op: Op, slug: string)
    requires WellFormed(t) && slug in t.links
    ensures slug in Next(t, c, op).links <==> !Removes(t, op, t.links[slug].target)
    ensures slug in Next(t, c, op).links ==>
      Next(t, c, op).links[slug] == t.links[slug].(revoked := t.links[slug].revoked || Revokes(t, op, slug, t.links[slug].target))
  {
    hide WellFormed, DeleteObject, FinishBucketDeletion, BeginBucketDeletion, RevokePublicLink;
    match op
    case Delete(id) => DeleteLinks(t, id, slug);
    case Finish(now, b) => FinishLinks(t, now, b, slug);
    case Begin(now, b, hash) => BeginLinks(t, now, b, hash, slug);
    case Revoke(b, revoked) => RevokeLinks(t, b, revoked, slug);
    case _ => OtherLinks(t, c, op, slug);
  }
  /** A link comes only from being published. */
  lemma LinkIsPublished(t: Tables, c: Limits, op: Op, slug: string)
    requires slug !in t.links && slug in Next(t, c, op).links
    ensures op.Publish? && op.slug == slug && Next(t, c, op).links[slug] == Link(op.id, op.expires, false)
  {
    hide Used, Reserved, SourceUsed, SourceReserved, ReserveRefusal, CommitRefusal, Deadline;
  }

  // ---------- When an alias resolves ----------

  /** An alias resolves to a place exactly when its link was not revoked and is not over, the
      object there is the one it names, and the bucket is public and not being deleted. */
  lemma ResolvesIff(t: Tables, now: int, slug: string, slot: Slot)
    requires WellFormed(t)
    ensures PublicObject(t, now, slug) == Some(slot) <==>
      && slug in t.links && !t.links[slug].revoked && (t.links[slug].expires.Some? ==> now <= t.links[slug].expires.value)
      && slot in t.objects && t.objects[slot].id == t.links[slug].target
      && t.buckets[slot.bucket].public && slot.bucket !in t.deletions
  {
    hide UploadsFit, UploadsDistinct, DeletionsFit;
  }

  /** Nothing in the run deletes the object or its bucket or revokes the link. */
  predicate Spares(ops: seq<Op>, slug: string, id: Id, b: Id) {
    forall i :: 0 <= i < |ops| ==>
      && !(ops[i].Delete? && ops[i].id == id)
      && !(ops[i].Revoke? && ops[i].slug == slug)
      && !((ops[i].Begin? || ops[i].Finish?) && ops[i].id == b)
  }
  ghost predicate Live(t: Tables, slug: string, link: Link, slot: Slot) {
    && slug in t.links && t.links[slug] == link && slot in t.objects && t.objects[slot].id == link.target
    && slot.bucket in t.buckets && slot.bucket !in t.deletions
  }
  lemma BucketStaysOpen(t: Tables, c: Limits, op: Op, b: Id)
    requires b in t.buckets && b !in t.deletions && !((op.Begin? || op.Finish?) && op.id == b)
    ensures b in Next(t, c, op).buckets && b !in Next(t, c, op).deletions
  {
    hide Used, Reserved, SourceUsed, SourceReserved, ReserveRefusal, CommitRefusal, Deadline;
  }
  lemma StaysLive(t: Tables, c: Limits, op: Op, slug: string, link: Link, slot: Slot)
    requires WellFormed(t) && Live(t, slug, link, slot) && Spares([op], slug, link.target, slot.bucket)
    ensures Live(Next(t, c, op), slug, link, slot)
  {
    hide Next, FinishBucketDeletion, BeginBucketDeletion, WellFormed;
    assert [op][0] == op;
    OneSlot(t, slot);
    LinkStaysIff(t, c, op, slug);
    BucketStaysOpen(t, c, op, slot.bucket);
    if op.Publish? && op.slug == slug {
      PublishAgain(t, c, op, slug);
    } else {
      LeadsKept(t, c, op, slug, link.target, slot);
    }
  }
  lemma OneSlot(t: Tables, slot: Slot)
    requires WellFormed(t) && slot in t.objects
    ensures ObjectHas(t.objects, t.objects[slot].id) && ObjectSlot(t.objects, t.objects[slot].id) == slot
  {
  }
  lemma PublishAgain(t: Tables, c: Limits, op: Op, slug: string)
    requires op.Publish? && op.slug == slug && slug in t.links
    ensures Next(t, c, op) == t
  {
  }

  /** While nothing deletes its object or bucket or revokes it, an alias resolves in every later
      state exactly as long as its time is not over and its bucket is public, whatever is
      replaced, rotated, published or deleted elsewhere. */
  lemma {:induction false} AliasKeepsResolving(t: Tables, c: Limits, ops: seq<Op>, slug: string, slot: Slot, now: int)
    requires WellFormed(t) && slug in t.links && Live(t, slug, t.links[slug], slot) && !t.links[slug].revoked
    requires Spares(ops, slug, t.links[slug].target, slot.bucket)
    ensures var t' := Run(t, c, ops);
      && slot.bucket in t'.buckets
      && PublicObject(t', now, slug) ==
           if t'.buckets[slot.bucket].public && (t.links[slug].expires.Some? ==> now <= t.links[slug].expires.value)
           then Some(slot) else None
    decreases ops
  {
    if ops == [] {
      OneSlot(t, slot);
    } else {
      hide Next, WellFormed, PublicObject;
      assert forall i :: 0 <= i < |ops[1..]| ==> ops[1..][i] == ops[i + 1];
      StepKeepsWellFormed(t, c, ops[0]);
      StaysLive(t, c, ops[0], slug, t.links[slug], slot);
      AliasKeepsResolving(Next(t, c, ops[0]), c, ops[1..], slug, slot, now);
    }
  }
  /** An edit of a bucket that goes through writes all its settings, its visibility with them. */
  lemma EditIsWritten(t: Tables, c: Limits, id: Id, b: Bucket, told: bool)
    requires UpdateBucket(t, c, id, b, told).Done?
    ensures UpdateBucket(t, c, id, b, told).tables == t.(buckets := t.buckets[id := b])
  {
    hide Used, Reserved;
  }

  /** Whatever replacements, rotations and other transactions follow, an alias that resolves
      leads to the very row its object's key is mapped to then: same bucket and key, same
      object id, current physical key. */
  lemma AliasFollowsItsObject(t: Tables, c: Limits, ops: seq<Op>, now: int, slug: string)
    requires WellFormed(t) && slug in t.links && !Publishes(ops, slug)
    ensures var slot := ObjectSlot(t.objects, t.links[slug].target);
      var t' := Run(t, c, ops);
      var r := PublicObject(t', now, slug);
      r == None || (r == Some(slot) && slot in t'.objects && t'.objects[slot].id == t.objects[slot].id)
  {
    var id := t.links[slug].target;
    var slot := ObjectSlot(t.objects, id);
    LeadsThroughout(t, c, ops, slug, id, slot);
  }

  lemma DeadDelete(t: Tables, id: Id, slug: string)
    requires DeleteObject(t, id).Done? && slug in t.links && id == t.links[slug].target
    ensures Dead(After(t, DeleteObject(t, id)), slug)
  {
  }
  lemma DeadRevoke(t: Tables, b: Id, slug: string)
    requires RevokePublicLink(t, b, slug).Done?
    ensures Dead(After(t, RevokePublicLink(t, b, slug)), slug)
  {
  }
  lemma DeadBegin(t: Tables, at: int, b: Id, hash: string, slug: string)
    requires WellFormed(t) && slug in t.links && b !in t.deletions && BeginBucketDeletion(t, at, b, hash).Done?
    requires b == ObjectSlot(t.objects, t.links[slug].target).bucket
    ensures Dead(After(t, BeginBucketDeletion(t, at, b, hash)), slug)
  {
    assert t.links[slug].target in BucketObjectIds(t.objects, b);
  }

  /** Once its object is deleted an alias never resolves again, even if the same key is
      uploaded anew; nor does it after being revoked, or after deletion of its bucket began. */
  lemma AliasDiesWithItsObject(t: Tables, c: Limits, end: Op, ops: seq<Op>, now: int, slug: string)
    requires WellFormed(t) && slug in t.links && Apply(t, c, end).Done? && !Publishes(ops, slug)
    requires
      || (end.Delete? && end.id == t.links[slug].target)
      || (end.Revoke? && end.slug == slug)
      || (end.Begin? && end.id !in t.deletions && end.id == ObjectSlot(t.objects, t.links[slug].target).bucket)
    ensures PublicObject(Run(Next(t, c, end), c, ops), now, slug) == None
  {
    hide PublicObject, WellFormed;
    match end {
      case Delete(id) => DeadDelete(t, id, slug);
      case Revoke(b, _) => DeadRevoke(t, b, slug);
      case Begin(at, b, hash) => DeadBegin(t, at, b, hash, slug);
    }
    DeadForever(Next(t, c, end), c, ops, now, slug);
  }
}

# VirSree: a verified model of the metadata ledger, its protocols and its listings

VirSree keeps virtual buckets on top of physical S3 and WebDAV sources. A SQLite database holds the
metadata; the bytes are elsewhere. Everything that can go wrong lies between the two: counters kept
by increments, reservations that outlive what they were computed from, objects moved while someone
reads them, buckets deleted while clients still hold signed URLs. This project models that part and
proves what holds of it over every run.

Check everything with `dafny verify dfyconfig.toml`.

## How it fits together

- `Sums`, `Lex`, `Sorting`: sums over finite maps, the order of keys, sorting by a comparison.
- `Ledger`: the tables and what each transaction does to them, as functions; bytes used and reserved
  are sums over rows. `Store` is the database as a class whose methods adjust running counters in
  place, with the clamps the SQL has, and each is proved equal to its `Ledger` function: so the
  counters are the sums after every transaction and no clamp ever cuts anything off.
- Over all runs of the ledger: `Quota` (limits), `Counts` (object and pending counts), `Overcommit` and
  `Capacity` (exactly when and how far quotas, object limits and source capacities can be exceeded),
  `Aliases`, `Confirmations`, `Deletions` (a closing bucket only shrinks, a prepared token works),
  `Grants` (a deletion outwaits every signed PUT).
- `Protocol`: commits, rotations, deletes, the bucket lock, the cleanup worker, clients' PUTs and
  crashes as freely interleaving steps, one call to the database or a backend each. `Invariants`,
  `Preservation`, `Stepwise` and `Transitions` prove the invariant, `Safety` states the guarantees
  and proves that every run of the protocols is a run of the ledger. `Scenario` runs it from the
  empty service to the states those guarantees are about.
- `Service`: the service's own methods, in sequence, with every backend call and every statement that
  writes rows free to fail; failures are counted, so that each method is also bound to succeed.
  `Refinement`: the protocol's calls, run without interference, do what those methods promise.
- `Purge` (emptying a prefix on S3), `Names` (physical keys), `Tombstones` (late sweeps over every
  run; their passes are methods of `Store` and `Service`).
- `Paging`, `Browse`: keyset pages and folder pages against the plain sorted listing.
- `Sources` (which source is primary, and that it stays unlimited), `Query` (the canonical query).

## What turned out not to hold

- A bucket's used plus reserved bytes can exceed its quota, and a source's its capacity: a replacement
  reserves only its growth, and the object it grows from can be deleted before it commits.
  `Overcommit.LimitsCanBeExceeded` runs such a trace from the empty store (300 bytes on a quota and a
  capacity of 200). `Overcommit.PendingIsSafeIff` and `Capacity.LoadIsSafeIff` say exactly when the
  pending uploads are safe, `Quota.RunsStayContained` how bad a bucket can get.
- A bucket's objects can exceed their limit, and for that nothing need be deleted: the limit is checked
  when an upload is reserved and counts objects only, so two new keys reserved while there is none both
  commit (`Overcommit.ObjectLimitBreaksUndeleted`). `Overcommit.CountIsSafeIff` says exactly when the
  limit holds, `Counts.RunsStayCountable` by how much it can be passed.
- A stop between a rotation's backend delete and its metadata switch leaves a row that points at
  nothing (`Safety.RotationHasACrashWindow`; reached from the empty service in
  `Scenario.RotationWindowIsReached`); `Safety.ObjectIsThereIff` says for exactly which keys.
- If a rotation's metadata switch fails, the bytes are at neither key any more exactly when copying
  them back fails and deleting the copy does not (`Safety.BytesAreLostIff`, reached in
  `Scenario.BytesCanBeLost`; `Service.Service.RotateObjectKey` says the same of the method, and that
  no other bytes are ever affected).
- A store that keeps versions without listing them keeps them through a purge that reports success
  (`Purge.S3.PurgePrefix` claims emptiness for the others only).
- Two sources of one priority and age, or a primary that is not ready, can make the sources in memory
  disagree with the database on the primary, and an unlimited bucket is then created that no
  unlimited primary backs (`Sources.TiesSplitThePrimary`, `Sources.AnUnreadyPrimaryIsSkipped`;
  exactly when they agree is `Sources.SamePrimaryIff`).

## Assumptions

Database transactions and backend calls are atomic and have a known outcome. Ids are never reused and
generations never repeat. The clock does not run backwards, and signing ends within a minute of the
reservation. Byte counts are unbounded integers. Copying an absent key fails. Bucket and upload ids
contain no slash. At most one commit, rotation or delete of a key is inside its guarded section at a
time: the bucket's read lock does not exclude two. Keys are compared as sequences of characters.

## Model

| member | source | states |
|---|---|---|
| Ledger.RunKeepsWellFormed | internal/store/store.go:45-68 | over every run of all seventeen transactions each object and upload has its bucket and source, ids and physical keys stay unique, links and grants have their targets |
| Ledger.CommitKeepsWellFormed | internal/store/store.go:476-532 | a commit, inserting or replacing, keeps every reference and uniqueness constraint |
| Ledger.CommitGoesIff | internal/store/store.go:476-532 | a commit goes through exactly for a pending upload of an active bucket whose physical key, and whose id if the object is new, no other object has |
| Ledger.CommitWrites | internal/store/store.go:476-532 | it writes the upload's object: same id and a later generation for a replacement, the upload's id and generation one for a new key; no other row changes |
| Ledger.ReservationGoesIff | internal/store/store.go:346-421 | an upload is let in exactly if the bucket is active, every limit has room for what it adds, its source is enabled, and its id and keys are new |
| Ledger.ReservationWrites | internal/store/store.go:346-421 | it holds on the bucket what it adds to the object there, on its source that or all of its size, and its grant ends when it does |
| Ledger.FinishKeepsWellFormed | internal/store/bucket_delete.go:125-162 | removing a bucket's rows leaves no row of another table dangling |
| Ledger.Deadline | internal/store/bucket_delete.go:39-97 | the cleanup deadline is the least instant that is not before now nor before a minute after any grant of the bucket ends |
| Lex.LessIff | internal/store/store.go:577 | the order of keys: a proper prefix first, otherwise the smaller character at the first difference |
| Store.Store.constructor | internal/store/store.go:40-68 | a new store is empty and its counters agree |
| Store.Store.ReserveRefusal | internal/store/store.go:346-403 | decided from the counters, the same refusal as from sums over rows, for every limit in the order the code checks them |
| Store.Store.ReserveObject | internal/store/store.go:346-421 | inserts upload and grant and holds the growth on bucket and source, or changes nothing; counters stay the sums |
| Store.Store.CancelUpload | internal/store/store.go:447-470 | removes the upload and gives back exactly what it held on bucket and source |
| Store.Store.CommitUpload | internal/store/store.go:476-532 | moves the upload into the objects, on a replacement frees the old row on its own source, returns the old row; counters stay the sums |
| Store.Store.DeleteObject | internal/store/store.go:535-569 | removes the object and its links and takes its bytes off bucket and source |
| Store.Store.RotatePhysicalKey | internal/store/rotate.go:8-11 | changes the physical key and generation of one row and no counter |
| Store.Store.CreateBucket | internal/store/store.go:161-185 | a new bucket starts with zero counters, which are the sums because no row can name it |
| Store.Store.UpdateBucket | internal/store/store.go:187-221 | refuses a quota below what is used and reserved or above what the platform has left |
| Store.Store.CreateStorageSource | internal/store/platform.go:12-15 | a new source starts with zero counters, which are the sums |
| Store.Store.UpdateStorageSource | internal/store/platform.go:37-54 | refuses a capacity below what is used and reserved on it |
| Store.Store.CleanupAfter | internal/store/bucket_delete.go:39-97 | the loop's maximum is the deadline of the bucket's grants, sixty seconds after the last of them or now |
| Store.Store.BeginBucketDeletion | internal/store/bucket_delete.go:39-97 | with a confirmation in its time, records the deletion, spends the bucket's tokens and revokes its links; again, is a no-op |
| Store.Store.FinishBucketDeletion | internal/store/bucket_delete.go:125-162 | after the deadline takes the bucket's share off every source and removes all its rows; every counter is again the sum |
| Store.Store.PrepareBucketDeletion | internal/store/bucket_delete.go:194-201 | drops expired tokens, even if it then fails, and stores the new one unless it is taken or the bucket is gone |
| Store.Store.PruneUploadGrants | internal/store/bucket_delete.go:203-205 | drops grants over for more than a minute of buckets not being deleted |
| Store.Store.ForgetUploadGrant | internal/store/bucket_delete.go:207-209 | drops one grant |
| Store.Store.CreatePublicLink | internal/store/store.go:657-660 | a slug is taken once and needs an existing object |
| Store.Store.RevokePublicLink | internal/store/store.go:661-674 | revokes only a link to an object of the given bucket |
| Store.NeverClamped | internal/store/store.go:447-569 | no row ever weighs more than the counter it is taken off, so no MAX(0,...) clamp fires |
| Store.ShareOfSource | internal/store/bucket_delete.go:142-146 | taking a bucket's rows away lowers a source's sums by exactly the bucket's share of it |
| Store.ReplaceBalances | internal/store/store.go:476-532 | a replacement's three counter updates, possibly on two sources, add up to the change of the sums |
| Store.FinishBalances | internal/store/bucket_delete.go:125-162 | with the shares subtracted, counters equal sums over the rows left |
| Quota.CalmRunsStayWithin | internal/store/store.go:346-569 | in runs that delete no object under a pending upload of its key, every limited bucket stays within quota and every limited source within capacity |
| Quota.CheckSeesExposure | internal/store/store.go:376-403 | used plus reserved never exceeds the true exposure of a bucket, and equals it exactly when every pending reservation is still tight |
| Quota.OnlyReservationsRaiseExposure | internal/store/store.go:346-569 | used bytes plus what pending uploads would add is raised by reservations only |
| Quota.RunsStayContained | internal/store/store.go:346-569 | over every run in which the bucket's finite quota stays within q, used plus reserved never exceeds maxPending times q |
| Overcommit.LimitsCanBeExceeded | internal/store/store.go:376-403 | a run from the empty store that ends with 300 bytes used of a quota of 200, on a source with a capacity of 200, and two objects of one allowed |
| Overcommit.DeleteOpensRoom | internal/store/store.go:535-569 | deleting an object under a pending upload hides exactly the smaller of the two sizes from the quota check |
| Overcommit.CommitsNeverExceedExposure | internal/store/store.go:476-532 | no sequence of commits takes a bucket above its exposure |
| Overcommit.CommitsReachExposure | internal/store/store.go:476-532 | some sequence of commits of the pending uploads reaches it |
| Overcommit.PendingIsSafeIff | internal/store/store.go:376-532 | all sequences of commits stay within a quota if and only if the exposure is within it |
| Overcommit.RunsStayCommittable | internal/store/store.go:476-532 | over every run with fresh upload ids an active bucket's pending uploads can all be committed, so the exact conditions apply to it |
| Overcommit.CommitsKeepForeseen | internal/store/store.go:476-532 | commits leave objects plus pending uploads of new keys unchanged, and never take the objects above that |
| Overcommit.CommitsReachForeseen | internal/store/store.go:476-532 | some sequence of commits of the pending uploads reaches it |
| Overcommit.CountIsSafeIff | internal/store/store.go:355-374 | all sequences of commits stay within n objects if and only if objects plus pending uploads of new keys are at most n |
| Overcommit.ObjectLimitBreaksUndeleted | internal/store/store.go:364-374 | a run from the empty store without a delete that ends with two objects of one allowed |
| Capacity.CheckSeesLoad | internal/store/store.go:385-403 | used plus reserved never exceeds what a source may come to hold, and equals it exactly when every reservation on it is still tight |
| Capacity.OnlyReservationsRaiseLoad | internal/store/store.go:346-569 | used bytes plus what pending uploads would add to a source is raised by reservations on it only |
| Capacity.CommitsNeverExceedLoad | internal/store/store.go:476-532 | no sequence of commits takes a source above that |
| Capacity.CommitsReachLoad | internal/store/store.go:476-532 | some sequence of commits reaches it |
| Capacity.LoadIsSafeIff | internal/store/store.go:385-532 | all sequences of commits stay within a capacity if and only if that sum is within it |
| Capacity.RunsStayPlaced | internal/store/store.go:476-532 | over every run with fresh upload ids all that is pending on a source can be committed, unless a bucket of it is being deleted |
| Counts.ReserveCounts | internal/store/store.go:346-421 | a reservation raises objects plus pending uploads of new keys by one exactly when its key is new |
| Counts.RunsStayCountable | internal/store/store.go:355-374 | ready objects plus pending uploads of new keys never exceed maxObjects + maxPending - 1, pending never exceeds maxPending |
| Counts.QuotasFitThePlatform | internal/store/store.go:161-221 | over every run the limited buckets' quotas together stay within the platform's total |
| Grants.NoPutOutlivesItsBucket | internal/store/bucket_delete.go:125-137 | over every run, once a bucket's deletion finishes no PUT signed for it can be started and none can be signed any more |
| Grants.SignFailedKeeps | internal/service/service.go:257-265 | forgetting the grant of an upload that could not be signed keeps every live URL covered by a grant |
| Aliases.AliasFollowsItsObject | internal/store/store.go:675-684 | over every run, an alias that resolves leads to its object's row as it is then, at the same bucket and key |
| Aliases.AliasDiesWithItsObject | internal/store/store.go:535-569 | after its object is deleted, it is revoked or its bucket's deletion begins, an alias never resolves again, even if the key is uploaded anew |
| Aliases.LinkStaysIff | internal/store/store.go:535-569 | a link goes exactly with its object or its object's bucket, is revoked exactly on its own or when its bucket's deletion begins, and no other transaction changes it |
| Aliases.LinkIsPublished | internal/store/store.go:657-660 | a link comes only from being published |
| Aliases.RevokeIff | internal/store/store.go:661-674 | a link is revoked exactly through the bucket its object is in |
| Aliases.ResolvesIff | internal/store/store.go:675-684 | an alias resolves to a place exactly if its link is neither revoked nor over, names the object there, and the bucket is public and not being deleted |
| Aliases.AliasKeepsResolving | internal/store/store.go:675-684 | over every run that does not delete its object or bucket or revoke it, an alias resolves exactly while its time lasts and the bucket is public |
| Aliases.EditIsWritten | internal/store/store.go:187-221 | an edit that goes through writes all of a bucket's settings, its visibility too |
| Deletions.DeletingBucketOnlyShrinks | internal/store/bucket_delete.go:39-97 | over every run, once its deletion has begun a bucket gains no object, upload or grant, and neither its settings nor its deadline move |
| Deletions.TokenStaysIff | internal/store/bucket_delete.go:194-201 | a token goes exactly when it has expired or its bucket's deletion begins or ends |
| Deletions.PreparedTokenWorks | internal/store/bucket_delete.go:39-97 | over every run that leaves it alone, a prepared token begins its bucket's deletion exactly within its time |
| Confirmations.DeletionWasConfirmed | internal/store/bucket_delete.go:39-97 | whenever a bucket is being deleted, an earlier step prepared a token for that bucket and the deletion began within the token's time |
| Confirmations.TokensAreSpent | internal/store/bucket_delete.go:39-97 | no token for the bucket survives the start of its deletion |
| Safety.NobodyInsideWhileSweeping | internal/service/bucket_delete.go:21-32 | in every interleaving no guarded operation of any kind holds a bucket's read lock while the worker sweeps it, and none is inside once a sweep has begun |
| Safety.FinishSweptTheListing | internal/service/bucket_delete.go:105-136 | when a deletion finishes no committed object of the bucket is left on any source its sweep listed |
| Safety.SweptForever | internal/service/bucket_delete.go:137-178 | nor in any later state of any run |
| Safety.ObjectIsThereIff | internal/service/service.go:287-340 | in every reachable state, so at every crash point, an object of an active bucket is stored under its key with the committed bytes and recorded size if and only if no rotate or delete of its key got past its backend delete unfinished |
| Safety.OnlyOwnDeletesDangle | internal/service/rotate.go:25-30 | only the backend deletes of a rotate or delete of that very key can take an object's bytes away |
| Safety.RotationHasACrashWindow | internal/service/rotate.go:25-30 | a stop right after a rotation's backend delete leaves a row without bytes |
| Safety.ClientPutChangesNoObject | internal/service/service.go:287-340 | a PUT to any staging key, also with an old URL, leaves every object's bytes and the tables alone |
| Safety.RotationKeepsTheObject | internal/service/rotate.go:10-41 | a rotation that goes through keeps key, id, size and bytes, at a new place, and the old place is empty |
| Safety.RetiredForever | internal/service/rotate.go:8-9 | a place rotated away from is empty in every later state, so old direct URLs stay dead |
| Safety.UndrawnIsNew | internal/service/rotate.go:20-21 | in every reachable state a generation not used before names a key nothing has |
| Safety.BytesAreLostIff | internal/service/rotate.go:31-37 | when the metadata switch fails, the bytes end at neither key if and only if copying them back fails and deleting the copy does not; the row is as it was, and what is at its place is the object |
| Scenario.RotationWindowIsReached | internal/service/rotate.go:25-30 | a run from the empty service, ended by a crash, after which an active bucket's object is not where its row says |
| Scenario.BytesCanBeLost | internal/service/rotate.go:31-37 | a run from the empty service after which an active bucket's object is at neither of its rotation's keys |
| Scenario.DeletionIsReached | internal/service/bucket_delete.go:105-136 | a run from the empty service in which a bucket that holds an object is swept and its deletion finishes |
| Safety.FailedRotationRestores | internal/service/rotate.go:31-37 | when only the metadata switch fails, the undoing restores tables and bytes exactly |
| Safety.StepIsATransaction | internal/service/service.go:287-340 | every step is at most one transaction of the ledger, and a commit records exactly the declared size |
| Safety.RunsAreLedgerRuns | internal/service/service.go:287-392 | so every run of the protocols is a run of the ledger, and what holds over those holds under any interleaving and crash |
| Transitions.RunKeeps | internal/service/bucket_delete.go:21-178 | the invariant of locks, names, rows, bytes and operations holds over every run |
| Transitions.CommitKeeps | internal/service/service.go:323-328 | the commit's transaction points the row at bytes already verified, and at a key never mapped before |
| Transitions.SweepDeleteKeeps | internal/service/bucket_delete.go:166-176 | deleting under a swept bucket's prefixes touches no other bucket's bytes |
| Transitions.WorkerLockKeeps | internal/service/bucket_delete.go:65-80 | taking a free write lock means nobody is inside |
| Service.Service.RotateObjectKey | internal/service/rotate.go:10-41 | an object that is there is rotated exactly if no backend or database call fails: the bytes move and the row switches; failure leaves the tables alone, whatever fails no other bytes are touched, and with no backend fault none are; an object that had its bytes loses them exactly when the copy back fails and the delete of the copy does not |
| Service.Service.CommitUpload | internal/service/service.go:287-340 | an upload that is staged as declared is committed unless a backend or database call fails: the row records the declared size, which is that of the stored bytes, which are the staged ones, and the staged and replaced bytes go, without fault all of them; failure: tables alone, nothing stored before touched, with no fault nothing left behind |
| Service.Service.Promote | internal/service/service.go:309-322 | the copy is there after success and taken away again after a failed check, unless that fails too |
| Service.Service.Delete | internal/service/service.go:370-392 | goes through exactly if no backend or database call fails, and then removes the bytes, the row and the links to that object and no others; failure leaves the tables alone, and the bytes too unless only the database failed |
| Service.Service.CleanupExpiredUploads | internal/service/service.go:270-286 | gives up the at most hundred uploads over longest, none that is not over or of a bucket being deleted: a row goes only after its staged bytes, nothing else changes, and no more of them stay than calls failed |
| Service.Service.BeginUpload | internal/service/service.go:217-268 | the refusals before any work are exactly the code's; past them expired uploads are cleaned up, and the first candidate that does not refuse for capacity decides: it holds the signed reservation or its refusal is the answer; a refused or unsignable upload leaves the tables as they were unless the database does not answer; of stored bytes only staged ones of expired uploads go |
| Service.FirstWithRoomIsTaken | internal/service/service.go:237-249 | with no failure the deciding candidate alone determines tables and answer |
| Service.ReserveUndone | internal/service/service.go:257-265 | cancelling and forgetting a reservation restores every table |
| Service.Service.SweepBucketNamespaces | internal/service/bucket_delete.go:137-178 | success means that no source of the database nor the legacy one holds a key under rosemary-staging/{id}/ or, in a full sweep, rosemary/{id}/; nothing else is ever deleted; a source without backend is an error |
| Service.ClearMeansNoBytes | internal/service/bucket_delete.go:166-176 | then no object of the bucket that is under a name the service gives is stored anywhere |
| Service.Service.CleanBucket | internal/service/bucket_delete.go:105-136 | rows are removed only after the deadline and a sweep that left no bytes of the bucket on any source; any failure leaves the tables alone; with every source loaded only a failing call can fail it |
| Service.Service.CleanupBuckets | internal/service/bucket_delete.go:65-87 | one pass finishes deletions that are due, longest requested first, and of those that can be swept leaves no more than calls failed; of a finished bucket no row is left, no bytes on any source and no object's bytes, and no other bucket's rows or bytes go |
| Service.Service.CleanupTombstones | internal/service/bucket_delete.go:88-103 | the loop does what the pass function says over the due list; a sweep counts as successful only if nothing is left under the bucket's staging prefix on any source, no more sweeps fail than backend calls, and only staged bytes of listed buckets go |
| Refinement.CommitIsItsCalls | internal/service/service.go:287-340 | the interleaving model's calls of one commit, run alone, have the outcome the method promises, whichever of the last two deletes fail |
| Refinement.RotationIsItsCalls | internal/service/rotate.go:10-41 | likewise for a rotation |
| Refinement.DeleteIsItsCalls | internal/service/service.go:370-392 | likewise for a delete |
| Names.PhysicalInjective | internal/service/service.go:211-213 | bucket, generation and key up to one leading slash can be read back from a physical key |
| Names.StagingInjective | internal/service/service.go:214-216 | and bucket, upload and key from a staging key |
| Names.NamespacesAreDisjoint | internal/service/service.go:211-216 | no staging key is a physical key, nor under a final prefix, nor the other way round |
| Names.DecimalMeans | internal/service/service.go:211-213 | the generation in a key is its decimal number without leading zero |
| Names.NamesRead | internal/service/service.go:211-216 | physical and staging keys and the two prefixes, spelled out |
| Names.PurgeIsIsolated | internal/service/bucket_delete.go:166-176 | one bucket's purge prefixes match no key of another bucket |
| Names.ValidPrefixesAreBucketPrefixes | internal/provider/purge.go:15-18 | the purge guard accepts exactly the two prefixes of some nonempty, slash-free id other than the dots |
| Names.PlatformFilesAreSafe | internal/provider/purge.go:14-18 | no accepted purge prefix matches a key of the platform's own files |
| Purge.S3.PurgePrefix | internal/provider/purge.go:20-79 | a refused prefix touches nothing; after nil nothing is visible under the prefix, and nothing at all is stored under it if and only if versions are listed, or none are kept, or there was nothing before; no other key is ever touched; both loops end; only a failed call or a useless page can keep it from succeeding |
| Purge.S3.PurgeVersions | internal/provider/purge.go:24-52 | the version loop ends by a falling count with no version or marker left under the prefix; where listing versions is unsupported it changes nothing |
| Purge.S3.PurgeObjects | internal/provider/purge.go:53-79 | the object loop ends and leaves nothing visible under the prefix |
| Tombstones.NothingDueStarves | internal/store/bucket_delete.go:169-192 | a due tombstone with n others due before it is swept within (n + 50) / 50 completed passes, over any run of passes, delays and burials |
| Tombstones.NothingIsDroppedEarly | internal/service/bucket_delete.go:88-103 | over every run a tombstone goes only by a successful sweep that ended after its week |
| Tombstones.PassDropsIff | internal/service/bucket_delete.go:88-103 | a pass drops a tombstone exactly when it swept the bucket successfully and that ended no earlier than its until time |
| Tombstones.FinishBuries | internal/store/bucket_delete.go:138-141 | only a finished deletion writes a tombstone, for 7 days, first due in 900 seconds, never over an existing one |
| Store.Store.DueBucketCleanupTombstones | internal/store/bucket_delete.go:169-184 | at most fifty tombstones, all of them due, those longest due, in order |
| Store.Store.UpdateBucketCleanupTombstone | internal/store/bucket_delete.go:185-192 | drops the row or puts it off a quarter of an hour; no row, no change |
| Paging.TraversalIsStable | internal/store/store.go:573-605 | whatever is inserted or deleted between pages, a completed traversal returns no key twice and every key present throughout once, in order |
| Paging.PagesAreTheListing | internal/store/store.go:573-605 | on a fixed table the pages end and are the sorted listing of the matching keys |
| Paging.AllButTheLastAreFull | internal/store/store.go:588-605 | every page but the last is full |
| Paging.RangeConditionIsRedundant | internal/store/store.go:573-587 | the extra range condition on the prefix removes nothing |
| Paging.ListObjectsPage | internal/store/store.go:573-605 | one page by fetching one row too many is the page of the specification; limits outside 1 to 1000 are refused |
| Browse.ReadyIff | internal/store/store.go:607-656 | the keys browsed are exactly those of the bucket's ready objects |
| Browse.EntriesCover | internal/store/store.go:607-656 | no entry is empty |
| Browse.ExactlyOneEntry | internal/store/store.go:607-656 | every matching key but the prefix itself falls under exactly one entry, a folder exactly when the key goes on past a slash |
| Browse.CrawlListsTheFiles | internal/store/store.go:607-656 | following every folder over all its pages ends and lists exactly the keys that do not end in a slash, each once, in order |
| Browse.NothingIsLost | internal/store/store.go:639-655 | whatever else changes between the page query and the row lookups, if every file of the page is still there its entries all come back, in order |
| Browse.FilesWereThere | internal/store/store.go:607-638 | an entry of a page that is no folder was a ready object when the page was read |
| Browse.FetchEntries | internal/store/store.go:639-655 | the rows are exactly the folders and the files still there, sorted, each once, files with the object they then have |
| Browse.BrowseObjectsPage | internal/store/store.go:607-656 | the page of the sorted distinct entries after the cursor, less files gone by the time they are looked up, with rows as they are then; limits outside 1 to 1000 are refused |
| Sources.SamePrimaryIff | internal/service/storage.go:408-440 | memory and database agree on the primary for every map order exactly when the database's primary is ready and no ready source ties with it |
| Sources.RunsStayBacked | internal/service/storage.go:292-330 | over every serialised run of source writes that must pass the sorted check, bucket writes told what memory may answer, and other transactions, with all sources ready and no ties, an unlimited bucket is backed by an unlimited primary |
| Sources.RequestStaysBacked | internal/service/storage.go:204-330 | each such request keeps that rule |
| Sources.TellsTheTruth | internal/service/storage.go:429-440 | with all sources ready and no ties, memory can only answer the truth about the database's primary |
| Sources.TiesSplitThePrimary | internal/service/storage.go:416-423 | two sources that tie: an unlimited bucket is created on what memory may answer though the primary is limited, or refused though it is unlimited |
| Sources.AnUnreadyPrimaryIsSkipped | internal/service/storage.go:411-415 | a limited primary that is not ready, behind which an unlimited source answers, so that an unlimited bucket is created unbacked |
| Sources.StorageManager.constructor | internal/service/storage.go:78-99 | loading leaves in memory exactly the sources of the database |
| Sources.StorageManager.Candidates | internal/service/storage.go:408-427 | exactly the enabled and ready sources, each once, by priority and then age; if there is none, a ready legacy backend alone, with a capacity of 2^62 and not unlimited |
| Sources.StorageManager.List | internal/store/platform.go:16-31 | all sources by priority, age and id |
| Sources.StorageManager.PrimaryUnlimited | internal/service/storage.go:429-440 | the answer is that of a source that may lead, or no if there is none; with all ready and no ties, yes exactly if the primary is unlimited |
| Sources.StorageManager.ValidatePrimaryCapacity | internal/service/storage.go:292-330 | accepts exactly the writes after which an unlimited bucket, if any, still has an unlimited primary |
| Sources.StorageManager.Add | internal/service/storage.go:204-224 | adds the source to database and memory together, or to neither |
| Sources.StorageManager.Update | internal/service/storage.go:248-290 | rewrites priority and capacity in both, keeps the age, or changes neither |
| Sources.StorageManager.NewBucket | internal/service/service.go:47-62 | is one of the requests of those runs, told what memory may answer; with all sources ready and no ties, the truth about the primary |
| Sources.StorageManager.UpdateBucket | internal/service/service.go:63-77 | likewise |
| Query.AwsEscapeIsPercentEncoding | internal/s3compat/auth.go:182 | form encoding with plus signs replaced is percent-encoding per sections 2.1 and 2.3 of RFC 3986 |
| Query.UnreservedCodes | internal/s3compat/auth.go:182 | the characters left alone are those of section 2.3 of RFC 3986 |
| Query.EscapeJoins | internal/s3compat/auth.go:182 | text is escaped character by character |
| Query.OneEscaped | internal/s3compat/auth.go:182 | an unreserved character stays, any other becomes a triplet |
| Query.DigitsAreUpper | internal/s3compat/auth.go:182 | of a percent sign and two digits, upper-case ones |
| Query.EscapeDecodes | internal/s3compat/auth.go:182 | escaping can be undone and leaves only unreserved characters and percent signs |
| Query.PrintParses | internal/s3compat/auth.go:171-181 | the joined string can be read back into the very list of parameters |
| Query.CanonicalQuery | internal/s3compat/auth.go:162-181 | prints the sorted listing of exactly the query's parameters, less the signature if presigned, whatever order the map is walked in |
| Query.CanonicalIff | internal/s3compat/auth.go:162-181 | two queries have one canonical string if and only if they hold the same parameters equally often |
| Query.CanonicalDecodes | internal/s3compat/auth.go:162-181 | reading the string back gives exactly the query's parameters |

## Left out

- Access keys, bootstrap tokens, sessions, audits, metrics, snapshots, content types, ETags, bucket names and slugs: rows that no property here depends on; a bucket is named by its id.
- Download URLs and their tokens: reads only. WebDAV transfer tokens and relayed uploads: a relayed upload is, like a presigned one, a PUT to the staging key.
- HTTP routing, OIDC, the command line, the web interface, cryptography, signature checking and presigning.
- The AWS SDK, the WebDAV protocol and its purge, SQLite itself: a backend is a map with atomic calls that may fail, a query is what its text says.
- The check of page size in purge listings: any nonempty part of the matching items may be listed.
- Operators pointing a source at another physical bucket, the one-time migration, and bytes placed before sources existed; the legacy source has no row, so it has no counters and no capacity.
- Database failures in module Service other than of the statements that reserve, commit, cancel, delete, rotate or finish: reads, pruning and the writing of tombstones always answer there.
- Several rows of one statement order: rows with equal sort keys may come in any order.
- 64-bit overflow of byte counts and durations, keys with NUL or invalid UTF-8, and the byte length of non-ASCII keys.
- Concurrent commit, rotate or delete of one key, backend writes that finish after a cancelled request, database errors with an unknown outcome.
- Sources whose runtime is missing while their row exists, in module Protocol; module Service has them.
- An object status other than ready: every statement that writes an object writes ready.
- Whether a recursive crawl still meets every file while the table changes under it: the code promises pages, not crawls, to be stable.
- Safety.FinishSweptTheListing: says nothing of staging keys, because the sweep runs before the deadline is checked and a client may put bytes there in between; the tombstone sweeps are for those.
- Safety.ObjectIsThereIff: assumes at most one commit, rotate or delete of a key inside at a time.
- Service.Service.CleanupBuckets: one reading of the clock serves the whole pass, and a pass is neither timed out nor cut short.
- Service.Service.CleanupTombstones: how long each sweep takes is any value, and no pass is timed out or cut short.
- Quota.RunsStayContained: for a bucket that is never unlimited during the run.
- Tombstones.NothingDueStarves: counts a failed sweep as a sweep, since the code puts its tombstone off all the same.
- Sources.RunsStayBacked: takes bucket and source changes one at a time; two at once can pass their checks against the same old state.
- Query.CanonicalIff: about this printer only; names are sorted before they are escaped, which need not be the order of another implementation.

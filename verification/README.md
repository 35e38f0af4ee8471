# Bridge verification

A Dafny model of an S3 bridge that keeps objects as Proxmox Backup Server (PBS) snapshots and
its metadata in an embedded key-value store, with proofs of what the bridge guarantees.
`dafny verify dfyconfig.toml` checks everything.

## What is modelled

- **The commit, delete and multipart protocol** (`ProtocolState`, `ProtocolSteps`,
  `ProtocolInv`, `ProtocolProof`, `ProtocolRuns`, `ProtocolTheorems`). A step machine: every
  store, PBS and filesystem call is one step of some request; it may succeed, fail, or, for PBS,
  fail after taking effect; a crash may come between any two steps; any number of requests
  interleave under the two lock levels, with the garbage collector beside them. The main
  invariant is proved step by step and gives the theorems over all runs.
- **What multipart uploads store** (`ProtocolContent`, `ProtocolRetry`, `ProtocolSolo`,
  `ProtocolStale`): which bytes a Complete stores, when final.img survives a failed commit, when a
  repeated Complete stores the same, and the runs in which it does not.
- **What runs leave behind** (`ProtocolWaste`): which snapshots and upload records outlive the
  commits and clean-ups that should have removed them, and that nothing else does.
- **The same operations as they are written** (`BridgeFrames`, `Bridge`): class `Backend`, whose methods follow
  the code statement by statement, loops included, over a store, a datastore and a disk that may
  fail at every call. Each method is proved to be a run of the step machine, so every theorem
  about runs holds of it, and each states what it does to the objects a client sees, to the snapshots
  and to the uploads, and that it succeeds when no call fails.
- **The lock table** (`LockTable`, `LockSteps`, `LockOrder`, `LockUse`): the two critical sections
  as methods of a class, their interleaving over any number of threads, the two-level lock order,
  and that the requests of the step machine keep to it.
- **The PBS client** (`Pbs`, `PbsClient`): retry loop, collision loop and forget against a server
  that fails by an arbitrary script.
- **Scratch staging and its garbage collection** (`Scratch`, `Staging`, `GarbageCollector`,
  `Completion`), over a disk that fails by an arbitrary script and records every intermediate state.
- **The metadata tables** (`KeyNames`, `Decimals`, `ByteOrder`, `Bolt`, `ObjectStore`,
  `MultipartStore`, `Grouping`, `Listing`): flat byte-sorted tables against nested maps, prefix
  scans, pagination, delimiter grouping.
- **Signatures** (`Text`, `HexNumbers`, `Signing`, `ChunkCodec`, `ChunkSafety`, `Chunked`,
  `Sorting`, `UriEncoding`, `CanonicalQuery`, `Authorization`, `Headers`, `Verification`, `Signer`,
  `Integrity`): AWS Signature Version 4 canonicalisation and verification, the independent signer,
  and the chunked payload reader.
- **Identifiers** (`Idmap`).

Where a loop of the code appears twice, the component module (`PbsClient`, `Staging`) says what
it does by itself, down to paths and invocations, and `Bridge` says what it is as part of a request.

## Assumptions

- PBS accepts a backup iff its time exceeds every time it ever accepted in the group, as
  `internal/pbs/client.go:171-174` documents. Transient, collision and not-found errors are disjoint classes.
- A multipart request names its upload's own bucket and key; `internal/backend/backend.go:382`
  and `:436` never compare them.
- Buckets contain no NUL byte; where a statement also needs NUL-free keys it says so.
- A PBS call whose context ends shows as a call that fails for good, except in `PbsClient`.
- Upload ids are fresh, contain no slash and are not `.` or `..`; the scratch root is a clean path.
- The TTL sweep takes no lock (`internal/stage/gc.go:47-64`); in the step machine it fires only on
  an upload that no request works on.
- HMAC-SHA-256, SHA-256 and MD5 are functions about which at most their result length is assumed.
  `Integrity.SignatureCoversRequest`, `Integrity.SignatureCoversPresigned` and `ChunkSafety.NothingButSent` name the collisions they exclude.
- Time stamp formats are parameters: a formatted time parses back and has no separators.
  `sort.Slice` and `sort.Strings` are modelled by a function that sorts.

## Where the text and the code differ

- `docs/ARCHITECTURE.md:39-40` says dots in a bucket become dashes. The code makes them slashes
  (`internal/idmap/sanitize.go:106-115`); so does the model.
- The comment at `internal/backend/backend.go:483-491` says final.img survives any failed commit.
  Line 132 removes it as soon as PBS.Backup succeeds: see `ProtocolRetry.FailedCommitKeepsFinalIff`
  for exactly when it survives, and `ProtocolRetry.MappingFailureLosesFinal` for a run that loses it.
- The comment at `internal/stage/staging.go:84-94` says a repeated Complete reuses final.img and is
  safe. It stores the same bytes exactly under the condition of `ProtocolRetry.RepeatsStoreTheSameIff`;
  and it reuses final.img even when a part was uploaded again in between and the call names the new
  ETag: see `ProtocolStale.StaleFinalIsStored` and `ProtocolContent.StoresListedPartsIff`.
- `internal/store/objects.go:62-65` lets a listing be resumed after any key. After the empty key it
  starts again, since an empty start means none: see `ObjectStore.PagesCoverListingIff`; the router admits no
  empty key (`internal/s3api/router.go:69-90`).
- `internal/sigv4/clock.go:22-31` is meant to reject times too far away in either direction. The
  difference is cut off at the most negative duration, which is its own negation, so times more than
  2^63 - 1 nanoseconds ahead pass: see `Verification.SkewExactly` and `Verification.FarFutureAccepted`.

## Model

| member | source | states |
|---|---|---|
| `ProtocolTheorems.SnapshotSafety` | internal/backend/backend.go:109-178 | in every reachable state of any interleaving, with failures and crashes, each mapping points to a live snapshot of its recorded size and ETag unless a DeleteObject has already forgotten it, and no two keys share a snapshot |
| `ProtocolTheorems.DoomedOnlyByDelete` | internal/backend/backend.go:257-281 | the only step that can take a mapped key's snapshot away is the forget call of a DeleteObject on that key |
| `ProtocolTheorems.StepsAreAtomic` | internal/backend/backend.go:160-173 | each step of a run either leaves the abstract map (bucket,key) -> bytes alone or performs one request's effect on it |
| `ProtocolTheorems.StoreIsReplay` | internal/backend/backend.go:109-178 | replaying the logged effects gives the abstract map, and no request has two effects |
| `ProtocolContent.PutTakesEffect` | internal/backend/backend.go:180-186 | a PutObject or Complete that reports success took effect exactly once, on its own key: a PutObject with its own body, a Complete with what it was to store (see the next row) |
| `ProtocolContent.CompleteStores` | internal/backend/backend.go:432-497 | a successful Complete has stored exactly once, under its own key, the final.img it found; or, when it found none, all its listed parts in order as they stood when it looked, with the listed ETag for each part whose last upload was not cut short |
| `ProtocolContent.StoresListedPartsIff` | internal/stage/staging.go:101-104 | a successful Complete has stored its listed parts as they stood iff it found no final.img when it looked, or found one that held just those bytes |
| `ProtocolStale.StaleFinalIsStored` | internal/stage/staging.go:101-104 | counterexample run, for all part bodies b1 and b2: upload b1, Complete failing at PBS.Backup and nothing else failing, upload b2 as the same part, Complete naming the ETag of b2: it succeeds and the object is b1 |
| `ProtocolTheorems.DeleteTakesEffect` | internal/backend/backend.go:274-280 | a DeleteObject that reports success removed its own key |
| `ProtocolTheorems.FailureLeavesObjects` | internal/backend/backend.go:109-178 | a request answered in any other way, or cut off by a crash before its effect, changes no entry of the abstract map; a failed DeleteObject may already have forgotten the snapshot (see DoomedOnlyByDelete), and then the key is doomed: mapped and not readable |
| `ProtocolTheorems.CrashAfterEffect` | internal/backend/backend.go:109-178 | a request cut off by a crash after its effect has had the effect it was asked for |
| `ProtocolTheorems.GetSeesOneVersion` | internal/backend/backend.go:205-223 | bytes delivered by a full GetObject are the version its mapping read saw, one the map held between arrival and answer |
| `ProtocolTheorems.DeleteCanBeRepeated` | internal/backend/backend.go:257-281 | from any reachable state in which the key is still mapped and its lock is free, a DeleteObject whose calls succeed removes the key, whatever earlier attempts left behind |
| `ProtocolTheorems.LocksExclude` | internal/backend/backend.go:96-134 | at most one request works on a key, and at most one PBS.Backup is in flight in a backup group |
| `ProtocolTheorems.DeadlockFree` | internal/backend/backend.go:57-74 | as long as some request is unfinished, some request can take a step |
| `ProtocolTheorems.FinalIsWhole` | internal/stage/staging.go:95-139 | an existing final.img is the whole concatenation one call made, with the listed ETag for every part whose last upload was not cut short |
| `ProtocolTheorems.RenameCopiedTheList` | internal/backend/backend.go:432-470 | the call that renames final.img has copied exactly its own part list in order, each part as its file stood when copying began |
| `ProtocolTheorems.MissingPartNeverCommits` | internal/stage/staging.go:112-131 | if a listed part's file is missing when copying begins, the concatenation never finishes |
| `ProtocolTheorems.CommitIsWhole` | internal/backend/backend.go:472-481 | when a completing commit writes its mapping, the new snapshot holds a whole concatenation |
| `ProtocolRetry.FailedCommitKeepsFinalIff` | internal/backend/backend.go:123-165 | over every run from the end of PBS.Backup to the failure of a completing commit: final.img still holds the bytes to commit iff PBS.Backup failed or the removal of the file after it failed; otherwise it is gone |
| `ProtocolRetry.FailedBackupKeepsFinal` | internal/backend/backend.go:481-494 | after a failed PBS.Backup the next step of the call answers with an error and leaves final.img with the bytes it tried to commit |
| `ProtocolRetry.RepeatsStoreTheSameIff` | internal/backend/backend.go:481-494 | from a reachable state in which PBS.Backup has returned to a completing commit: over every further run in which no part of the upload is opened and every call completing it carries the same list, such calls store the bytes that this one tried to store or nothing, iff the listed part files are not all there or make up those bytes |
| `ProtocolRetry.RepeatsStoreTheSame` | internal/stage/staging.go:84-94 | in particular when the failed call concatenated the parts itself |
| `ProtocolStale.RepeatsMayDiffer` | internal/stage/staging.go:84-94 | a reachable state in which the condition fails, for all different part bodies: final.img holds an earlier upload of a part that is still there |
| `ProtocolRetry.MappingFailureLosesFinal` | internal/backend/backend.go:129-165 | counterexample to the comment that final.img survives every failed commit: it is removed as soon as PBS.Backup succeeds, so a failed mapping write leaves nothing to retry with |
| `ProtocolWaste.SnapshotsAreAccountedFor` | internal/backend/backend.go:160-175 | over every run: a live snapshot is pointed to by a key, or else a running request still has to map or forget it, or a failed call or a crash left it behind for good (a backup that took effect although it failed, a mapping that could not be read or written, a superseded snapshot that could not be forgotten); never both |
| `ProtocolWaste.NothingElseIsLive` | internal/backend/backend.go:160-175 | so when all requests are over and nothing was left behind, the live snapshots are exactly those of the mapped keys that no delete has doomed: every overwrite has forgotten the snapshot it superseded |
| `ProtocolWaste.UntroubledLeavesNothing` | internal/backend/backend.go:109-178 | a run without a failing call or a crash leaves no snapshot and no upload record behind |
| `ProtocolWaste.CompletedIsOffTheRecords` | internal/backend/backend.go:495-510 | after a Complete reports success its upload is off the records for good, with its part records, unless deleting the record failed, and its directory is gone unless a removal failed |
| `ProtocolTheorems.RecordsCoverScratch` | internal/store/multipart.go:73-106 | part records belong to recorded uploads, scratch files lie in existing directories, and a directory without a record has had a failed removal |
| `ProtocolTheorems.DirectoriesHaveRecords` | internal/backend/backend.go:283-301 | when no directory removal fails, a scratch directory exists only while its upload is on record |
| `ProtocolTheorems.ReconcileSparesLiveUploads` | internal/stage/gc.go:68-99 | startup reconciliation, interleaved with requests, never removes the directory of a recorded upload nor one a request works in |
| `ProtocolRuns.ApplyKeeps` | internal/backend/backend.go:96-523 | every step of every request, lock, crash, sweep and reconciliation keeps the whole invariant |
| `ProtocolRuns.ReachableInv` | internal/backend/backend.go:96-523 | the invariant holds in every reachable state |
| `Bridge.Backend.PutObject` | internal/backend/backend.go:180-186 | the method is a run of the protocol; on success the key points to a new live snapshot of the body, on failure no mapping changes; whatever fails, no live snapshot is lost but the one superseded; when no call fails and the clock is in reach it succeeds, the superseded snapshot is gone, no other snapshot was added and the temporary file is removed |
| `Bridge.Backend.CommitObjectLocked` | internal/backend/backend.go:109-178 | the same of the part from the clock read on, with one effect in the log on success and none on failure |
| `Bridge.Backend.Backup` | internal/pbs/client.go:175-205 | the nested loops are the protocol's backup steps and lose no snapshot; when failing calls have no effect and fail transiently, the backup gets the first free one of the six times from now on unless the last three calls all failed |
| `Bridge.Backend.BackupWithRetry` | internal/pbs/client.go:138-162 | every invocation but the last failed transiently, there are at most three, a transient error is reported only after three, and the error is the last invocation's own; without effects of failed calls a verdict is that of the first invocation |
| `Bridge.Backend.ForgetSuperseded` | internal/backend/backend.go:171-175 | the superseded snapshot is gone afterwards unless the last call failed without effect, for good or as the third transient failure; every other snapshot stays; the commit's outcome does not change |
| `Bridge.Backend.DeleteObject` | internal/backend/backend.go:257-281 | the method is a run of the protocol; on success, and only then, the key leaves the mappings and its snapshot is gone; no other snapshot is ever lost; NotFound only when it was not there; without failures one of the two, and of an object that was not there all uploads go |
| `Bridge.Backend.AbortMatchingUploads` | internal/backend/backend.go:287-301 | the clean-up loop is a run of the protocol, leaves every object and every upload for another key alone, and without failures leaves nothing of the uploads for this key |
| `Bridge.Backend.GetObject` | internal/backend/backend.go:205-223 | changes nothing and delivers the bytes the object map holds for the key, NotFound exactly when it holds none, or an error; no error when no call fails and no delete has forgotten the snapshot |
| `Bridge.Backend.CreateMultipartUpload` | internal/backend/backend.go:358-376 | records a fresh upload for the key, or changes nothing; without failures it records |
| `Bridge.Backend.UploadPart` | internal/backend/backend.go:378-403 | on success the part's file holds the body and its record the body's digest; on failure no record changes and the part's file is as it was, gone, or, where it could not be removed, a first piece of the body; nothing else changes; without failures it succeeds for a recorded upload |
| `Bridge.Backend.CompleteMultipartUpload` | internal/backend/backend.go:432-497 | refused, it changes nothing; when the parts cannot be put together, and after success, nothing of the upload is left unless one of the last two calls failed; a failed commit keeps the upload's records and no other bytes in final.img; success stores an existing final.img or the listed, recorded parts in order in the superseded snapshot's place; no other upload is touched; without failures, which of these happens follows from the record, the list and the files |
| `Bridge.Backend.CleanupUpload` | internal/backend/backend.go:503-510 | when neither call fails nothing of the upload is left; every other upload is as it was |
| `Bridge.Backend.ConcatParts` | internal/stage/staging.go:95-139 | the copying loop is a run of the protocol and yields an existing final.img or all listed parts in order, or nothing |
| `Bridge.Backend.AbortMultipartUpload` | internal/backend/backend.go:512-523 | on success nothing of the upload is left; otherwise its record and parts stay; no other upload is touched; without failures it succeeds for a recorded upload |
| `LockTable.KeyedMutex.Register` | internal/store/lock.go:28-36 | the table section of Lock keeps counts exact and returns the one entry of the key |
| `LockTable.KeyedMutex.Deregister` | internal/store/lock.go:38-47 | the table section of unlock keeps counts exact and drops the entry exactly when nobody is left |
| `LockTable.KeyedMutex.NoLeak` | internal/store/lock.go:38-47 | once every call has been unlocked the table is empty |
| `LockSteps.ApplyKeeps` | internal/store/lock.go:27-48 | every statement of every thread keeps the lock-table invariant |
| `LockSteps.MutualExclusion` | internal/store/lock.go:27-48 | at most one thread holds a key, although entries are deleted and recreated while threads wait |
| `LockSteps.CountsAreExact` | internal/store/lock.go:27-48 | an entry's count is the number of threads registered on it, and outside the table section an entry exists iff the count is positive |
| `LockSteps.NoLeak` | internal/store/lock.go:27-48 | when all threads have unlocked, the table is empty |
| `LockOrder.NamesAreDisjoint` | internal/backend/backend.go:57-74 | with NUL-free buckets and keys no (bucket,key) lock is a group lock |
| `LockOrder.LockKeyInjective` | internal/backend/backend.go:57-57 | with NUL-free buckets different objects have different locks |
| `LockOrder.CollisionIffKeyHasNuls` | internal/backend/backend.go:57-74 | with only the bucket NUL-free, exactly which (bucket,key) locks coincide with some group lock |
| `LockOrder.DeadlockFree` | internal/store/lock.go:27-48 | threads that take at most one key lock and then at most one group lock never deadlock on the lock table |
| `LockUse.LocksInOrder` | internal/backend/backend.go:57-134 | every reachable state of the protocol, with NUL-free names, has a lock-table state reached by a run in that lock order, in which each running request's thread holds exactly the locks the request holds and has called Lock for the one it waits for |
| `LockUse.NoLockDeadlock` | internal/backend/backend.go:57-134 | so as long as a request holds or waits for a lock, some thread of that lock-table state can take a step |
| `LockOrder.ReentryDeadlocks` | internal/backend/backend.go:101-108 | a second Lock of a held key by the same thread blocks forever |
| `PbsClient.AllocateIff` | internal/pbs/client.go:175-205 | without failures a backup succeeds iff high+1 <= now+5 and then gets max(now, high+1) |
| `PbsClient.SerialTimesIncrease` | internal/pbs/client.go:171-205 | serialized backups of a group get strictly increasing times whatever the clock does |
| `PbsClient.SameClock` | internal/pbs/client.go:175-205 | how many of n serialized backups with one clock read succeed, from any high-water time in reach |
| `PbsClient.AtMostSixPerSecond` | internal/pbs/client.go:175-205 | at most six backups of a fresh group succeed with the same clock read |
| `PbsClient.Client.Backup` | internal/pbs/client.go:175-205 | at most 18 invocations, each failing one but the last transient and within the context; on success the returned time's snapshot holds the bytes; no snapshot is ever lost or changed and at most one same-content snapshot per tried second is added; when failing calls have no effect, are transient, and never three in a row, and the context lasts: exactly the allocated time and nothing else changed |
| `PbsClient.Client.RunWithRetry` | internal/pbs/client.go:138-162 | every invocation but the last failed transiently within the context; the error is the last one's own; a transient error only after three invocations or when the context ended; the command takes effect once if any invocation reached the server, else not at all; waits of 0, 250 or 1000 milliseconds by the number of invocations |
| `PbsClient.Client.Forget` | internal/pbs/client.go:412-422 | nil exactly when the last invocation did not fail, and then the snapshot is gone; it goes iff some invocation took effect; no other snapshot changes; nil whenever failing calls are transient, without effect, and never three in a row |
| `Staging.Manager.PathsAreDistinct` | internal/stage/staging.go:176-178 | part files of different uploads or numbers, final.img and its temporary name never coincide |
| `Staging.Manager.OwnDirectory` | internal/stage/staging.go:65-67 | an upload's files lie in its own directory and in no other upload's |
| `Staging.Manager.ConcatParts` | internal/stage/staging.go:95-139 | at every moment and whatever goes wrong final.img is what it was or the whole concatenation; an existing one is taken as it is; other files stay, listed ones stay or go; without failures it succeeds exactly when a final.img is there or all listed files exist and are distinct |
| `Staging.Manager.CopyParts` | internal/stage/staging.go:112-129 | the copying loop: success means every listed file was appended in order, and without failures it succeeds iff all exist and are distinct |
| `Staging.Manager.HashExistingFile` | internal/stage/staging.go:141-152 | opens the file and reads it through: its digest, and the size it is told, unless one of the two fails |
| `Staging.Manager.WritePart` | internal/stage/staging.go:183-204 | on success the part's file holds the body; on failure it is as before, gone or a prefix of the body; nothing else changes |
| `Staging.Manager.RemoveUploadDir` | internal/stage/staging.go:70-72 | removes the upload's scratch and leaves every other upload's alone |
| `GarbageCollector.GC.Sweep` | internal/stage/gc.go:47-64 | with any store or disk call failing: removes records and parts only of uploads with no activity since the cutoff, of all of them when no store call fails, their scratch unless the disk fails, and nothing of any other upload |
| `GarbageCollector.GC.ReconcileOnStartup` | internal/stage/gc.go:68-99 | never touches a recorded upload's scratch; afterwards no other directory is left unless the disk or the listing of records fails |
| `Completion.CheckParts` | internal/backend/backend.go:440-470 | the list is accepted iff it is non-empty, strictly ascending from 1, recorded, and carries the recorded ETags; the paths are those of the listed parts |
| `Completion.ListedPartsComplete` | internal/backend/backend.go:405-470 | a non-empty ListParts result always passes Complete's checks |
| `ByteOrder.PrefixContiguous` | internal/store/objects.go:75-76 | keys with one prefix are contiguous in byte order |
| `ByteOrder.LessIff` | internal/store/objects.go:75-76 | byte order is decided by the first difference, and a string precedes its extensions |
| `Bolt.Cursor.PrefixKeys` | internal/store/multipart.go:83-86 | Seek and Next visit exactly the keys with the prefix, in order |
| `Bolt.SortedUnique` | internal/store/objects.go:66-92 | a set of keys has only one ascending listing |
| `ObjectStore.DB.Refines` | internal/store/bbolt.go:80-82 | with NUL-free buckets the flat table has an entry exactly where the nested one has |
| `ObjectStore.DB.PutObjectMapping` | internal/store/objects.go:29-37 | sets one entry of the nested table |
| `ObjectStore.DB.GetObjectMapping` | internal/store/objects.go:39-49 | looks one entry of the nested table up |
| `ObjectStore.DB.DeleteObjectMapping` | internal/store/objects.go:51-60 | removes one entry of the nested table, or reports that there is none |
| `ObjectStore.DB.HitsAreListed` | internal/store/objects.go:66-92 | the flat prefix scan lists the same keys in the same order as the nested table |
| `ObjectStore.DB.ListObjects` | internal/store/objects.go:66-92 | the first maxKeys matching keys after startAfter in byte order, with their mappings; isTruncated exactly when there are more |
| `ObjectStore.NextPage` | internal/store/objects.go:66-92 | what is listed after a full page's last key is the rest of the listing, unless that key is empty |
| `ObjectStore.PagesCoverListingIff` | internal/store/objects.go:62-92 | for every table and page size, repeating the scan from the last returned key comes to an end with every matching key exactly once, in order, iff not: page size one, no prefix, listing from the start, an object with the empty key, and more objects in the bucket |
| `Grouping.GroupingPartitions` | internal/backend/backend.go:311-333 | every listed key is listed itself or lies under exactly one common prefix, and no common prefix extends another |
| `Grouping.GroupsInOrder` | internal/backend/backend.go:311-325 | keys of different groups are in the order of their common prefixes, so the prefixes need no sorting |
| `Listing.ListObjects` | internal/backend/backend.go:303-333 | of the first 4 maxKeys keys, those up to the first that is to be listed as an object with maxKeys objects and common prefixes before it, each as itself or under its common prefix, in order; truncated exactly when that is not every matching key |
| `Grouping.FittingIsWhole` | internal/backend/backend.go:303-333 | with at most 4 maxKeys matching keys and at most maxKeys objects and common prefixes in all, the listing is not truncated and both lists are full |
| `Grouping.ListingIsInitial` | internal/backend/backend.go:303-333 | both lists are initial segments of the full sorted lists, and the full lists when not truncated |
| `Grouping.FlatIsFirstKeys` | internal/backend/backend.go:303-333 | without a delimiter a listing is the first maxKeys keys, truncated iff there are more |
| `Grouping.GroupsAreNotLimited` | internal/backend/backend.go:311-325 | where all matching keys are grouped and there are at most 4 maxKeys, all their common prefixes are listed, even more than maxKeys |
| `Listing.IndexOf` | internal/backend/backend.go:335-342 | the first occurrence, or -1 exactly when there is none |
| `MultipartStore.PartKeyInjective` | internal/store/bbolt.go:84-86 | with slash-free ids a part key determines upload and number, and has another id's prefix only if it is that id |
| `MultipartStore.PartKeyOrder` | internal/store/bbolt.go:84-86 | part keys of one upload sort bytewise as their numbers sort, up to eight digits |
| `MultipartStore.CascadeIsExact` | internal/store/multipart.go:73-96 | removing the keys under an upload's prefix removes exactly that upload's parts |
| `MultipartStore.ScanListsParts` | internal/store/multipart.go:110-125 | the scan lists each part of the upload once, in strictly ascending numeric order |
| `MultipartStore.DB.DeleteUpload` | internal/store/multipart.go:73-96 | removes the record and exactly its own parts, or reports that there is no record |
| `MultipartStore.DB.PutPart` | internal/store/multipart.go:98-106 | sets one entry of the nested table upload -> number -> part |
| `MultipartStore.DB.ListParts` | internal/store/multipart.go:108-125 | all parts of the upload, each once, by number |
| `MultipartStore.DB.TouchUpload` | internal/store/multipart.go:52-70 | changes the time of last activity and nothing else |
| `MultipartStore.DB.ListUploadsOlderThan` | internal/store/multipart.go:129-144 | exactly the uploads with no activity since the cutoff |
| `MultipartStore.DB.FindUploadsByBucketKey` | internal/store/multipart.go:152-167 | exactly the uploads for the object |
| `MultipartStore.DB.ListAllUploadIDs` | internal/store/multipart.go:171-180 | every upload id once, in byte order |
| `Decimals.PaddedValue` | internal/store/bbolt.go:84-86 | a zero-padded numeral reads back as its number |
| `ChunkCodec.ChunkRoundTrip` | internal/sigv4/chunked_test.go:25-39 | the reader takes back what the writer printed for one chunk, whatever follows |
| `ChunkCodec.HeadVerdict` | internal/sigv4/chunked.go:99-125 | what a header line with any size and any signature field is taken for: an unreadable size, one above 256 MiB, no signature, or the size and signature |
| `ChunkCodec.ChunkTextIs` | internal/sigv4/chunked.go:151-161 | the string to sign of a chunk, letter by letter |
| `ChunkCodec.RoundTrip` | internal/sigv4/chunked_test.go:25-44 | decoding the signed encoding of any non-empty chunks up to 256 MiB gives them back and then a clean end, from any seed |
| `ChunkSafety.TruncationSurfaces` | internal/sigv4/chunked.go:86-149 | cutting an input that ends cleanly: it still ends cleanly iff all bytes up to that end are there, and it never delivers anything else |
| `ChunkSafety.CutOffEncoding` | internal/sigv4/chunked.go:86-149 | every strict prefix of a signed encoding ends in an error after delivering an initial part of the chunks |
| `ChunkSafety.DeliveredIsChain` | internal/sigv4/chunked.go:86-161 | on any input everything delivered is the data of one verified signature chain from the seed, and the end is clean iff the chain ends with a verified empty chunk |
| `ChunkSafety.NothingButSent` | internal/sigv4/chunked.go:133-139 | if every accepted signature is one the writer issued, none of those is the seed, and the hash functions do not collide on these chunks: what is delivered is an initial part of what was sent, all of it at a clean end |
| `Chunked.ChunkedReader.Read` | internal/sigv4/chunked.go:68-84 | delivers at least one pending byte when there is room, reports the end or the error only when nothing is pending, and keeps reporting it |
| `Chunked.ChunkedReader.NextChunk` | internal/sigv4/chunked.go:86-149 | takes exactly one verified chunk off the input, or fails without delivering |
| `Chunked.SendAndReceive` | internal/sigv4/chunked_test.go:54-73 | for every sequence of positive buffer sizes, reading what the writer sent gives the concatenated chunks and a clean end |
| `HexNumbers.SizeRoundTrip` | internal/sigv4/chunked.go:103-106 | a printed chunk size is parsed back |
| `HexNumbers.SizesAreHexadecimal` | internal/sigv4/chunked.go:103-106 | chunk sizes are read in base sixteen, in either case of letters, with a sign and without a prefix |
| `UriEncoding.UriEncode` | internal/sigv4/canonical.go:84-99 | the loop encodes byte by byte |
| `UriEncoding.EncodingRoundTrip` | internal/sigv4/canonical.go:84-99 | percent-encoding can be undone |
| `UriEncoding.EncodingInjective` | internal/sigv4/canonical.go:84-99 | different byte strings have different encodings |
| `UriEncoding.EncodedAlphabet` | internal/sigv4/canonical.go:67-99 | encoded text has unreserved bytes, percent signs and kept slashes only |
| `UriEncoding.EncodingIff` | internal/sigv4/canonical.go:67-99 | the encoding of s is the one text that reads back as s in which unreserved bytes (and kept slashes) stand for themselves and every other byte is a percent sign and two upper-case hexadecimal digits |
| `UriEncoding.UnreservedAre` | internal/sigv4/canonical.go:67-82 | the unreserved bytes are the 66 characters of section 2.3 of RFC 3986 |
| `CanonicalQuery.CanonicalQueryString` | internal/sigv4/canonical.go:113-136 | the loops, in any order of names, give the canonical form, and it reads as the query (see the next row) |
| `CanonicalQuery.CanonicalReadsBack` | internal/sigv4/canonical.go:113-136 | only unreserved bytes, '&' and '=' stand for themselves, so no slash does; splitting at '&' and '=' gives escaped names and values in ascending order as they stand, and percent-decoding them gives each parameter not excluded as often as it was given, and no other |
| `CanonicalQuery.CanonicalIffSameParameters` | internal/sigv4/canonical.go:113-136 | two queries have the same canonical form iff the same pairs occur equally often among the parameters not excluded |
| `Headers.CollapsedHasNoRuns` | internal/sigv4/canonical.go:160-176 | collapsing leaves no tabs and no two spaces in a row, and leaves values without them alone |
| `Headers.CollapsedKeepsWords` | internal/sigv4/canonical.go:160-176 | collapsing keeps the words of a value, in order |
| `Authorization.TrimSpaceIs` | internal/sigv4/canonical.go:160-176 | trimming takes white space from both ends, all of it and nothing else |
| `Headers.CollapseSpaces` | internal/sigv4/canonical.go:160-176 | the loop computes the collapsed value |
| `Headers.CanonicalHeaders` | internal/sigv4/canonical.go:181-196 | the loop gives one line for each sorted name, or fails exactly when a named header is missing |
| `Headers.LinesAre` | internal/sigv4/canonical.go:181-196 | the lines are name, colon and value, one for each name in its place, and there are none exactly when some named header is missing |
| `Headers.OrderOfNamesIrrelevant` | internal/sigv4/canonical.go:181-196 | the order of the signed header names does not matter |
| `Signing.CredentialRoundTrip` | internal/sigv4/canonical.go:45-63 | a credential is read back as the scope it was printed from iff no part has a slash |
| `Signing.SignatureIs` | internal/sigv4/canonical.go:216-245 | the string to sign and the signing key, letter by letter |
| `Authorization.ParseAuthorizationHeader` | internal/sigv4/verify.go:54-79 | the loop over the fields computes the parsed header |
| `Authorization.PrintParse` | internal/sigv4/verify.go:50-79 | a printed Authorization header is parsed back to its three values |
| `Verification.SkewExactly` | internal/sigv4/clock.go:22-31 | exactly which signing times pass the skew check, wrap-around of the most negative duration included |
| `Verification.FarFutureAccepted` | internal/sigv4/clock.go:22-31 | a signing time in the wrap-around branch: January 3000, seen in July 2025 with fifteen minutes of tolerance |
| `Verification.ExpiryExactly` | internal/sigv4/clock.go:36-48 | from when until when a presigned request is valid, for validities up to 18446744073 seconds, those that overflow a 64-bit duration included |
| `Verification.CredentialVerdict` | internal/sigv4/verify.go:110-120 | a well-formed credential is rejected as unknown key, else as invalid for another service, else taken as its scope |
| `Verification.OtherTextIsInvalid` | internal/sigv4/canonical.go:45-59 | any other text is an invalid argument |
| `Signer.HeaderIffInTime` | internal/testsign/signer.go:127-186 | a request signed in the header is accepted exactly while the verifier's clock passes the skew check, and otherwise rejected as too skewed |
| `Signer.HeaderVerdict` | internal/sigv4/verify.go:124-155 | of all signatures a request signed in time could carry, the signer's is accepted and every other is SignatureDoesNotMatch |
| `Signer.PresignedIffInTime` | internal/testsign/signer.go:196-234 | a presigned request is accepted exactly while it is valid, and otherwise rejected as expired |
| `Signer.PresignedVerdict` | internal/sigv4/presign.go:52-79 | the same of presigned requests |
| `Signer.HeadersAgree` | internal/testsign/signer.go:146-157 | the verifier builds the canonical headers that the signer signed |
| `Integrity.CanonicalRequestInjective` | internal/sigv4/canonical.go:200-209 | a canonical request can be taken apart although its header block has newlines of its own |
| `Integrity.SignatureCoversRequest` | internal/sigv4/verify.go:97-155 | two accepted requests with one Authorization header agree in method, path, query parameters, signed headers and payload hash, unless a hash function collides on them |
| `Integrity.AcceptedSignature` | internal/sigv4/verify.go:97-155 | an accepted request names the configured key and service, was signed within the skew, and carries the signature of exactly its own canonical request |
| `Integrity.SignatureCoversPresigned` | internal/sigv4/presign.go:12-81 | two accepted presigned requests with the same credential, signed-header list and signature agree in method, path, signed headers and every query parameter but the signature, unless a hash function collides on them |
| `Idmap.SanitizeIsIdempotent` | internal/idmap/sanitize.go:26-43 | every key gets a non-empty id of at most 60 valid characters, and an id is its own id |
| `Idmap.IdOf` | internal/idmap/sanitize.go:26-43 | the id of a key is the key without its extension if that is an id already, and otherwise what is shown of it, a dash and eight digits of its digest |
| `Idmap.ShownIs` | internal/idmap/sanitize.go:73-95 | what is shown: up to 51 characters of the key without its extension, each that no id has as an underscore, or "key" for an empty one |
| `Idmap.SharedIds` | internal/idmap/sanitize.go:26-43 | exactly when two keys share an id: clean keys when they differ in a known extension only, others when their first 51 sanitised characters and eight digest digits agree, a clean one and another when it looks like the other's id |
| `Idmap.NotInjective` | internal/idmap/sanitize.go:64-71 | every id is the id of itself and of itself with any known extension |
| `Idmap.GroupOfSegment` | internal/idmap/sanitize.go:45-62 | all keys with one first segment share the group of that segment, and a key without a slash is its own segment |
| `Idmap.NamespaceLevels` | internal/idmap/sanitize.go:106-115 | the levels of a namespace are the non-empty dot-separated parts of the bucket |
| `Idmap.LevelsAre` | internal/idmap/sanitize.go:106-115 | a dot ends one level and begins another, a name without dots is one level, an empty one none |
| `Idmap.SanitizeNamespace` | internal/idmap/sanitize.go:106-115 | the loop drops empty parts and joins the rest with slashes |

## Left out

- Process execution, pipes, context timeouts, RestoreStream's peek and kill, ranged restores and the
  text matching in `internal/pbs/errors.go`: PBS is a store with abstract error classes.
- HTTP handlers, routing, XML, configuration and logging. A GET takes its headers from an earlier
  HeadObject than its body (`internal/s3api/get_object.go:18-51`), so no atomicity is claimed there.
- parseRange and range slicing.
- bbolt internals, JSON encoding and failing store reads outside the step machine: tables are maps
  under atomic transactions; `Bridge` and the step machine do let every store call fail.
- Paging through a delimited listing: common prefixes are not capped by maxKeys and there is no
  continuation token; `Listing.ListObjects` says what one page is.
- The TTL sweep racing a request, and multipart requests whose bucket or key differ from the upload's.
- Several processes over one store: locks live in one process.
- WriteToTemp and TempFilePath by themselves: a temporary file is named by the request that made it.
- Unicode in header names and white space beyond ASCII; keys in `Idmap` are sequences of characters, not of bytes.
- `Bridge.Backend.UploadPart`: a part file caught half-written by another request is a state of the step machine only, since the method runs with no other request beside it.
- The independent signer of `internal/testsign/signer.go` has its own canonicalisation, sorting and hexadecimal code;
  `Signer` uses one definition for both sides, so the two programs' agreement on those parts is not a theorem.
- `Bridge.Backend.CommitObjectLocked`: the locks of `LockTable` are the step machine's lock steps here; blocking on them is covered by `LockSteps` and `LockOrder`.
- `Staging.Manager.RemoveUploadDir`: which files a failing removal leaves is arbitrary.
- `Verification.SkewExactly`: tolerances of 2^63 - 1 nanoseconds and more are not covered.

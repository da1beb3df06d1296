# A model of the cache server's storage stack

The server keeps build-cache entries in a stack of wrappers around one simple contract: `Head`, `Get`, `Put` and
`Delete` on a map from keys to bytes. From the outside in, `app/config.go` builds single-flight de-duplication, an
optional in-memory LRU cache, a hybrid of local files and S3 with optional asynchronous upload, and a circuit breaker
around S3. Each layer is meant to be invisible except for speed or safety. This project models each layer as the code
writes it and proves how far that is so: in every interleaving, over every run, and with an exact condition wherever
the layer can be seen.

A layer whose calls overlap is a state machine: a `State`, a `Label` for each step another thread can come between,
`Next`, and `Exec` over sequences of labels. Theorems quantify over every run of it. A layer that is an object changing
its own fields is also a class; each method of the class is proved against a function of the old state, and the
theorems are about that function or about the machine whose runs the function is. The method also says outright what
the new state and the reply are, and lemmas named `...IsWhole` or `...Runs` give the run of the machine that a call is
when nothing comes in between.

| file | content |
|---|---|
| `Base.dfy`, `Arithmetic.dfy`, `CallKinds.dfy` | shared types; facts about products and quotients; which kinds of calls may overlap |
| `FileSystem.dfy`, `History.dfy` | inodes, paths and directories; what it means for a log of calls to be atomic |
| `SingleFlightLocal.dfy`, `SingleFlightLocalProofs.dfy`, `SingleFlightLocalWitnesses.dfy`, `SingleFlightLocalTheorems.dfy`, `SingleFlightLocalAlone.dfy`, `SingleFlightFollowers.dfy`, `Local.dfy` | single-flight over local files: the machine, its invariant, runs that break it, its theorems, calls that run alone, callers that join a flight; the `Local` object |
| `AsyncUpload.dfy`, `AsyncAccounting.dfy`, `AsyncTermination.dfy`, `AsyncCrash.dfy`, `AsyncAcknowledged.dfy`, `AsyncDurability.dfy`, `AsyncConvergence.dfy`, `AsyncDivergence.dfy`, `AsyncUploader.dfy`, `AsyncWhole.dfy` | the hybrid backend with asynchronous upload, a local write being one step: the machine, its theorems by subject, runs that diverge; the uploader object; calls and retries that run alone |
| `HybridFiles.dfy`, `HybridFilesRealized.dfy`, `HybridFilesTheorems.dfy`, `HybridFilesOverlaps.dfy` | the same machine over the files, a local write being its file-system calls: that neither does more than the other, what carries over, and what overlapping local writes do |
| `Hybrid.dfy`, `HybridCalls.dfy`, `HybridWhole.dfy` | the two tiers with synchronous upload: calls one after another; overlapping calls; that the two agree, and what callers are told |
| `LruCache.dfy`, `LruCalls.dfy`, `LruMemory.dfy` | the in-memory cache: coherence over calls one after another; overlapping calls; memory |
| `CircuitBreaker.dfy`, `BreakerCalls.dfy`, `BreakerOutage.dfy` | the breaker object and its history; many calls at once; what an open breaker lets through |
| `CachePath.dfy`, `CachePathForms.dfy`, `StoredKeys.dfy` | from request path to storage key to file; what the parser makes of every path; which sets of keys are served atomically |
| `RateLimiter.dfy`, `RateRefusals.dfy` | one limiter for each address, and the rates; exactly which requests are refused |

## What the proofs show

Each is stated as a lemma, with the exact condition or a concrete run.

- Single-flight over local files is atomic in every run in which no two Puts of one key overlap if and only if the keys
  are separate (`AtomicWhenLoneExactly`), and in every run at all if and only if, besides, no writer bypasses the flight
  table (`AtomicExactly`). For requested keys, separate means that no key is another one followed by `.tmp`, by `/`
  and more, or by `.tmp/` and more (`ServedAtomicallyExactly`). All of these happen: `k` and `k.tmp` can both be
  requested (`TmpKeyNameableExactly`); so can `c/a` and `c/a/b`, and then a Head of `c/a` reports the directory
  (`NestedKeysCollide`); and a backfill, which bypasses the table, can truncate the file that a Put of its key is about
  to publish (`TornBackfillIsSeen`).
- The hybrid backend keeps its acknowledged entries, and nothing but their bytes, in every content-addressed run over
  these files if and only if no two local writes of one key overlap, be they of Puts or of backfills
  (`IntactExactly`). Single-flight keeps Puts apart and nothing keeps backfills apart: an emptied file can be uploaded
  over the good object and the Put still be acknowledged (`TornUpload`). Without such overlap each local write is one
  step, and everything proved of the upload machine holds of the files (`Simulates`); and whatever that machine can do
  with the keys, the files can do (`Realizes`).
- Nothing of this holds for want of success: from any state such runs reach, a call that runs alone and is served
  succeeds with exactly the map's result (`GetDelivers`, `PutStores`, ...), and only a fault, a copy error or a reader that
  gives up makes a call fail (`FailuresAreFaults`).
- A caller that joins a flight is promised an act during its own call if and only if the leader had no outcome when it
  joined (`ActsInFollowersCallExactly`). Later followers are promised less: a Put can succeed with nothing stored, and
  a Head can miss an entry stored before it asked (`FollowerPutMayStoreNothing`, `FollowerHeadMayBeStale`).
- Asynchronous upload makes S3 agree with the local store in every run whose steps keep to a guard, with any number of
  workers, fallbacks, backfills, evictions and deletes (`GuardedConverges`); and after any step that breaks the guard the
  uploads under way can all succeed and leave them apart (`BrokenGuardDiverges`). Reads for an upload, fallbacks,
  backfills and deletes can break it (`ReadCanBreak`, `FallbackCanBreak`, `BackfillCanBreak`, `DeleteCanBreak`);
  evictions cannot. With one worker no worker's read does, and that is exact (`ConvergesExactly`).
- From the moment `Stop` has closed the queue, the program can still crash by a send on it exactly when a retry sleeps, an
  Enqueue is past its check, or an item with a try left is queued or in a worker's hands (`CrashAfterCloseExactly`); it
  happens after `Stop` has returned, without any failure (`CrashAfterStopIsReached`).
- `LRUCache`'s comment says the total is bounded by `maxTotalSize`; for every pair of positive limits some run exceeds
  it, and the exact maximum is the capacity times the largest admitted entry, up to twice the budget and a remainder
  (`BudgetAlwaysExceeded`, `MemoryBoundReached`, `TwiceTheBudget`).
- The cache can serve what the backend does not hold. Of calls one after another exactly those of
  `LruCache.BecomesStaleExactly` begin it and those of `StalenessEndsExactly` end it; with overlapping calls it is the
  halves of calls of `LruCalls.BecomesStaleExactly`. A key with no call under way is in good order in every such run if and
  only if no Put of it overlaps a mutation or a Get of it, and no Delete a Get (`FreshExactly`); so a Put in the middle of
  a Delete goes on being served though it is removed (`LruCalls.PutDeleteIsSeen`). Even alone, an acknowledged Put is read
  back only if it is cached or nothing else was (`AcknowledgedReadsBack`).
- `maxEntrySize` = 1 divides by zero (`SizingFailsExactly`).
- The breaker's comment speaks of "a probe"; after the cooldown any number of calls get through together
  (`ProbesAreUnbounded`), and a Get that S3 answers with a miss does not close it (`MissesNeverClose`). What an
  outage lets through is bounded per client (`OutageRateManyClients`).
- A request is refused exactly when some window that ends now has no room for it in the burst and what the window earns
  (`RefusedExactly`, `TurnedAwayExactly`). A global rate limit below one half a second lets no request through, ever
  (`GlobalRateAdmitsExactly`).
- A cache called `.` reaches the files of other caches under different storage keys (`SameFileExactly`).
- With synchronous upload the two tiers keep to one map in every interleaving if and only if no Put of a key overlaps a
  mutation or a Get of it, and no Delete a Get (`QuietExactly`); of these, single-flight rules out only that two Puts overlap.
- The feature list promises a fallback to local storage when S3 is degraded; with synchronous upload a Put whose upload
  fails returns an error although the entry is stored locally, and an eviction then brings the old content back
  (`FailedPutSettledExactly`, `FailedPutReverts`). The code is followed.

## Model

| member | source | states |
|---|---|---|
| SingleFlightLocalTheorems.AtomicWhenLoneExactly | app/storage/local.go:118-210 | every interleaving of single-flight over local files, with or without writers that bypass the table, in which no Put of a key creates its tmp file while another of that key is writing, has an atomic log (Put acts at rename, Get at open, Head at stat, Delete at remove) if and only if the keys are separate (no key's file is the root, another's file or tmp file, or a directory on the way to another's file, and no tmp file is such a directory) |
| SingleFlightLocalTheorems.AtomicExactly | app/storage/singleflight.go:25-51 | every interleaving at all has an atomic log if and only if, besides, no writer bypasses the table |
| StoredKeys.ServedAtomicallyExactly | app/cache_path.go:22-45 | for keys that requests name, other than through ".": atomic in every run if and only if no key is another one followed by ".tmp", by "/" and more or by ".tmp/" and more, and no writer bypasses the table; atomic in every run without overlapping Puts of one key if and only if the first of these holds |
| StoredKeys.CollidesExactly | app/storage/local.go:173-176 | the files of two such keys are in each other's way exactly when one key is the other followed by one of these |
| StoredKeys.NestedKeysCollide | app/storage/local.go:127-134 | the keys c/a and c/a/b can both be requested, and no store with both is atomic, even without overlapping Puts of one key |
| StoredKeys.SharedFileCollides | app/storage/local.go:118-120 | nor is one with two keys that share a file |
| StoredKeys.FileOfIsLocalPath | app/storage/local.go:118-174 | a key's file and its tmp file are at the paths the local backend forms |
| SingleFlightLocalTheorems.FilesRefineMap | app/storage/local.go:123-210 | in every run of separate keys in which no two Puts of one key overlap, bypassing writers included, what the file system shows at the keys is the map that the logged acts build, and no key's path is a directory |
| SingleFlightLocalWitnesses.TmpClashIsSeen | app/storage/local.go:173-180 | with a key whose file is the tmp file of another, some run reports the emptied tmp file of a Put as an entry |
| SingleFlightLocalWitnesses.DirectoryIsSeen | app/storage/local.go:127-176 | with a key whose file is on the way to another's, some run reports the directory that a Put of the other has made as an entry |
| SingleFlightLocalWitnesses.TmpDirectoryIsSeen | app/storage/local.go:176-209 | with an entry below the tmp path of a key, some run has a Put rename a directory onto its key and succeed, after cleanup removed its tmp file |
| SingleFlightLocalWitnesses.AliasIsSeen | app/storage/local.go:118-120 | with two keys of one file, some run reports for one what was stored for the other |
| SingleFlightLocalWitnesses.RootIsSeen | app/storage/local.go:118-134 | a key whose file is the root is reported in the empty store |
| SingleFlightLocalWitnesses.TornBackfillIsSeen | app/storage/hybrid.go:71-83 | a backfill that overlaps a Put of its key truncates what the Put then publishes, and a reader opens an empty body although both carry the same one |
| SingleFlightLocalTheorems.ContentWasPut | app/storage/local.go:172-210 | whatever a key maps to in an atomic log is the whole body of one Put call of that key |
| SingleFlightLocalTheorems.DeliveredWasPut | app/storage/local.go:138-157 | no reader is given anything but the whole body of one Put call of its key |
| SingleFlightLocalTheorems.AcknowledgedStaysReadable | app/storage/singleflight.go:46-51 | content-addressed, without deletes, cleanup and overlapping Puts of one key, with bypassing writers: once a Put of k has returned nil to its leader or a follower, every later open of k finds f(k), and every delivered body is f(k) |
| SingleFlightLocalTheorems.LogReadsBack | app/storage/singleflight.go:46-51 | the same of any atomic content-addressed log: an acknowledged key is in the map, with its bytes |
| SingleFlightFollowers.SharedIsOneBackendCall | app/storage/singleflight.go:25-38 | a follower's result is that of exactly one backend call of its key and kind, which returned after the follower joined |
| SingleFlightLocalTheorems.OneCallPerKey | app/storage/singleflight.go:25-51 | in every run, of any keys and with or without bypassing writers, at most one flight of Put and one of Head of a key is being executed |
| SingleFlightFollowers.ActsInFollowersCallExactly | app/storage/singleflight.go:25-51 | a follower returns its leader's outcome, of a call of its own key and kind; after a success the leader's act (rename or stat) lies between the follower's join and the settlement if and only if the leader had no outcome yet when the follower joined |
| SingleFlightFollowers.EveryFollowerIsTold | app/storage/singleflight.go:25-51 | every follower that has its result, in any run, got it in the way the theorem takes apart |
| SingleFlightFollowers.EarlyFollowerPutIsStored | app/storage/singleflight.go:46-51 | a Put that joins before its leader has an outcome and is told of success has its key stored during its own call |
| SingleFlightFollowers.EarlyFollowerHeadIsCurrent | app/storage/singleflight.go:25-38 | a Head that joins before its leader has an outcome is told what the map held at a moment of its own call, as long as no two Puts of one key overlap |
| SingleFlightFollowers.FollowerPutMayStoreNothing | app/storage/singleflight.go:46-51 | a run in which a follower's Put succeeds although its key is absent from before it joined until it returns |
| SingleFlightFollowers.FollowerHeadMayBeStale | app/storage/singleflight.go:25-38 | a run in which a follower's Head misses an entry whose Put was acknowledged before the Head began |
| SingleFlightLocalTheorems.LocksAndFlightsInvariant | app/storage/local.go:79-97 | in every run a shard's write lock excludes every other holder, and every flight in the table has a leader at work |
| SingleFlightLocalTheorems.NoDeadlock | app/storage/local.go:79-97 | while any call is in progress, some call in progress can take a step |
| SingleFlightLocalProofs.FlightNamesApart | app/storage/singleflight.go:26-47 | the names "head:" + key and "put:" + key never meet and determine the key, so a Head never gets a Put's result |
| SingleFlightLocalProofs.FlightSettle | app/storage/singleflight.go:26-36 | settling a flight hands its outcome, of its key and kind, to exactly its followers, and keeps every other flight |
| SingleFlightLocalProofs.OneWriterPerKey | app/storage/singleflight.go:46-51 | at most one Put of a key is under way when every writer goes through the table |
| SingleFlightLocalProofs.FlightsKeepApart | app/storage/singleflight.go:46-51 | then no two Puts of one key overlap, in any run |
| SingleFlightLocalProofs.FsMakeDirs | app/storage/local.go:176-178 | making directories on the way to an entry disturbs no writer and no reader and changes no entry |
| SingleFlightLocalProofs.FsCreate | app/storage/local.go:176-183 | creating the tmp file gives the Put a private empty inode, disturbs no other writer or reader, and changes no entry |
| SingleFlightLocalProofs.FsChunk | app/storage/local.go:186-187 | a copied chunk extends the private inode by exactly those bytes and changes no entry |
| SingleFlightLocalProofs.FsRename | app/storage/local.go:201-209 | the rename publishes the whole body at the key and changes nothing else |
| SingleFlightLocalProofs.FsRemove | app/storage/local.go:263-266 | unlinking any path, with or without a lock, disturbs no writer and no reader with an open handle |
| SingleFlightLocalProofs.GetActIsLegal | app/storage/local.go:138-157 | a delivered body is the whole of what the open saw, with the size then reported |
| SingleFlightLocalProofs.RunKeeps | app/storage/local.go:123-210 | the invariant of files, flights and log holds after every run of separate keys without overlapping Puts of one key, bypassing writers included |
| SingleFlightLocalAlone.ReadyAfter | app/storage/local.go:123-210 | every run of separate keys without overlapping Puts of one key leads to a state from which the next theorems speak, for any idle thread and any key whose shard is not locked |
| SingleFlightLocalAlone.GetDelivers | app/storage/local.go:138-157 | from there a Get that runs alone, every call of it succeeding, opens what the map has and delivers the whole body with its size, and leaves the files as they were |
| SingleFlightLocalAlone.GetMisses | app/storage/local.go:142-144 | and reports a miss of a key that the map has not |
| SingleFlightLocalAlone.HeadReports | app/storage/singleflight.go:25-38 | a Head with no flight of its key under way leads one and is told the size of what the map has, or that it has nothing |
| SingleFlightLocalAlone.PutStores | app/storage/singleflight.go:46-51 | a Put with no flight of its key under way leads one, stores its body at the key and is told of success |
| SingleFlightLocalAlone.DeleteRemoves | app/storage/local.go:160-169 | a Delete removes its key, there or not, and is told of success |
| SingleFlightLocalAlone.EvictRemoves | app/storage/local.go:262-266 | the cleanup may remove the file of any key of the map at any moment, and the map loses that key |
| SingleFlightLocalAlone.FailuresAreFaults | app/storage/local.go:123-210 | over separate keys a Put, Head, Get or Delete fails only by a failing file-system call, a copy error or a reader that gives up |
| LocalStore.Local.Put | app/storage/local.go:172-210 | success puts the whole body at the key and leaves no tmp file; failure leaves every entry as it was; the exact condition of success, directories in the way included; which directories are made; and the calls made are a path of the machine's Put |
| LocalStore.Local.MakeDirs | app/storage/local.go:176-178 | which directories are made, also by a failing mkdirAll, and that no file changes |
| LocalStore.Local.CopyBuffer | app/storage/local.go:186-187 | the copy loop leaves exactly the copied prefix in the tmp file and is a path of the machine |
| LocalStore.Local.Publish | app/storage/local.go:190-209 | the end of a Put: when it succeeds, what it leaves, and that it is a path of the machine |
| LocalStore.Local.Get | app/storage/local.go:138-157 | a missing file is a miss and not an error; a handle leads to the whole content and its size; a directory is announced as an entry; and the calls made are a path of the machine's Get that logs just that |
| LocalStore.Local.Head | app/storage/local.go:123-135 | the size of the entry or directory, a miss, or an error other than a missing file, by a path of the machine's Head that logs just that |
| LocalStore.Local.Delete | app/storage/local.go:160-169 | deleting a missing entry succeeds, a failure changes nothing, success removes that entry or that empty directory alone, by a path of the machine's Delete |
| LocalStore.Local.VisitFile | app/storage/local.go:248-271 | the walk's visit to one file: its size if readable; it goes if and only if its information and access time can be read, the time is more than the TTL before now and its removal works, and no other file changes |
| LocalStore.Local.RunCleanup | app/storage/local.go:233-280 | of the files visited (fewer when the walk ends at an unreadable directory) those whose access time is more than the TTL ago, and whose calls succeed, have no content afterwards, all others keep theirs; entries and size are those of the visited files with readable information, and the evicted total is exactly what the visited files have lost |
| LocalStore.CountedExactly | app/storage/local.go:248-256 | the counted files are the visited ones whose information can be read, each once |
| AsyncAccounting.Conservation | app/storage/async_s3.go:83-134 | in every run the accepted uploads are the true Enqueue results, each in exactly one of queue, worker, sleeping, uploaded, local-missing, exhausted, dropped; the queue keeps to its capacity |
| AsyncAccounting.UploaderTotals | app/storage/async_s3.go:99-134 | a step of a worker or a retry moves one item and no other, whatever is being summed |
| AsyncAccounting.ClientTotals | app/storage/async_s3.go:83-97 | a client's step adds at most the item it enqueues |
| AsyncTermination.NeverOvertried | app/storage/async_s3.go:116-129 | in every run an item still in the uploader has failed fewer than maxRetry times, and an exhausted one at most maxRetry times |
| AsyncTermination.PutsBounded | app/storage/async_s3.go:115-129 | an accepted upload causes at most maxRetry S3 Puts in any run |
| AsyncTermination.BackoffBounded | app/storage/async_s3.go:117-127 | an accepted upload backs off at most maxRetry * (maxRetry - 1) seconds in any run |
| AsyncWhole.BoundsReached | app/storage/async_s3.go:116-131 | both bounds are reached: with one worker, some run makes maxRetry S3 Puts for one upload and backs off maxRetry * (maxRetry - 1) seconds |
| AsyncTermination.MeasureFalls | app/storage/async_s3.go:99-134 | every worker and wake-up step strictly lowers a measure of tries left and place |
| AsyncTermination.Quiesces | app/storage/async_s3.go:99-134 | after the last accepted Enqueue the uploader takes at most as many steps as the measure, whatever clients, cleanup and Stop do |
| AsyncTermination.UploaderCanGoOn | app/storage/async_s3.go:99-134 | while anything is queued, held or asleep, the uploader can take a step |
| AsyncTermination.StopDrains | app/storage/async_s3.go:69-104 | when Stop has returned the queue is empty, every worker has exited, and the unfinished accepted uploads are the sleeping retries |
| AsyncAcknowledged.AckAfterCloseWasStored | app/storage/hybrid.go:104-138 | whatever values change meanwhile: when a Put returns nil after the queue is closed, its client wrote its key locally, later read a body back, and later still its upload left S3 with that body |
| AsyncCrash.CrashAfterCloseExactly | app/storage/async_s3.go:69-127 | in every run, from the moment the queue is closed: a send on it can still follow if and only if a retry sleeps, an Enqueue is past its check, or an item with a try left is queued or in a worker's hands |
| AsyncCrash.CrashAfterStopExactly | app/storage/async_s3.go:78-126 | after Stop has returned it can follow if and only if a retry sleeps or an Enqueue is past its check |
| AsyncCrash.CrashAfterStopIsReached | app/storage/async_s3.go:82-97 | with any configuration a run without a failure crashes after Stop has returned |
| AsyncDurability.Durability | app/storage/hybrid.go:104-138 | with each local write one step, content-addressed, any number of workers: an acknowledged key is in S3 with its bytes, or its upload is queued, held or asleep, or it is in the ledger of missing, exhausted and dropped |
| AsyncDurability.FullQueueLosesNothing | app/storage/hybrid.go:110-118 | in every such run a Put whose upload the queue did not take returns nil only when S3 has its bytes, and there are no more losses than accepted uploads |
| AsyncDurability.AckAfterStopIsStored | app/storage/hybrid.go:104-120 | in every such run, once the queue is closed, a Put that returns nil finds its entry in S3 with its bytes |
| HybridFiles.Simulates | app/storage/local.go:172-210 | over separate keys every run of the hybrid backend on the files, local writes going by file-system calls, in which no two local writes of one key overlap, is a run of the upload machine with each local write one step at its rename, and its local tier is what the files show |
| HybridFilesRealized.Realizes | app/storage/local.go:172-210 | conversely, over separate keys every run of the upload machine that puts and fetches only the store's keys is what some run of the files comes to in which no two local writes of one key overlap, with the same state of tiers, queue, workers, clients and ledgers |
| HybridFilesTheorems.FilesDurable | app/storage/hybrid.go:65-138 | such a run, when content-addressed, stores nothing but f(k) at k in either tier, and every acknowledged key is in S3, on its way there, or in the ledger |
| HybridFilesTheorems.FilesConverge | app/storage/async_s3.go:106-134 | such a run, when it keeps to the guard, has in S3 what the file of a key holds once the key's uploads have settled and none was lost |
| HybridFilesOverlaps.IntactExactly | app/storage/hybrid.go:71-83 | for any set of kinds of overlap (which of Put and backfill creates its tmp file while which other is writing): every content-addressed run with only these is intact if and only if the set is empty |
| HybridFilesOverlaps.TornUpload | app/storage/async_s3.go:106-115 | for any kind of overlap, a run in which an emptied file is uploaded over the good object of an acknowledged key, with nothing left queued, held, asleep or in the ledger |
| HybridFilesOverlaps.TornThenWhole | app/storage/local.go:176-201 | and one in which the file is then whole again and S3 keeps the empty object |
| AsyncConvergence.GuardedConverges | app/storage/async_s3.go:99-134 | with any number of workers, fallbacks, backfills, evictions and deletes, in every run whose steps keep to the guard: once a key's uploads have settled and none was lost, S3 has its local content |
| AsyncConvergence.BrokenGuardDiverges | app/storage/async_s3.go:99-134 | after any step that breaks the guard, in any state, the uploads under way can all succeed, with no new Put, and leave S3 without the local content of the step's key |
| AsyncConvergence.FirstBackfillIsGuarded | app/storage/hybrid.go:71-83 | while nothing has been evicted or deleted, a backfill of a key that is not there yet keeps to the guard |
| AsyncDivergence.ReadCanBreak | app/storage/async_s3.go:62-65 | with two workers a run without failures and fallbacks reaches a read that breaks the guard |
| AsyncDivergence.FallbackCanBreak | app/storage/hybrid.go:112-118 | with any number of workers a guarded run reaches a synchronous fallback that breaks it |
| AsyncDivergence.BackfillCanBreak | app/storage/hybrid.go:71-83 | and a backfill that breaks it |
| AsyncDivergence.DeleteCanBreak | app/storage/hybrid.go:88-101 | and a removal from S3, of a key put anew since its local removal, that breaks it |
| AsyncDivergence.ConvergesExactly | app/storage/async_s3.go:106-134 | over all runs without fallbacks whose backfills and deletes keep to the guard, settled uploads leave S3 with the local content of every key with no loss, if and only if there is one worker |
| AsyncConvergence.OneWorkerConverges | app/storage/async_s3.go:99-134 | one worker converges although values change while uploads are queued, under way and asleep, and entries are evicted |
| AsyncDivergence.TwoWorkersDiverge | app/storage/async_s3.go:62-65 | with two or more workers a run without any failure leaves S3 with the older value |
| AsyncDivergence.RacingBackfillDiverges | app/storage/hybrid.go:71-83 | a backfill that lands on a newer local entry leaves the tiers apart, even with one worker |
| AsyncUpload.Configure | app/storage/async_s3.go:33-64 | queue size, number of tries and number of workers are each what is given when positive, and otherwise 1000, 3 and 2 |
| AsyncUploaderObject.AsyncUploader.constructor | app/storage/async_s3.go:33-46 | non-positive settings become the defaults, 1000 queue places and 3 tries; the uploader starts empty and not running, over the given tiers |
| AsyncUploaderObject.AsyncUploader.Start | app/storage/async_s3.go:50-58 | the uploader runs; nothing else changes |
| AsyncUploaderObject.AsyncUploader.Enqueue | app/storage/async_s3.go:83-97 | true exactly when running with room, and then the item is last in the queue; a refused one leaves queue, count and acknowledgements as they were |
| AsyncUploaderObject.AsyncUploader.Upload | app/storage/async_s3.go:106-134 | one try: an item whose entry cannot be read is missing; otherwise S3 has the local content if it took it, and the item is uploaded if S3 said so too, asleep with one more attempt if it has one left, or exhausted |
| AsyncUploaderObject.AsyncUploader.Worker | app/storage/async_s3.go:99-104 | the loop leaves the queue empty; each item, in its order, is uploaded exactly when its entry was read and S3 took it and said so, missing exactly when it could not be read, and otherwise asleep or exhausted; S3 has the local content of exactly the keys it took and is as before at any other |
| AsyncUploaderObject.AsyncUploader.Stop | app/storage/async_s3.go:69-80 | a running uploader is stopped and its queue closed and drained as by Worker; otherwise nothing changes |
| AsyncUploaderObject.AsyncUploader.Retry | app/storage/async_s3.go:119-127 | a retry that wakes up goes to the back of the queue, or is dropped when that is full |
| AsyncUploaderObject.DrainedDrains | app/storage/async_s3.go:99-134 | what draining any queue leaves in each ledger, in S3 and in the local tier |
| AsyncUploaderObject.FatedExactly | app/storage/async_s3.go:106-134 | every queued item is in exactly the ledger of the end of its try, as often as it was queued |
| AsyncUploaderObject.TriedRuns | app/storage/async_s3.go:106-134 | the run of the interleaving machine that taking and trying one item is |
| AsyncUploaderObject.DrainedRuns | app/storage/async_s3.go:99-104 | the run of the interleaving machine that the worker's loop is, try by try |
| AsyncUploaderObject.StopRuns | app/storage/async_s3.go:69-80 | the run that Stop is: the flag, the close, the worker's loop, its exit, and the return |
| AsyncUploaderObject.EnqueuedRuns | app/storage/hybrid.go:104-119 | the run that a Put up to the end of its Enqueue is: queued and acknowledged, or, when the uploader does not run or its queue is full, on its way to the synchronous upload |
| AsyncUploaderObject.RetryRuns | app/storage/async_s3.go:119-127 | the waking of a retry is the machine's step |
| AsyncWhole.FallbackIsWhole | app/storage/hybrid.go:110-139 | a Put alone whose Enqueue is refused leaves the two tiers as the synchronous Put does, in every failure case, and is acknowledged exactly when that returns nil |
| AsyncWhole.BackfillIsWhole | app/storage/hybrid.go:65-84 | the fetch and fill of a Get alone over a key that S3 alone has leave the tiers as the synchronous Get does, with the body in the local tier unless the write fails |
| AsyncWhole.NoBackfill | app/storage/hybrid.go:65-75 | a Get of any other key changes nothing, and no fetch begins |
| AsyncWhole.DeleteIsWhole | app/storage/hybrid.go:88-101 | a Delete alone removes from both tiers as the synchronous one does |
| AsyncWhole.RetriedIsUploaded | app/storage/async_s3.go:106-133 | an item alone that S3 refuses n times, with a try left, and then takes is uploaded: the run exists, S3 has the local content and the item is in the ledger of uploads |
| AsyncWhole.RefusedIsGivenUp | app/storage/async_s3.go:116-131 | and one that S3 refuses until its last try is exhausted, with maxRetry attempts |
| Hybrid.RunRefines | app/storage/hybrid.go:53-139 | under any failures and evictions the two tiers keep to one map on every key whose last mutation returned nil, and on any other key to its last acknowledged content or one tried since |
| Hybrid.DoubtfulReads | app/storage/hybrid.go:53-139 | after any run every key reads as its last acknowledged content or the body of a Put that has failed since, and as absent only if that content was absent or a Delete has failed since (or a backfill is evicted before it is read back) |
| Hybrid.PossibleWasAsked | app/storage/hybrid.go:53-139 | what a key may read as was its content at the start or asked for by some mutation of the run |
| HybridCalls.QuietExactly | app/storage/hybrid.go:53-139 | with calls interleaved tier access by tier access, under any failures and evictions, Heads overlapping anything, Gets Gets and Deletes Deletes: for any choice of the other four kinds of overlap of calls of one key (Get and Put, Get and Delete, two Puts, Put and Delete), the tiers keep to one map on every key with no call in progress, in every run, if and only if none of the four is allowed |
| HybridCalls.GetReadsTheMap | app/storage/hybrid.go:65-84 | without such overlap, what a Get is about to read at either tier is the one map's content, or for a key in doubt one that is left open |
| HybridWhole.PutIsWhole | app/storage/hybrid.go:104-139 | with nothing in between, the steps of a Put take the tiers, the map and the caller where the sequential Put does, in every failure case |
| HybridWhole.GetIsWhole | app/storage/hybrid.go:65-84 | and those of a Get, with its backfill and reply |
| HybridWhole.HeadIsWhole | app/storage/hybrid.go:53-60 | and those of a Head, S3 being asked when the local tier has nothing |
| HybridWhole.DeleteIsWhole | app/storage/hybrid.go:88-101 | and those of a Delete |
| HybridWhole.GetIsToldTheMap | app/storage/hybrid.go:65-84 | in every interleaving without the four overlaps, a Get that hits is told the map's content of its key, or for one in doubt a content that is left open, and one that misses, unless its backfill was evicted, that the map has nothing |
| HybridWhole.HeadIsToldTheMap | app/storage/hybrid.go:53-60 | and a Head the size of such a content, or that there is none, as long as no Put of its key is between its local write and its upload |
| HybridCalls.GetPutIsSeen | app/storage/hybrid.go:71-83 | a successful Put is undone in the local tier by the backfill of a Get that it overlaps |
| HybridCalls.GetDeleteIsSeen | app/storage/hybrid.go:71-101 | and so is a successful Delete |
| HybridCalls.PutPutIsSeen | app/storage/hybrid.go:104-138 | of two overlapping Puts each tier can keep another |
| HybridCalls.PutDeleteIsSeen | app/storage/hybrid.go:88-138 | a Put in the middle of a Delete stays in the local tier alone |
| Hybrid.ReadsFollowMap | app/storage/hybrid.go:53-84 | after any run Get and Head of such a key say what the one map says, the one exception being a backfill evicted before it is read back |
| Hybrid.ReadsAndEvictionsChangeNothing | app/storage/hybrid.go:65-84 | any number of reads, backfills and evictions leaves what such a key reads as |
| Hybrid.FailedPutSettledExactly | app/storage/hybrid.go:104-139 | exactly when a failed Put leaves the tiers in agreement on its key |
| Hybrid.FailedPutReverts | app/storage/hybrid.go:122-138 | a failed upload is visible until eviction, and then the old content is back |
| Hybrid.PutBeforeLateBackfillIsUndone | app/storage/hybrid.go:71-83 | a successful Put between the two halves of a Get is undone in the local tier |
| Hybrid.FailedDeleteSettled | app/storage/hybrid.go:88-101 | what a key reads as after a Delete that failed in either tier |
| Hybrid.HybridStore.PutEntry | app/storage/hybrid.go:104-139 | both tiers and the reply after a synchronous Put, spelled out for every failure: without one, both tiers have the body |
| Hybrid.HybridStore.GetEntry | app/storage/hybrid.go:65-84 | both tiers and the reply after a Get, spelled out for every failure: a body found in S3 alone is in the local tier afterwards, unless it was evicted or could not be written, and is what the caller gets |
| Hybrid.HybridStore.HeadEntry | app/storage/hybrid.go:53-60 | the local size, or else S3's, or that neither has an entry; an error exactly when a tier that had to be asked failed; nothing changes |
| Hybrid.HybridStore.DeleteEntry | app/storage/hybrid.go:88-101 | each tier loses the key unless it refused; the reply is success exactly when both agreed, and a local error takes precedence |
| LruCache.BecomesStaleExactly | app/storage/lru_cache.go:90-115 | calls one after another: a key in good order becomes stale exactly by a cached Put the backend drops, a Put too large to cache over a different entry, or an outside change |
| LruCache.StalenessEndsExactly | app/storage/lru_cache.go:56-115 | exactly which operation ends the staleness of a key: its Delete, a cached Put the backend takes or already matches, an uncached Put it takes or an outside change equal to what is cached, or displacement as the oldest entry of a full cache |
| LruCache.EndsStaleness | app/storage/lru_cache.go:90-107 | in any state a Delete, even a failed one, and a cached Put the backend takes, always end staleness |
| LruCache.DisplacedExactly | app/storage/lru_cache.go:109-115 | an operation on another key drops a cached entry exactly when it adds an uncached one to a full cache whose oldest entry that is |
| LruCache.LeastRecentGoes | app/storage/lru_cache.go:26-115 | at the end of any run from the empty cache, an entry that an operation pushes out was used less recently (found by Get or Head, or cached) than every other cached one |
| LruCache.AcknowledgedReadsBack | app/storage/lru_cache.go:65-107 | what an acknowledged Put stored is in the backend, and reads back, whatever else happens to other keys, exactly unless the Put was not cached over a different cached entry; after an acknowledged Delete the key is gone and reads as missing |
| LruCache.ReadAgreesExactly | app/storage/lru_cache.go:56-87 | a read through the cache says what the backend would exactly when the key is not stale |
| LruCache.Transparent | app/storage/lru_cache.go:56-115 | over any run the backend goes through the states it would without the cache, and a run that never spoils a key gets the bare backend's bytes, size and existence |
| LruCache.FindAfter | app/storage/lru_cache.go:56-115 | what each operation leaves cached for any key |
| LruCalls.BecomesStaleExactly | app/storage/lru_cache.go:65-107 | calls overlapping in any way: a key in good order becomes stale exactly by a fill with what the backend no longer has, by the caching half of a Put before the backend has it, by storing or removing under a different entry cached since, or an outside change |
| LruCalls.FreshExactly | app/storage/lru_cache.go:56-107 | for any choice of the kinds of overlap of calls of one key: a key with no call under way is not stale, in every run in which the backend takes what is cached and nobody changes it from outside, if and only if no Put overlaps a mutation or a Get, and no Delete a Get, or nothing is ever cached |
| LruCalls.GetPutIsSeen | app/storage/lru_cache.go:71-101 | a successful Put is hidden by the fill of a Get that it overlaps |
| LruCalls.GetDeleteIsSeen | app/storage/lru_cache.go:71-107 | and so is a successful Delete |
| LruCalls.PutPutIsSeen | app/storage/lru_cache.go:90-101 | of two overlapping Puts the cache can keep one and the backend the other |
| LruCalls.PutDeleteIsSeen | app/storage/lru_cache.go:90-107 | a successful Put in the middle of a successful Delete goes on being served though the backend has nothing |
| LruCalls.GetIsWhole | app/storage/lru_cache.go:65-87 | the steps of a Get with nothing in between are the Get of the sequential machine |
| LruCalls.PutIsWhole | app/storage/lru_cache.go:90-101 | and so for a Put, its body read to the end or not |
| LruCalls.DeleteIsWhole | app/storage/lru_cache.go:104-107 | and a Delete |
| LruCalls.HeadIsWhole | app/storage/lru_cache.go:56-62 | and a Head |
| LruCache.MutationDuringGetIsHidden | app/storage/lru_cache.go:71-84 | a Put or Delete that succeeds between the halves of a Get is hidden by the cache |
| LruCache.SizingFailsExactly | app/storage/lru_cache.go:34-42 | the sizing divides by zero exactly for maxEntrySize 1 with a positive budget; otherwise the capacity is at least 64 |
| LruCache.SizedExactly | app/storage/lru_cache.go:36-42 | the capacity is 1024 without both limits; otherwise the number of half-size entries that fit the budget, but no fewer than 64 |
| LruCache.Cache.New | app/storage/lru_cache.go:34-53 | the constructor fails exactly in that case |
| LruCache.Cache.HeadEntry | app/storage/lru_cache.go:56-62 | the cached size, and the entry moves to the front, or the backend's answer and the cache as it was |
| LruCache.Cache.GetEntry | app/storage/lru_cache.go:65-87 | the cached body, and the entry moves to the front; or the backend's error, miss or body, the body being cached exactly when small enough and within the budget; which other entry is dropped, if any |
| LruCache.Cache.PutEntry | app/storage/lru_cache.go:90-101 | success exactly when the body was read and the backend accepted; what the backend then holds; the body is cached, before the backend is asked, exactly when small enough and within the budget; which other entry is dropped, if any |
| LruCache.Cache.DeleteEntry | app/storage/lru_cache.go:104-107 | success exactly when the backend accepted; what it then holds; the key alone leaves the cache |
| LruCache.Cache.AddToCache | app/storage/lru_cache.go:109-115 | an entry above the total budget is declined and an older one stays; any other goes to the front, and the last entry goes exactly when the list was full without the key |
| LruMemory.MemoryBound | app/storage/lru_cache.go:34-53 | over any run the cached bytes are at most capacity times the largest entry, and at most max(64 * maxEntry, 2 * maxTotal + maxTotal / (maxEntry / 2)) |
| LruMemory.MemoryBoundEven | app/storage/lru_cache.go:34-53 | for an even maxEntrySize the cached bytes never exceed max(64 * maxEntry, 2 * maxTotal) |
| LruMemory.MemoryBoundReached | app/storage/lru_cache.go:109-115 | a run reaches the first of these bounds, so it is exact |
| LruMemory.BudgetAlwaysExceeded | app/storage/lru_cache.go:21-23 | for every pair of positive limits that does not divide by zero, some run holds more than maxTotalSize |
| LruMemory.TwiceTheBudget | app/storage/lru_cache.go:34-42 | for an even maxEntrySize and a budget of 64 half entries or more a run holds exactly twice the budget |
| CircuitBreaker.HistoryDetermines | app/storage/circuit_breaker.go:64-79 | the counter is the trailing run of failures, open holds if and only if the last threshold outcomes exist and all failed, and the cooldown runs in full from the latest failure |
| CircuitBreaker.OutageSpacing | app/storage/circuit_breaker.go:49-79 | one client in an outage: the n-th admitted call starts more than (n - threshold) timeouts after the opening failure |
| CircuitBreaker.OutageRate | app/storage/circuit_breaker.go:49-79 | one client in an outage: at most threshold + floor(T / timeout) calls reach S3 |
| CircuitBreaker.OutageAdmits | app/storage/circuit_breaker.go:49-79 | the breaker's state and the spacing of the admitted calls in an outage |
| CircuitBreaker.OutageAdmitsNext | app/storage/circuit_breaker.go:49-79 | which next call of an outage reaches S3: each of the first threshold ones, and then one that starts more than a timeout after the latest admitted one failed |
| CircuitBreaker.CircuitBreaker.State | app/storage/circuit_breaker.go:37-47 | "open" exactly when a call would be refused, "closed" exactly when not open |
| CircuitBreaker.CircuitBreaker.Allow | app/storage/circuit_breaker.go:49-62 | admits when closed, or when open and more than a timeout after the last failure |
| CircuitBreaker.CircuitBreaker.RecordSuccess | app/storage/circuit_breaker.go:64-69 | the new state after a recorded success |
| CircuitBreaker.CircuitBreaker.RecordFailure | app/storage/circuit_breaker.go:71-79 | the new state after a recorded failure |
| CircuitBreaker.CircuitBreaker.Call | app/storage/circuit_breaker.go:82-134 | Head, Put and Delete: refused without effect exactly when open and cooling down; otherwise an answer closes it with no failures counted, and an error counts one, restarts the cooldown and opens it at the threshold |
| CircuitBreaker.CircuitBreaker.Get | app/storage/circuit_breaker.go:96-108 | a Get records only an error; a miss and an open stream record nothing |
| CircuitBreaker.CircuitBreaker.CloseStream | app/storage/circuit_breaker.go:141-149 | closing the stream records the outcome of the close |
| BreakerCalls.OpenExactlyInEveryInterleaving | app/storage/circuit_breaker.go:49-149 | with any overlap of calls, closes and late completions, open holds if and only if the last threshold recorded outcomes exist and all failed |
| BreakerCalls.AdmittedBalance | app/storage/circuit_breaker.go:96-149 | in every reachable state admitted calls = successes + failures + Get misses + calls in flight + open streams |
| BreakerCalls.DecidedOnTheStateRead | app/storage/circuit_breaker.go:49-62 | a call is let through exactly by the outcomes recorded when it read the breaker and the time when it decides |
| BreakerCalls.RecordedExactly | app/storage/circuit_breaker.go:64-149 | in every run the history is the successes of answered Heads, Puts and Deletes and of streams closed without error, and the failures of the errors and of streams closed with one, at their moments, in their order |
| BreakerCalls.EntersAlone | app/storage/circuit_breaker.go:49-62 | a call that enters alone is refused without trace exactly when the breaker is open and cooling down, and otherwise runs |
| BreakerCalls.CallIsWhole | app/storage/circuit_breaker.go:82-134 | and its answer then leaves breaker, history, misses and open streams as the object's methods say |
| BreakerOutage.ProbesAreUnbounded | app/storage/circuit_breaker.go:25-62 | for any n, a run with n calls at S3 together while the breaker is open |
| BreakerOutage.MissesNeverClose | app/storage/circuit_breaker.go:100-107 | any number of Gets that S3 answers with a miss, or whose streams are still open, leave the breaker and its history as they were |
| BreakerOutage.ClientRate | app/storage/circuit_breaker.go:49-79 | in an outage each of many overlapping clients is let through at most 1 + floor(T / timeout) times in a time T |
| BreakerOutage.OutageRateManyClients | app/storage/circuit_breaker.go:49-79 | and all of them together at most that many times their number |
| CachePath.ParseIsStable | app/cache_path.go:22-45 | re-parsing the storage key of a parsed path gives back the same pair |
| CachePath.NameableExactly | app/cache_path.go:22-41 | the pairs requests can name are exactly those in normal form |
| CachePathForms.ParsesExactly | app/cache_path.go:22-41 | for every path: it parses to (c, e) if and only if it is /cache/, a non-empty name c, a slash and a rest without leading slash, from which taking out doubled slashes, "." elements and trailing slashes one by one leads to the normal form e; only a missing prefix is reported as such; nothing with ".." or a backslash parses |
| CachePathForms.ReducesToOne | app/cache_path.go:39 | the order of taking out does not matter |
| CachePathForms.CleanTakesBack | app/storage/local.go:118-120 | in a cache root, ".." takes back the name before it |
| CachePathForms.CleanAtRoot | app/storage/local.go:118-120 | and is dropped at the top |
| CachePath.StorageKeyInjective | app/cache_path.go:43-45 | two requests share a storage key only when they name the same cache and entry |
| CachePath.LocalPathStaysBelowRoot | app/storage/local.go:118-120 | every local path is the cleaned root followed by names, none of them "..", and is the root only for the pair (".", ".") |
| CachePath.SameFileExactly | app/storage/local.go:118-120 | two keys share a file if and only if they are one key or one reaches the other's file through cache "." |
| CachePath.DotCacheAliases | app/cache_path.go:22-45 | a concrete pair of paths with different keys and one file |
| CachePath.TmpKeyNameableExactly | app/storage/local.go:173-174 | a key with ".tmp" added can be requested as well, exactly when the entry key does not end in a dot |
| CachePath.TmpFileIsKeysFile | app/storage/local.go:173-174 | and then the key's tmp file is that key's file |
| RateLimiter.OneLimiterPerAddress | app/middleware/middleware.go:93-109 | in every interleaving two requests hold the same limiter if and only if they come from one address |
| RateLimiter.RunKeeps | app/middleware/middleware.go:93-109 | a limiter once in the table is never replaced, and no two addresses share one |
| RateLimiter.AddressRate | app/middleware/middleware.go:80-109 | in every interleaving an address is admitted at most burst + rate * w times in any window of length w |
| RateLimiter.GlobalRateAdmitsExactly | app/middleware/middleware.go:63-67 | a positive global rate ever lets a request through if and only if it is at least one half |
| RateRefusals.RefusedExactly | app/middleware/middleware.go:80-91 | in every interleaving a request that holds its address's limiter is refused if and only if some window that ends now, counted from any moment of the run, has no room for one more in burst + rate * length |
| RateRefusals.TurnedAwayExactly | app/middleware/middleware.go:81-83 | and the global limiter turns one away if and only if some window has no room in the same sense |
| RateRefusals.GlobalLimit | app/middleware/middleware.go:81-83 | so any window lets at most burst + rate * length through |
| RateRefusals.WaitServes | app/middleware/middleware.go:80-91 | after any run, once both limiters have had the time to earn a token, the next request is admitted |
| RateRefusals.AllowIsWhole | app/middleware/middleware.go:80-109 | a request that runs alone does what the object's Allow says, with a limiter found or made full |
| RateLimiter.RateLimiter.constructor | app/middleware/middleware.go:63-77 | which limiters exist, full, and their bursts: twice the rate rounded down, and for an address at least 1 |
| RateLimiter.RateLimiter.GetLimiter | app/middleware/middleware.go:93-109 | the address's limiter, made full when there is none, and no other changes |
| RateLimiter.Limiter.Allow | app/middleware/middleware.go:80-91 | a token is taken if and only if what has flowed in since, up to the burst, makes one |
| RateLimiter.RateLimiter.Allow | app/middleware/middleware.go:80-91 | admits when both buckets grant; the global token is spent even when the address is refused |

## Left out

- S3 itself and its SDK (app/storage/s3.go): a map whose operations fail at will, a failed mutation possibly applied.
- Range requests: contexts carry none. A ranged Get would backfill a part as the whole.
- Declared sizes other than the number of bytes: `Honest` in the cache theorems; the handlers establish it.
- The LRU library, `singleflight.Group` and `rate.Limiter`: modelled by their documented behaviour, without panics in a flight.
- The FNV shard hash (app/storage/local.go:69-77): locking is modelled for an arbitrary map from keys to shards.
- What else may be in the cache directory: single-flight runs begin with an empty root, hybrid runs with any entries and tmp files of the keys, and only Puts and backfills make files and directories there.
- os.MkdirAll of the root's own parents, and a root that somebody else removes.
- Access times are arbitrary, so cleanup may remove any file at any moment, a tmp file that is being written included; the `.tmp/` case of `AtomicExactly` is the one that needs this.
- Unlocking is one step with the rename, stat, open-and-stat or remove before it; the machine then has at least the runs in which the lock is held longer.
- LocalStore.Local.Put: a key whose file is the root itself, the key `./.` alone, is excluded; no run with it is atomic (`RootIsSeen`).
- AsyncUploaderObject.AsyncUploader.Worker: the class has one worker and no client between its steps; the machine has any number of both.
- AsyncUploaderObject.AsyncUploader.Start: the code asks its callers to call it once after construction (app/storage/async_s3.go:49), so a Start after Stop, whose workers would find the queue closed, is excluded.
- A local write that fails before anything is enqueued changes nothing and is not a step of the asynchronous machine.
- AsyncTermination.Quiesces: that the uploader does run down needs fair scheduling, which is not modelled; the bound and the possibility of a next step are proved.
- AsyncDurability.Durability: a local write is one step in its machine; for the files it is `FilesDurable`, under the condition that `IntactExactly` shows necessary.
- AsyncDurability.AckAfterStopIsStored: it is about content-addressed runs; with changing values `AckAfterCloseWasStored` says what S3 was left with.
- AsyncConvergence.GuardedConverges: a key of which some upload was given up or some Put has returned an error is left out for good, though a later Put may repair it.
- HybridFiles.Simulates: a read of the local tier for an upload, or by a Get before it goes to S3, is one step that delivers what the file then holds, and takes no lock; the flight table that keeps two Puts of a key apart is not part of that machine, so `IntactExactly` treats two Puts as a kind of overlap of its own.
- HybridCalls.QuietExactly: a local write is one step; what overlapping local writes do to the files is `IntactExactly`.
- Modification times: a cached entry reports the time of the Put, so they are not compared.
- BreakerCalls.AdmittedBalance: a read error in the middle of a stream is recorded as a success when the close succeeds, as in the code; the stages of a Get after S3 has answered are merged into the one close.
- The breaker is not composed with the hybrid backend: a refused call is one of S3's failures there.
- RateLimiter.AddressRate: the rate is a real number and time a real number of seconds, without rounding; a non-positive burst of the library does not arise for an address.
- The request router's path cleaning, HTTP handlers, authentication, configuration parsing, health, logging, metrics and buffer pooling.

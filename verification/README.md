# Verification of the MusicDeck core

A Dafny 4.11 model of the stateful parts of MusicDeck, a self-hosted music server with an offline-capable web
application, and proofs of what they keep over whole runs.  `dafny verify dfyconfig.toml` checks everything.

Each module models one component.  Pure parts are functions with lemmas.  A component whose state is updated in place
is a class whose methods are proved against a step function; what is promised over whole runs is proved about the step
function, by invariants over every sequence of events.  Suspension points, concurrent callers, crashes and failing
operations are events or nondeterministic choices, so the theorems cover every interleaving.

| file | component | main results |
|---|---|---|
| `OfflineCache.dfy`, `OfflineCachePolicy.dfy`, `OfflineCacheRoundTrip.dfy`, `OfflineCacheRuns.dfy`, `ServiceWorker.dfy` | offline cache of the service worker | answers belong to the owner and postdate announced mutations; purges and policy changes leave nothing older; what is stored is served, and what alone can take it away; cache size; what a termination of the worker loses |
| `RateLimiter.dfy` | login rate limiter | lazily swept refines eager; twice the limit per window, also for readings out of order; least delays; exact permit count |
| `AcquisitionWindow.dfy` | acquisition submission window | lazily pruned vectors are a sliding window, for readings in and out of order; exactly what they miss |
| `PlaylistImport.dfy` | playlist import with checkpoints | crash and resume converge to the uninterrupted run, exactly without a saved cancel; what becomes of every entry |
| `Migrations.dfy` | migration engine | concurrent runners keep an ordered prefix; confluence; every application is reported once; runners end |
| `FolderForest.dfy` | folder trigger | exact cycle guard; forests over runs |
| `ActivityTable.dfy` | activity triggers | the table is always what the query computes, and what each statement, exclusion and reset does to it; exactly when a rebuild or reset leaves it so |
| `LibraryShrinker.dfy` | FLAC to MP3 shrinker | no track is lost at any moment, and exactly which references are |
| `MusicIdentity.dfy` | identity keys | keys are uniquely decodable; exactly which items share one, tier by tier |
| `CatalogMerge.dfy` | catalogue merge | symmetric matching; disagreeing identifiers; the merged list place by place |
| `SilenceCache.dfy` | silence analyses and content revisions | no stale profile, and exactly when one is fresh; what counts as a change; current profiles are served |
| `RuntimeGate.dfy` | runtime update gate | exclusion; fails closed; never stuck |
| `OrphanPruning.dfy` | orphan pruning | exact judgement; safe removal |
| `CastLeases.dfy` | cast leases | exact guard counts; limits; the life of a ticket |
| `Prelude.dfy`, `TextOrder.dfy` | shared definitions | |

## Where the program does not do what one would expect

Each item names the exact condition and then a concrete input.

* Service worker: a write that the browser terminates between storing and evicting can leave its cache above the limit
  (`OfflineCache.RestartOverLimit`; `OfflineCacheRuns.CutWriteOverLimit`); the next completed write repairs it
  (`OfflineCache.CompletedWriteWithinLimit`).
* Service worker: a mutation whose purge a termination of the worker cut off is forgotten
  (`OfflineCache.FloorAfterRestart`; `OfflineCacheRuns.StaleAfterRestart`, where the user is signed in, out and in again
  before the clean-up of the first sign-in is done).
* Service worker: external artwork can be stored, and stay, while it is off: a request accepted before the policy
  message captures its epoch after it (`OfflineCachePolicy.ExternalWhenOff`;
  `OfflineCachePolicy.ExternalAfterSwitchOff`).
* Submission window: the clock is read before the lock, so a decision can miss admissions and exceed the limit
  (`AcquisitionWindow.StoredExactly`, `AcquisitionWindow.Decides`; `AcquisitionWindow.StaleReadingExceedsLimit`).  How
  much remains of the limit is `AcquisitionWindow.SkewedWindow`.
* Playlist import: cancelling before the run has passed an entry that needs a download loses the manifest
  (`PlaylistImport.Run`; `PlaylistImport.CancelLosesManifest`).
* Folders: the trigger guards updates only; inserts can close a cycle (`FolderForest.RunKeepsForest`;
  `FolderForest.InsertsCanCloseCycle`).
* Activity: the taste service's own rebuild takes the latest time over all kept events, the triggers over some
  (`ActivityTable.RebuildUserAgrees`; `ActivityTable.RebuildUserCanDisagree`).
* Activity: the rebuild is three statements outside a transaction, and an event between them makes its first insert fail
  (`ActivityTable.Inserted`; `ActivityTable.InterruptedRebuildLoses`).
* Activity: a reset deletes rows that the query still counts (`ActivityTable.ResetAgrees`;
  `ActivityTable.ResetLosesLaterRow`).
* Shrinker: a playlist that cannot be read at its turn is skipped and the FLAC removed all the same
  (`LibraryShrinker.ReferenceSurvives`; `LibraryShrinker.UnreadPlaylistLoses`).
* Shrinker: a reference through `.` or `..` is not recognised and is lost (`LibraryShrinker.TargetSurvives`;
  `LibraryShrinker.DotSegmentLoses`).
* Shrinker: a backslash in a relative reference becomes a separator and the reference is lost
  (`LibraryShrinker.RewriteRefers`; `LibraryShrinker.BackslashLost`).
* Version signature: documented as distinct markers; repetitions count (`MusicIdentity.SignatureDecides`;
  `MusicIdentity.RepeatedMarkerSeparates`).
* Matching: documented as refusing recordings that disagree in one scheme; sharing an identifier of the other scheme
  comes first (`CatalogMerge.DisagreeingSchemes`; `CatalogMerge.DifferentIsrcsMatch`).
* Silence profiles: a lookup is two queries, and a change between them can make the answer stale
  (`SilenceCache.FreshAtReturn`; `SilenceCache.StaleAtReturn`).
* Pruning: when the commit fails nothing is removed, but the summary still counts the removals
  (`OrphanPruning.Database.PruneTracks`; `OrphanPruning.FailedCommit`).

## Assumptions

* Mutexes are not poisoned and counters do not reach the width of their machine integers.
* Database transactions are atomic and serialisable, and a statement that is not said to fail succeeds.
* Cache operations of the browser succeed, and a cache lists its keys in insertion order (section 5.4 of W3C Service
  Workers).
* The clock of the login limiter goes back by less than the window, in the order in which the lock is taken; where a
  member asks for readings that do not go back at all, it says so.
* Tickets, content revisions, library ids and scratch file names are fresh.  Content revisions and tickets are named by
  the moment or the text they were made with.
* The downloader gives the same entry the same answer, and an encoder that reports success has encoded the track.
* Lower-casing a letter or digit yields neither spaces nor punctuation; the canonical id is the hash of the key.
* The ledger of migrations starts as a prefix of the registry.

## Model

| member | source | states |
|---|---|---|
| `OfflineCache.ServedBelongsToOwner` | webapp/src/service-worker.ts:100-115 | in every interleaving, an answer from a cache was stored under the account that is the owner at the moment of return, is for the requested key and has not expired, whatever owners came in between |
| `OfflineCache.ServedAfterAnnouncement` | webapp/src/service-worker.ts:100-131 | a request is never answered from an entry whose own request captured its epoch before the latest purge announced when the request started |
| `OfflineCache.FloorCoversAnnouncement` | webapp/src/service-worker.ts:161-168 | a mutation or purge message seen before a request starts, in the same life of the worker, lies below what that request can be answered from |
| `OfflineCache.FloorAfterRestart` | webapp/src/service-worker.ts:161-168 | when the worker was terminated in between, it does exactly when its purge had run before the last termination or a purge of its kind was announced since |
| `OfflineCache.AnnouncedStays` | webapp/src/service-worker.ts:215-227 | an announced purge is remembered through any number of later events of the same life |
| `OfflineCache.AnnouncedAcrossRestart` | webapp/src/service-worker.ts:161-168 | an announcement outlives a termination of the worker exactly when its purge had run by then, or counts again through a later one |
| `OfflineCache.NamedEntriesAfterPurge` | webapp/src/service-worker.ts:161-168 | once a purge of generation g has run, every entry that can be found under its kind was stored by a request that captured an epoch of at least g, however slow writes interleave |
| `OfflineCache.QuietCachesBelongToOwner` | webapp/src/service-worker.ts:188-214 | whenever the chain is empty, every stored response that can be found belongs to the owner; after a sign-out nothing is left to find |
| `OfflineCache.CacheBound` | webapp/src/service-worker.ts:121-128 | a cache holds at most the limit of entries, one more while a write is between storing and evicting, and one more per write that a termination stopped there |
| `OfflineCache.NoRestartNoCut` | webapp/src/service-worker.ts:121-128 | without a termination of the worker no write is cut, so the bound has no third part |
| `OfflineCache.RestartOverLimit` | webapp/src/service-worker.ts:121-128 | a termination while a write is between storing and its end leaves a cache above the limit exactly when the cache was full, the key was new, and no step in between deleted an entry of that cache |
| `OfflineCache.CompletedWriteWithinLimit` | webapp/src/service-worker.ts:121-128 | a write that completes leaves its cache within the limit even after earlier ones were cut |
| `OfflineCache.OldestGo` | webapp/src/service-worker.ts:126-127 | what a write evicts are the oldest entries; the newest stay in their order |
| `OfflineCache.PrintedInjective` | webapp/src/service-worker.ts:106-107 | no two account caches share a printed name, for any injective encoding and prefixes of which neither begins the other |
| `OfflineCache.CacheNamesDiffer` | webapp/src/services/storage/cachePolicy.ts:1-7 | so with the prefixes of the program |
| `OfflineCache.FiltersPickKinds` | webapp/src/services/storage/cachePolicy.ts:11-25 | of the account caches the filters of image purge, mutation and stale purge pick exactly artwork, catalogue and catalogue |
| `OfflineCache.StalePurgePicks` | webapp/src/services/storage/cachePolicy.ts:1-25 | of all caches of the application the stale purge spares exactly shell, static files and metadata of this version, with what is kept beside the first two, and the artwork of this version; it never picks a cache of another application |
| `OfflineCache.StorageStep` | webapp/src/service-worker.ts:62-66 | every step keeps handles, entries, captured epochs and the bound consistent |
| `OfflineCache.FreshStep` | webapp/src/service-worker.ts:100-131 | every step keeps the relation between entries, captured epochs, announced purges and finished purges |
| `OfflineCache.SwitchStep` | webapp/src/service-worker.ts:188-214 | every step keeps what a pending change of owner will have cleaned up |
| `OfflineCache.RunInv` | webapp/src/service-worker.ts:62-228 | the four invariants hold after every run of the protocol |
| `OfflineCacheRuns.CutWriteOverLimit` | webapp/src/service-worker.ts:121-128 | a run that fills a cache, stores one more entry and is terminated before it evicts the oldest: the cache can be found and holds one entry too many |
| `OfflineCacheRuns.StaleAfterRestart` | webapp/src/service-worker.ts:156-228 | a run in which the worker is terminated between a mutation and its purge, and its next life answers a request from an entry whose request captured its epoch before the mutation |
| `OfflineCachePolicy.ExternalWhenOff` | webapp/src/service-worker.ts:172-214 | in every run, with the chain empty, somebody signed in and external artwork off, an entry of external artwork can be found only if its request captured its epoch after the latest message that switched it off, and a request for its key had been accepted before and was still waiting for the chain |
| `OfflineCachePolicy.ExternalLeft` | webapp/src/service-worker.ts:188-214 | the same after any message that leaves external artwork off, for as long as it stays off |
| `OfflineCachePolicy.ExternalAfterSwitchOff` | webapp/src/service-worker.ts:100-131 | a run with such an entry: a request accepted before the message that captures its epoch after it stores external artwork while it is off |
| `OfflineCachePolicy.CatalogLeft` | webapp/src/service-worker.ts:199-202 | after a message that changes the metadata mode, and as long as the mode stays, every entry of the catalogue that can be found once the chain has run was stored by a request that captured its epoch after the message |
| `OfflineCachePolicy.TrimIsExact` | webapp/src/service-worker.ts:206-211 | undisturbed, a trim takes out exactly the entries under the external prefix, and the others keep their order |
| `OfflineCachePolicy.ListedKeys` | webapp/src/service-worker.ts:208-209 | what a trim lists are exactly the keys with the external prefix |
| `OfflineCachePolicy.PolicyTakesExternal` | webapp/src/service-worker.ts:203-212 | in every run, what a step of a policy clean-up takes out of a cache object is external artwork |
| `OfflineCachePolicy.PolicyUnnames` | webapp/src/service-worker.ts:199-206 | in every run, a name that such a step deletes is one of the catalogue, or one of artwork where the owner had changed |
| `OfflineCachePolicy.SameOwnerKeepsArtwork` | webapp/src/service-worker.ts:203-205 | while the owner is the one that the message found, no step of its clean-up turns to deleting a cache of artwork |
| `OfflineCacheRoundTrip.StoredIsServed` | webapp/src/service-worker.ts:100-131 | in every run, whenever nothing is going on: a request that the caches take and have no young entry for goes to the network, its cacheable answer is stored, and the next request for the key is answered with that entry, for thirty days |
| `OfflineCacheRoundTrip.EntryStays` | webapp/src/service-worker.ts:100-228 | in every run, an entry stays until the lookup of its key finds it too old, a write into its cache replaces or evicts it, a purge of its kind runs, or the clean-up of a policy message is at its cache; nothing else takes it |
| `OfflineCacheRoundTrip.HitIsServed` | webapp/src/service-worker.ts:102-113 | an entry of the cache in use that is not too old is what the request is answered with, and nothing changes |
| `OfflineCacheRoundTrip.MissIsFetched` | webapp/src/service-worker.ts:108-116 | without one the request goes to the network, an entry that is too old is gone by then, and every other one is kept |
| `OfflineCacheRoundTrip.AnswerIsKept` | webapp/src/service-worker.ts:116-130 | a cacheable answer is kept in the cache in use, which then holds no other entry of the key and at most the newest thousand; no other cache changes |
| `OfflineCacheRoundTrip.TakenUp` | webapp/src/service-worker.ts:172-182 | a request is taken up exactly when somebody is signed in and it is for artwork, external artwork only while that is on, or for the catalogue in a known mode; otherwise nothing changes |
| `OfflineCacheRoundTrip.CachesApart` | webapp/src/service-worker.ts:106-107 | accounts, kinds and the two modes of the catalogue have caches of their own |
| `OfflineCacheRoundTrip.ChainRunsEmpty` | webapp/src/service-worker.ts:62-66 | in every reachable state the operations on the chain can all run to their end by their own steps, so the chain can always run empty |
| `OfflineCacheRoundTrip.SamePolicyTouchesNothing` | webapp/src/service-worker.ts:199-204 | a message that changes neither owner nor mode, with external artwork on, is dealt with without touching anything |
| `OfflineCacheRoundTrip.SameModeKeepsCatalogue` | webapp/src/service-worker.ts:199-204 | while owner and mode are those that the message found, no step of its clean-up turns to the catalogue, nor to artwork while external artwork is on |
| `ServiceWorker.Worker.OnFetch` | webapp/src/service-worker.ts:170-186 | a request is taken up exactly when somebody is signed in and the policy allows its kind, behind the chain as it is, and the invariant holds |
| `ServiceWorker.Worker.Capture` | webapp/src/service-worker.ts:102-107 | once its chain has run, the request captures generation, owner and cache name together, or gives up without an owner; the invariant holds |
| `ServiceWorker.Worker.OpenFor` | webapp/src/service-worker.ts:108 | the handle opened is that of the account captured before, existing or new, and the invariant holds |
| `ServiceWorker.Worker.MatchFor` | webapp/src/service-worker.ts:109 | the request holds the entry with its key, if any, of the cache it opened, and the invariant holds |
| `ServiceWorker.Worker.DecideFor` | webapp/src/service-worker.ts:110-113 | an answer from the cache belongs to the present owner, answers the key and is no older than the request's floor |
| `ServiceWorker.Worker.DropFor` | webapp/src/service-worker.ts:114 | exactly the entry of that key leaves the opened cache, and the invariant holds |
| `ServiceWorker.Worker.RespondFor` | webapp/src/service-worker.ts:116-130 | a cacheable response chains a write with the captured epoch and account |
| `ServiceWorker.Worker.OnPurge` | webapp/src/service-worker.ts:161-168 | a mutation or purge message bumps the generation and chains a purge of the account caches of its kind |
| `ServiceWorker.Worker.OnPolicy` | webapp/src/service-worker.ts:188-214 | a policy message reassigns the variables, bumps the generation and chains the clean-up with the previous values |
| `ServiceWorker.Worker.RunWrites` | webapp/src/service-worker.ts:62-66 | one step of the operation at the head of the chain; the operations run one after the other |
| `ServiceWorker.Worker.RunWrite` | webapp/src/service-worker.ts:121-128 | re-check, store, list, evict the oldest: one stage at a time |
| `ServiceWorker.Worker.RunPurge` | webapp/src/service-worker.ts:164-166 | list the names of the kind and delete them one by one |
| `ServiceWorker.Worker.RunPolicy` | webapp/src/service-worker.ts:199-214 | delete catalogue caches, then delete artwork caches or trim them of exactly the external entries, with the conditions evaluated when they run |
| `LoginRateLimit.AtMostTwiceTheLimit` | server-rust/src/auth/rate_limiter.rs:202-252 | over every run of attempts, releases and sweeps with clock readings that do not go back, any half-open interval as long as the window holds at most twice the limit of admissions for one address or account |
| `LoginRateLimit.SkewedTwiceTheLimit` | server-rust/src/auth/rate_limiter.rs:177-261 | at any moment of a limiter whose readings go back by at most some skew, because the clock is read before the lock is taken, the same for any interval shorter than the window by three times the skew |
| `LoginRateLimit.HistoryBounds` | server-rust/src/auth/rate_limiter.rs:202-252 | the history invariant bounds the admissions in every such interval |
| `LoginRateLimit.TwoBucketsCover` | server-rust/src/auth/rate_limiter.rs:202-252 | the admissions of one key in an interval shorter than the window by three times the skew were counted by at most two buckets |
| `LoginRateLimit.WindowWithinBuckets` | server-rust/src/auth/rate_limiter.rs:245-252 | the admissions in an interval are no more than those its buckets counted |
| `LoginRateLimit.AllowedIsLogged` | server-rust/src/auth/rate_limiter.rs:245-260 | an attempt adds one admission to the history of each of its two keys exactly when it is allowed |
| `LoginRateLimit.LimitDelay` | server-rust/src/auth/rate_limiter.rs:202-214 | when a live bucket of the attempt has reached its limit, the delay of the refusal is the least one, from a second on, after which neither has |
| `LoginRateLimit.RoomDelay` | server-rust/src/auth/rate_limiter.rs:216-243 | without a free slot the delay is a second; without room it is the least one, from a second on, after which some live bucket has expired |
| `LoginRateLimit.AdmittedWhen` | server-rust/src/auth/rate_limiter.rs:187-260 | an attempt is admitted exactly when neither of its live buckets has reached its limit, a slot is free and its buckets have room beside the live ones |
| `LoginRateLimit.TouchKeepsHistory` | server-rust/src/auth/rate_limiter.rs:245-252 | counting an attempt, with a reading that may precede earlier ones, keeps the buckets of one key a window less the skew apart and every bucket within its limit |
| `LoginRateLimit.AttemptKeepsHistory` | server-rust/src/auth/rate_limiter.rs:177-261 | a whole attempt keeps the history invariant |
| `LoginRateLimit.AttemptKeepsCapacity` | server-rust/src/auth/rate_limiter.rs:216-243 | a whole attempt keeps the table within its capacity and the permits within theirs |
| `LoginRateLimit.RunKeepsHistory` | server-rust/src/auth/rate_limiter.rs:160-261 | history, capacity and concurrency hold after every run of attempts, releases and sweeps |
| `LoginRateLimit.RetrySeconds` | server-rust/src/auth/rate_limiter.rs:211-213 | a delay is rounded up to whole seconds, at least one |
| `LoginRateLimit.MinExpiry` | server-rust/src/auth/rate_limiter.rs:233-241 | the earliest expiry of a non-empty table |
| `LoginRateLimit.Limiter.constructor` | server-rust/src/auth/rate_limiter.rs:284-304 | a limiter with a valid configuration starts as the empty eager limiter |
| `LoginRateLimit.Limiter.Admit` | server-rust/src/auth/rate_limiter.rs:177-261 | whatever the reading, the lazily swept limiter answers as the eager one would on the buckets stored and logs exactly the admitted attempts; when the reading does not precede an earlier one it changes the live buckets exactly as the eager one does; a permit is given exactly when allowed |
| `LoginRateLimit.Limiter.AdmitBuckets` | server-rust/src/auth/rate_limiter.rs:177-261 | the same for the buckets alone |
| `LoginRateLimit.Limiter.Decide` | server-rust/src/auth/rate_limiter.rs:187-243 | the checks of an attempt drop expired buckets only and give the eager verdict |
| `LoginRateLimit.Limiter.Sweep` | server-rust/src/auth/rate_limiter.rs:187-200 | the periodic sweep and the removal of the attempt's own expired buckets leave the live buckets as they are |
| `LoginRateLimit.Limiter.BlockedUntil` | server-rust/src/auth/rate_limiter.rs:202-214 | the later expiry of the attempt's exhausted buckets, which decides the delay as in `LoginRateLimit.LimitDelay` |
| `LoginRateLimit.Limiter.Cleanup` | server-rust/src/auth/rate_limiter.rs:160-170 | a sweep at any reading drops the buckets expired by then and nothing else, which is what it does to the eager limiter |
| `LoginRateLimit.Limiter.CleanupLocked` | server-rust/src/auth/rate_limiter.rs:263-268 | exactly the unexpired buckets stay |
| `LoginRateLimit.Limiter.Grant` | server-rust/src/auth/rate_limiter.rs:254-260 | the counter grows by one with a fresh permit and stays the number of permits out |
| `LoginRateLimit.Limiter.SwapReleased` | server-rust/src/auth/rate_limiter.rs:94-99 | of all clones of a permit only the first release wins |
| `LoginRateLimit.Limiter.ReturnSlot` | server-rust/src/auth/rate_limiter.rs:96-99 | the counter is unreleased permits plus those between flag and decrement, and the subtraction never saturates |
| `AcquisitionWindow.SkewedWindow` | server-rust/src/acquisition/service.rs:411-474 | in every run whose readings go back by at most some skew, for every T the admissions in (T - (window - skew), T] are at most the global limit, and the per-user limit of each user |
| `AcquisitionWindow.SlidingWindow` | server-rust/src/acquisition/service.rs:411-474 | so with readings in order, the case without skew, the admissions in (T - window, T] are |
| `AcquisitionWindow.StoredExactly` | server-rust/src/acquisition/service.rs:457-471 | in every history, however its readings are ordered, a stored vector holds after a cutoff no more than all admissions ever made, and exactly those unless one that counts was pruned by a visit with a later reading |
| `AcquisitionWindow.MissingBetween` | server-rust/src/acquisition/service.rs:457-471 | when readings go back by less than the window, something that counts is missing exactly when an admission lies between the cutoff and that of the latest visit that consulted the vector |
| `AcquisitionWindow.Decides` | server-rust/src/acquisition/service.rs:453-471 | nobody is refused whom the full history admits, and somebody is admitted whom it refuses only when a consulted vector misses an admission that counts |
| `AcquisitionWindow.RateWindow.Check` | server-rust/src/acquisition/service.rs:411-474 | the vectors stay what replaying all visits leaves, a submission is admitted exactly when pending jobs and stored vectors leave room, and then its reading is in both vectors within their limits |
| `AcquisitionWindow.RateWindow.constructor` | server-rust/src/acquisition/service.rs:453-454 | empty vectors are what the empty history leaves |
| `AcquisitionWindow.CountWithin` | server-rust/src/acquisition/service.rs:457-468 | an interval holds no more admissions than the pruned full history, and as many when nothing is later |
| `AcquisitionWindow.AfterTwice` | server-rust/src/acquisition/service.rs:457-466 | pruning twice is pruning at the later cutoff, however late or often |
| `AcquisitionWindow.StaleReadingExceedsLimit` | server-rust/src/acquisition/service.rs:450-471 | a run in which a reading taken before the lock and used a whole window later exceeds both the global and the per-user limit |
| `PlaylistImport.Convergence` | server-rust/src/acquisition/repository.rs:510-873 | over any number of runs, killed, cancelled or failing to save anywhere, a run on what is left would leave the job that one uninterrupted run would have left exactly as long as no cancel was saved; a run that then finishes leaves it; and all runs repeat at most one download per mishap |
| `PlaylistImport.Run` | server-rust/src/acquisition/repository.rs:510-873 | one run, however it ends: what it saved finishes as what it found would have; left alone it finishes or saves the failure it reports; cancelled before an entry it ends so, and the record keeps its manifest exactly when this run had passed an entry that needed a download |
| `PlaylistImport.CancelLosesManifest` | server-rust/src/acquisition/repository.rs:609-622 | a job cancelled before its first download has lost its manifest, and no later run brings it back |
| `PlaylistImport.RunEntries` | server-rust/src/acquisition/repository.rs:609-792 | the loop over the manifest, with a checkpoint after each download |
| `PlaylistImport.DownloadEntry` | server-rust/src/acquisition/repository.rs:666-726 | one download and its checkpoint, and the end of the run when the downloader is broken |
| `PlaylistImport.RunWhole` | server-rust/src/acquisition/repository.rs:793-853 | the import of a whole playlist when there is no manifest |
| `PlaylistImport.Close` | server-rust/src/acquisition/repository.rs:744-792 | the terminal status and the last save |
| `PlaylistImport.Checkpoints.Save` | server-rust/src/acquisition/repository.rs:162-223 | a save replaces the record or changes nothing |
| `PlaylistImport.FromPointwise` | server-rust/src/acquisition/repository.rs:613-792 | the final manifest entry by entry, up to the first entry that breaks the downloader, and the status as a function of it |
| `PlaylistImport.PendingOutcome` | server-rust/src/acquisition/repository.rs:640-686 | a pending entry, up to the one that breaks the downloader: completed with its file and position exactly when its download gave files, failed with the message exactly when it did not, without metadata exactly when title, artist and address are blank |
| `PlaylistImport.AfterBreakUntouched` | server-rust/src/acquisition/repository.rs:677-699 | behind the entry that breaks the downloader nothing changes |
| `PlaylistImport.JobOutcome` | server-rust/src/acquisition/repository.rs:744-792 | without a break the job has failed exactly when nothing is completed and something failed, is partial exactly when there is some of each and completed exactly when nothing failed; its counts are those of its manifest, name and description are kept or made |
| `PlaylistImport.BrokenOutcome` | server-rust/src/acquisition/repository.rs:677-699 | with a break the job has failed with the message of that download, names that track and counts the failed downloads |
| `PlaylistImport.LastNamed` | server-rust/src/acquisition/repository.rs:640-648 | the track that the job names last is that of its last pending entry |
| `PlaylistImport.FirstErrorIs` | server-rust/src/acquisition/repository.rs:770-777 | the error of a job whose entries failed is that of the first entry that has one |
| `PlaylistImport.OtherOutcomes` | server-rust/src/acquisition/repository.rs:556-584 | a disabled owner and an address that cannot be read fail the job with their messages |
| `PlaylistImport.CountIsSize` | server-rust/src/acquisition/repository.rs:701-714 | the counts are numbers of entries of the manifest |
| `PlaylistImport.SettledEntriesKeepOutcome` | server-rust/src/acquisition/repository.rs:624-638 | an entry that is settled keeps its outcome in every later run |
| `PlaylistImport.Resume` | server-rust/src/acquisition/repository.rs:721-726 | starting again from a saved checkpoint is going on from where it was saved |
| `PlaylistImport.FinishIdempotent` | server-rust/src/acquisition/repository.rs:534-554 | a finished job that is run again stays as it is |
| `PlaylistImport.LoopDownloads` | server-rust/src/acquisition/repository.rs:666-726 | the loop invariant across a download, whether or not its checkpoint was saved |
| `PlaylistImport.LoopBreaks` | server-rust/src/acquisition/repository.rs:677-699 | the loop invariant gives the final record when the downloader breaks |
| `Migrations.LedgerIsPrefix` | server-rust/src/db/migrations.rs:175-234 | for any runners, ceilings, crashes and failed transactions the ledger is a prefix, each migration was applied once and in order, and the store is the ordered fold |
| `Migrations.Confluence` | server-rust/src/db/migrations.rs:175-234 | two histories in each of which a runner without ceiling ended well leave the same database: in stages is at once |
| `Migrations.DoneReachesCeiling` | server-rust/src/db/migrations.rs:184-227 | a runner that ends well leaves everything up to its ceiling applied |
| `Migrations.ReportsAreDisjoint` | server-rust/src/db/migrations.rs:201-223 | no migration is reported as newly applied by two runners |
| `Migrations.EveryApplicationIsReported` | server-rust/src/db/migrations.rs:175-234 | in every run a migration that was not there at the start is applied exactly when some runner reports it, however that runner ended |
| `Migrations.RunnerFinishes` | server-rust/src/db/migrations.rs:184-227 | in every reachable database a runner whose transactions commit ends well within one step per migration and one more, and adds to its report exactly what was missing up to its ceiling, in order |
| `Migrations.StartedFinishes` | server-rust/src/db/migrations.rs:175-234 | a runner started at any point of any run and left alone leaves everything up to its ceiling applied and reports exactly what was missing |
| `Migrations.FailuresChangeNothing` | server-rust/src/db/migrations.rs:192-226 | a transaction that does not commit and a crash leave the database as it was and end their runner; a runner that has ended stays as it ended |
| `Migrations.RunInv` | server-rust/src/db/migrations.rs:175-234 | the invariant of ledger, store and runners holds after every run |
| `Migrations.Database.RunMigrations` | server-rust/src/db/migrations.rs:175-234 | with other runners between its transactions, a run that succeeds reaches its ceiling and reports in increasing order ids that it applied and that were not there before; alone, it fails exactly when the transaction of a missing id up to its ceiling does, with everything before that id applied |
| `Migrations.Database.Transact` | server-rust/src/db/migrations.rs:192-226 | the re-check under the write lock applies an id exactly when it is missing |
| `Migrations.CommitKeepsPrefix` | server-rust/src/db/migrations.rs:201-223 | applying an id whose predecessors are all applied extends the prefix by one |
| `FolderForest.RejectsExactlyCycles` | server-rust/src/db/migrations_sql.rs:49 | on a forest the trigger rejects an update of the parent exactly when it would leave something else |
| `FolderForest.ClosesCycle` | server-rust/src/db/migrations_sql.rs:49 | on any finite table, cyclic or not, a new parent closes a cycle through the row exactly when the row was above it |
| `FolderForest.RunKeepsForest` | server-rust/src/db/migrations_sql.rs:49 | over every run of updates, inserts and deletes every table is a forest exactly when no insert was of a row above its own parent |
| `FolderForest.InsertKeepsForest` | server-rust/src/db/migrations_sql.rs:49 | an insert, which nothing guards, keeps a forest exactly when the new id is not above its own parent |
| `FolderForest.FreshLeafKeepsForest` | server-rust/src/db/migrations_sql.rs:49 | a new row under an existing one keeps a forest while no parent dangles |
| `FolderForest.InsertsCanCloseCycle` | server-rust/src/db/migrations_sql.rs:49 | one transaction can insert a folder under itself, or two under each other |
| `FolderForest.EveryClimbEnds` | server-rust/src/db/migrations_sql.rs:49 | in a forest every folder has a root within as many steps as there are rows |
| `FolderForest.FolderTable.Ancestors` | server-rust/src/db/migrations_sql.rs:49 | the recursive query ends on every finite table with exactly the start and what is above it |
| `FolderForest.FolderTable.SetParent` | server-rust/src/db/migrations_sql.rs:49 | an update is refused exactly when the trigger rejects it |
| `FolderForest.FolderTable.Insert` | server-rust/src/db/migrations_sql.rs:49 | an insert changes its own row only |
| `FolderForest.FolderTable.Delete` | server-rust/src/db/migrations_sql.rs:49 | a delete removes its own row only |
| `ActivityTable.RunAgrees` | server-rust/src/db/migrations_sql.rs:5 | after every run of inserts, updates (also to another user or track), deletes and user removals each existing user's row is what the query computes from scratch, an absent row meaning zeros |
| `ActivityTable.StepKeeps` | server-rust/src/db/migrations_sql.rs:51 | the same for one statement, under the taste rules as well |
| `ActivityTable.ListenCounts` | server-rust/src/db/migrations_sql.rs:51 | in a table that agrees, a new event that the rules keep adds one to the plays of its row for a play or completion, one to the skips for a skip or a finished report with listening, and its time if later where it counts; no other row changes |
| `ActivityTable.RecentCounts` | server-rust/src/db/migrations_sql.rs:51 | the same for a recent play |
| `ActivityTable.DeleteUndoesInsert` | server-rust/src/db/migrations_sql.rs:51 | deleting a row takes back what inserting it did, for every user and track |
| `ActivityTable.UpdateIsDeleteAndInsert` | server-rust/src/db/migrations_sql.rs:51 | updating a row is deleting it and inserting what it becomes, also where it moves to another user or track |
| `ActivityTable.UsersComeAndGo` | server-rust/src/db/migrations_sql.rs:5 | a new user starts without figures; one who goes takes every row along and nobody else loses one |
| `ActivityTable.ExclusionHides` | server-rust/src/db/migrations_sql.rs:51 | an exclusion hides the user's rows of that track, and those of that recording under any track, and nothing else: the figures are as if they had never been written |
| `ActivityTable.ResetHides` | server-rust/src/db/migrations_sql.rs:51 | a reset hides the user's rows up to its time and nothing else |
| `ActivityTable.PlainTaste` | server-rust/src/db/migrations_sql.rs:51 | without resets and exclusions the taste rules keep exactly the rows after the floor that are not marked |
| `ActivityTable.FillAgrees` | server-rust/src/db/migrations_sql.rs:41 | filling the table makes it agree exactly when it held no figures for groups without rows |
| `ActivityTable.FillEmptyOrAgreeing` | server-rust/src/db/migrations_sql.rs:51 | so filling an emptied table (migrations 33 and 43) or one that agreed (migration 39) makes it agree |
| `ActivityTable.HeardFrame` | server-rust/src/db/migrations_sql.rs:5 | the aggregate of a user and track depends on the rows of that user and track only |
| `ActivityTable.RebuildUserAgrees` | server-rust/src/profile/taste.rs:608-648 | the taste service's own rebuild, uninterrupted, agrees for a track exactly when no kept event with a readable date is later than every kept event that the query dates; other users are not touched |
| `ActivityTable.LooseHeardAgrees` | server-rust/src/profile/taste.rs:616-632 | the same for the figures of its first insert |
| `ActivityTable.Inserted` | server-rust/src/profile/taste.rs:616-647 | what the two inserts of a rebuild leave of any table: the first is refused as a whole exactly when a row is under one of its keys, and then every track keeps the listening figures it had |
| `ActivityTable.InterruptedRebuildLoses` | server-rust/src/profile/taste.rs:608-648 | a play of one track between the statements, after which the play of another is no longer in the table |
| `ActivityTable.RebuildUserCanDisagree` | server-rust/src/profile/taste.rs:608-648 | a progress report without listening, later than a play, makes it disagree |
| `ActivityTable.ResetAgrees` | server-rust/src/profile/taste.rs:801-840 | a taste reset agrees for a track exactly when no row kept after the new starting point contributes |
| `ActivityTable.ResetLosesLaterRow` | server-rust/src/profile/taste.rs:815-837 | a play recorded after the starting point was taken and before the rows are deleted is counted by the query and not in the table |
| `ActivityTable.Database.constructor` | server-rust/src/db/migrations_sql.rs:51 | migration 43 leaves a table that agrees, whatever was there |
| `ActivityTable.Database.InsertListen` | server-rust/src/db/migrations_sql.rs:5 | refused exactly for a used id or a missing user; afterwards the table still agrees with the query |
| `ActivityTable.Database.UpdateListen` | server-rust/src/db/migrations_sql.rs:5 | also when the row moves to another user or track, both are refreshed and the table still agrees with the query |
| `ActivityTable.Database.DeleteListen` | server-rust/src/db/migrations_sql.rs:5 | the table still agrees with the query after the row is gone |
| `ActivityTable.Database.InsertRecent` | server-rust/src/db/migrations_sql.rs:5 | refused exactly for a used id or a missing user; afterwards the table still agrees with the query |
| `ActivityTable.Database.UpdateRecent` | server-rust/src/db/migrations_sql.rs:5 | also when the row moves to another user or track, both are refreshed and the table still agrees with the query |
| `ActivityTable.Database.DeleteRecent` | server-rust/src/db/migrations_sql.rs:5 | the table still agrees with the query after the row is gone |
| `LibraryShrinker.Shrink` | server-rust/src/audio/shrink.rs:310-432 | every state on the way is safe; each FLAC is gone exactly when counted as converted, and then its MP3 holds its track; the counts add up; when no operation fails, exactly the FLACs are converted whose MP3 is smaller and whose MP3 name is free at their turn, and no scratch file is left |
| `LibraryShrinker.TracksExist` | server-rust/src/audio/shrink.rs:342-429 | at every moment each eligible track exists as its FLAC or its linked MP3 |
| `LibraryShrinker.Mp3sUntouched` | server-rust/src/audio/shrink.rs:342-347 | at every moment no MP3 of the start is overwritten or gone |
| `LibraryShrinker.ReferencesResolve` | server-rust/src/audio/shrink.rs:241-307 | at every moment every line that referred to an existing file still refers to one, if that is no FLAC to convert, or the playlist is read for it and the line is absolute or without backslash, or it is not read for it and the FLAC is still there |
| `LibraryShrinker.ReferenceSurvives` | server-rust/src/audio/shrink.rs:249-287 | once a FLAC is gone, a line that named it refers to its MP3 exactly when its playlist was read for that FLAC and the line is absolute or without backslash; in a playlist that was not read it still names the FLAC |
| `LibraryShrinker.TargetSurvives` | server-rust/src/audio/shrink.rs:265-284 | once a FLAC is gone, a line that led to it, through `.` or `..` or not, leads to its MP3 exactly when it gave the name found by the walk, its playlist was read and the line is absolute or without backslash |
| `LibraryShrinker.UnreadPlaylistLoses` | server-rust/src/audio/shrink.rs:249-251 | a whole run in which only the reading of the playlist fails: the FLAC is removed and the playlist still names it |
| `LibraryShrinker.DotSegmentLoses` | server-rust/src/audio/shrink.rs:265-274 | a whole run in which nothing fails and the line `../A/x.flac` is left leading to nothing |
| `LibraryShrinker.BackslashLost` | server-rust/src/audio/shrink.rs:281-282 | the relative line `a\b.flac` is rewritten to a name in another directory |
| `LibraryShrinker.RewriteRefers` | server-rust/src/audio/shrink.rs:265-284 | a rewritten line refers to the MP3: always when absolute, and when relative exactly when it has no backslash |
| `LibraryShrinker.TrimTakesBlanks` | server-rust/src/audio/shrink.rs:258-262 | trimming a line takes away the surrounding blanks and nothing else |
| `LibraryShrinker.LinkSafe` | server-rust/src/audio/shrink.rs:403-405 | linking the MP3 under a free name keeps every promise |
| `LibraryShrinker.RenameSafe` | server-rust/src/audio/shrink.rs:289-303 | replacing a playlist that was read by its rewritten form keeps every promise |
| `LibraryShrinker.RemoveSafe` | server-rust/src/audio/shrink.rs:407-409 | removing a FLAC that has its MP3 and that no playlist read for it names keeps every promise |
| `LibraryShrinker.RewriteReferences` | server-rust/src/audio/shrink.rs:241-307 | when it succeeds no playlist that could be read for the FLAC names it any more; files other than playlists stay |
| `LibraryShrinker.RewriteText` | server-rust/src/audio/shrink.rs:256-287 | the lines of one playlist, rewritten one by one, and whether any was |
| `LibraryShrinker.RewriteTextLine` | server-rust/src/audio/shrink.rs:258-284 | one line, rewritten |
| `LibraryShrinker.Replace` | server-rust/src/audio/shrink.rs:293-304 | the new text goes through a scratch file that is renamed over the playlist |
| `LibraryShrinker.Convert` | server-rust/src/audio/shrink.rs:361-412 | a conversion touches its FLAC, its free MP3 name, playlists and scratch files only, removes the FLAC exactly when it says what it saved, and does so unless something failed, the MP3 is not smaller or its name is taken |
| `LibraryShrinker.LinkAndRemove` | server-rust/src/audio/shrink.rs:403-411 | link, rewrite, remove, in this order, each of which may fail |
| `MusicIdentity.KeysDecide` | server-rust/src/catalog/identity.rs:235-308 | two items get the same key exactly when derived in the same tier with the same type and fields, provider names having no colon; which fields those are say the five lemmas on the tiers |
| `MusicIdentity.ParsePrint` | server-rust/src/catalog/identity.rs:235-308 | every printed key reads back as the tier and the fields it was printed from |
| `MusicIdentity.ProviderClash` | server-rust/src/catalog/identity.rs:298-303 | ids of two providers can give the same key exactly when one name followed by a colon begins the other |
| `MusicIdentity.SignatureDecides` | server-rust/src/catalog/identity.rs:212-223 | two version signatures are equal exactly when the same markers were found, each as often, in whatever order |
| `MusicIdentity.RepeatedMarkerSeparates` | server-rust/src/catalog/identity.rs:210-223 | the title "live live" gets another signature than "live" |
| `MusicIdentity.NormalizedClean` | server-rust/src/catalog/identity.rs:176-207 | normalised text holds no colon and no plus sign |
| `MusicIdentity.Normalize` | server-rust/src/catalog/identity.rs:176-207 | the loop with its buffer gives the lower-cased runs of letters and digits joined by single spaces |
| `MusicIdentity.DerivedClean` | server-rust/src/catalog/identity.rs:235-308 | every field of a derived key is free of colons |
| `MusicIdentity.MusicBrainzDecides` | server-rust/src/catalog/identity.rs:237-249 | an item with a MusicBrainz id shares its key with exactly the items of its type that have the same normalised id, whatever else is known |
| `MusicIdentity.CodesDecide` | server-rust/src/catalog/identity.rs:250-271 | one tier below, the same for the ISRC of a track and the UPC of an album |
| `MusicIdentity.VersionsStayApart` | server-rust/src/catalog/identity.rs:272-296 | a track known by title, artist and album shares its key with exactly such tracks for which those agree once normalised and the same version markers occur: a live recording never takes the identity of a studio one |
| `MusicIdentity.AlbumsDecide` | server-rust/src/catalog/identity.rs:272-282 | an album known by title and artist shares its key with exactly such albums whose normalised titles and artists and whose version markers agree |
| `MusicIdentity.ArtistsDecide` | server-rust/src/catalog/identity.rs:272-279 | an artist known by name shares a key with exactly such artists of the same normalised name |
| `MusicIdentity.ProviderDecides` | server-rust/src/catalog/identity.rs:298-307 | an item that no other tier takes shares a key only with such an item of its own type, provider and id |
| `MusicIdentity.NormalizedDecides` | server-rust/src/catalog/identity.rs:176-207 | two texts are the same once normalised exactly when they have the same words |
| `MusicIdentity.WordsAreRuns` | server-rust/src/catalog/identity.rs:192-205 | the words are the maximal runs of letters and digits, all of them, in order and in lower case |
| `MusicIdentity.TokensCounted` | server-rust/src/catalog/identity.rs:212-223 | a marker is in the signature as often as a text that normalises to it was found, and texts that normalise to nothing are left out |
| `CatalogMerge.MatchSymmetric` | server-rust/src/catalog/merge.rs:64-119 | it does not matter which of two recordings is the local one, and only tracks match |
| `CatalogMerge.CommonSchemeDecides` | server-rust/src/catalog/merge.rs:77-87 | with identifiers of a common scheme, tracks match exactly when they share an identifier of any |
| `CatalogMerge.HintsDecide` | server-rust/src/catalog/merge.rs:33-87 | so for tracks without an identity derived from such identifiers, a common normalised ISRC or MusicBrainz id decides |
| `CatalogMerge.DisagreeingSchemes` | server-rust/src/catalog/merge.rs:6-87 | two tracks whose identifiers of one scheme disagree match exactly when they share an identifier of the other scheme; titles, artists and lengths play no part |
| `CatalogMerge.DifferentIsrcsMatch` | server-rust/src/catalog/merge.rs:77-87 | two recordings of different ISRC, title, artist and length that match through one MusicBrainz id |
| `CatalogMerge.MetadataDecides` | server-rust/src/catalog/merge.rs:89-118 | without a common scheme, tracks match exactly when titles and versions agree, an artist is credited on the other side and known durations are at most 20 seconds apart |
| `CatalogMerge.TitleKeyDecides` | server-rust/src/catalog/merge.rs:25-31 | two title keys are equal exactly when titles and version signatures are |
| `CatalogMerge.IdsConserved` | server-rust/src/catalog/merge.rs:127-165 | when local items are appended, the ids of the result are the local ids and those of unmatched catalogue tracks |
| `CatalogMerge.MergedInOrder` | server-rust/src/catalog/merge.rs:127-165 | the result is the catalogue's tracks, all of them in order, each with id, provider and, where it has one, artwork of the first local track that matches and otherwise as it was; then, if wanted, the local items no track took over, all of them in order |
| `CatalogMerge.LocalsKept` | server-rust/src/catalog/merge.rs:127-165 | every local item stands unchanged in the result or a matching catalogue track took over its id and provider |
| `CatalogMerge.FirstMatchIs` | server-rust/src/catalog/merge.rs:139-142 | the local track taken over is the first that matches |
| `CatalogMerge.MergeAlbumTracks` | server-rust/src/catalog/merge.rs:127-165 | the loops give the catalogue's tracks in order, each as it was or taken over, then the unused local items in order |
| `SilenceCache.NoStaleProfile` | server-rust/src/audio/silence.rs:233-256 | in every interleaving a profile returned for an existing track was begun after every change observed before the lookup read the revision |
| `SilenceCache.FreshAtReturn` | server-rust/src/audio/silence.rs:239-256 | it is fresh when returned exactly when nothing was observed between the lookup's two queries |
| `SilenceCache.StaleAtReturn` | server-rust/src/audio/silence.rs:239-256 | a run in which an analysis persists late and a lookup that had read the old revision returns it |
| `SilenceCache.RescanKeepsProfiles` | server-rust/src/catalog/library.rs:349-436 | observing the same hint again keeps every revision and profile |
| `SilenceCache.ObservedChange` | server-rust/src/catalog/library.rs:373-415 | a hint with another fingerprint than the one on record, or another path than a known one, gives the track a revision made in this step and takes its profiles; any other hint, or one for an unknown source, changes no revision and no profile |
| `SilenceCache.ObservedContent` | server-rust/src/catalog/library.rs:412-436 | what a hint says replaces what is on record, and what it leaves out stays |
| `SilenceCache.InvalidatedTracks` | server-rust/src/catalog/library.rs:298-347 | invalidating a connection renews exactly the tracks with a source there |
| `SilenceCache.ChangesAreObserved` | server-rust/src/catalog/library.rs:298-436 | in every run the changes that the results on stale profiles speak of are those of the events: such hints and such invalidations |
| `SilenceCache.CurrentStays` | server-rust/src/audio/silence.rs:233-256 | a profile of the present revision stays until its track is changed or deleted or another analysis with the same parameters is put in its place |
| `SilenceCache.PersistedIsCurrent` | server-rust/src/audio/silence.rs:368-425 | an analysis leaves a profile of the present revision exactly when the track has not changed since it began |
| `SilenceCache.AnalysedIsCurrent` | server-rust/src/audio/silence.rs:283-425 | an analysis that nothing interrupts does |
| `SilenceCache.LookupReturns` | server-rust/src/audio/silence.rs:239-256 | a lookup returns a profile exactly when one of the revision of its first query is stored |
| `SilenceCache.CurrentIsServed` | server-rust/src/audio/silence.rs:218-256 | a lookup that nothing interrupts returns the profile of the present revision |
| `SilenceCache.StepInv` | server-rust/src/catalog/library.rs:298-436 | every step keeps: what a stored or pending read saw was current when it was read |
| `SilenceCache.Library.EnsureId` | server-rust/src/catalog/library.rs:104-186 | the id of the item that has the source, or a new item, which exists; a hint given with it is observed in the same call |
| `SilenceCache.Library.Remove` | server-rust/src/db/migrations_sql.rs:13 | a deleted track takes its sources with it |
| `SilenceCache.Library.ObserveContent` | server-rust/src/catalog/library.rs:349-436 | a differing fingerprint or path rotates the revision and drops the profiles in one step |
| `SilenceCache.Library.InvalidateConnection` | server-rust/src/catalog/library.rs:298-347 | every track of the connection gets a new revision and loses its profiles |
| `SilenceCache.Library.StartAnalysis` | server-rust/src/audio/silence.rs:283-290 | an analysis reads the revision before it starts |
| `SilenceCache.Library.PersistRow` | server-rust/src/audio/silence.rs:368-425 | its profile replaces whatever was stored for the parameters |
| `SilenceCache.Library.ReadRevision` | server-rust/src/audio/silence.rs:218-230 | a lookup remembers the revision that the track has at this moment |
| `SilenceCache.Library.SelectProfile` | server-rust/src/audio/silence.rs:241-256 | the second query: a profile of exactly the revision read |
| `RuntimeGate.Exclusion` | server-rust/src/lib.rs:586-599 | at most one update is active, privacy updates wait for it, and no handler holds the gate while a guard is held |
| `RuntimeGate.ReadyWhenCompleted` | server-rust/src/lib.rs:300-322 | with no update active the server is ready exactly when the last ending that was not unchanged was a completion, or there was none; outside calls are suspended otherwise |
| `RuntimeGate.FailsClosed` | server-rust/src/lib.rs:300-322 | after an abandoned or cancelled update only a completion restores readiness |
| `RuntimeGate.HandlersInside` | server-rust/src/lib.rs:546-548 | in every run the handlers inside are those that came while no guard was out and have not left |
| `RuntimeGate.PrivacyHolds` | server-rust/src/lib.rs:563-565 | in every run a privacy change holds the mutex exactly from when it was given to it, free, to when it gives it back |
| `RuntimeGate.EveryUpdateCanEnter` | server-rust/src/lib.rs:586-600 | in every run an update that was asked for can still be let in: whoever holds the mutex can give it up, and the handlers inside can leave |
| `RuntimeGate.AskAndCancel` | server-rust/src/lib.rs:586-592 | an update is asked for once, and one that waits for the mutex can go away |
| `RuntimeGate.RunInv` | server-rust/src/lib.rs:300-322 | locks, guards, flag and endings agree after every run |
| `RuntimeGate.Gate.Begin` | server-rust/src/lib.rs:586-591 | with the mutex held, the old readiness is remembered, outside calls are suspended and the server is not ready; the invariant holds |
| `RuntimeGate.Gate.Acquire` | server-rust/src/lib.rs:592-599 | the guard exists only with no handler and no other guard inside, and the server is not ready; the invariant holds |
| `RuntimeGate.Gate.Complete` | server-rust/src/lib.rs:308-314 | outside calls resume, the server is ready and both locks are free; the invariant holds |
| `RuntimeGate.Gate.Unchanged` | server-rust/src/lib.rs:317-321 | readiness is what it was before the update, and both locks are free; the invariant holds |
| `RuntimeGate.Gate.Drop` | server-rust/src/lib.rs:300-306 | the server stays not ready and suspended, and both locks are free; the invariant holds |
| `RuntimeGate.Gate.CancelDraining` | server-rust/src/lib.rs:586-592 | the server stays not ready and suspended, and the mutex is free; the invariant holds |
| `OrphanPruning.FindOrphanedTracks` | server-rust/src/admin/library_health_scan.rs:395-435 | an id is judged an orphan exactly when it is unlisted and all its sources are on listed connections, whatever the order of the rows; the result is sorted and without repetition |
| `OrphanPruning.JudgedAreOrphans` | server-rust/src/admin/library_health_scan.rs:413-427 | the fold over the rows decides the same as the definition |
| `OrphanPruning.Database.PruneTracks` | server-rust/src/admin/library_health_scan.rs:437-503 | removes exactly the orphans that no playlist holds, with what removed and remaining rows add up to, or nothing when the transaction does not start or commit; the reported number of tracks is right exactly when it commits or there was none to remove |
| `OrphanPruning.FailedCommit` | server-rust/src/admin/library_health_scan.rs:501-502 | a commit that fails, after which the track is still there and reported as removed |
| `OrphanPruning.Database.DeleteTrack` | server-rust/src/admin/library_health_scan.rs:469-498 | exactly the track, its sources, favourites and ratings go, and removed and remaining rows add up |
| `OrphanPruning.ExecuteScan` | server-rust/src/admin/library_health_scan.rs:239-340 | with pruning, a complete listing and a transaction that commits, exactly the judged orphans go that no playlist holds; otherwise nothing goes; no new dangling favourite or rating appears |
| `OrphanPruning.RemovedWereOrphans` | server-rust/src/admin/library_health_scan.rs:318-338 | what a pass removes is a track that was unlisted, had only sources on listed connections and is in no playlist |
| `OrphanPruning.NoNewDangling` | server-rust/src/admin/library_health_scan.rs:469-498 | removing tracks with their references leaves no well-typed reference dangling that did not before |
| `OrphanPruning.MistypedMarkDangles` | server-rust/src/admin/library_health_scan.rs:481-494 | a rating of another kind is left dangling exactly when its item goes |
| `CastLeases.LeasesCountGuards` | server-rust/src/cast/mod.rs:227-372 | in every run every lease counts exactly its live guards and the three limits hold |
| `CastLeases.DropIsExact` | server-rust/src/cast/mod.rs:136-144 | dropping a guard never meets zero, takes one from its own lease if present, and changes nothing after its lease is gone |
| `CastLeases.RevokedStaysRevoked` | server-rust/src/cast/mod.rs:300-322 | a revoked ticket stays revoked |
| `CastLeases.LeaseHistory` | server-rust/src/cast/mod.rs:227-378 | in every run the tickets with a lease are exactly those that an acceptable request made while there was room and that nothing has ended since: revocation by their session, removal of all, or use or clean-up after expiry; the lease is for the session and track of that request and lasts a day |
| `CastLeases.LeaseAfter` | server-rust/src/cast/mod.rs:227-378 | the same for one event |
| `CastLeases.StreamAnswers` | server-rust/src/cast/mod.rs:324-372 | a stream is let in exactly when the ticket has an unexpired lease with fewer than four streams open; a full ticket and one that is no good are told apart |
| `CastLeases.RevokeAnswers` | server-rust/src/cast/mod.rs:300-322 | a session may revoke its own tickets and those that are gone; a ticket of another session stays |
| `CastLeases.CreateAnswers` | server-rust/src/cast/mod.rs:227-298 | a ticket is refused for its request or for want of room, and then none is made |
| `CastLeases.RunInv` | server-rust/src/cast/mod.rs:227-378 | counts and limits hold after every run |
| `CastLeases.Gateway.Create` | server-rust/src/cast/mod.rs:227-298 | exactly the expired leases go, and the new one is stored exactly when both limits leave room |
| `CastLeases.Gateway.RevokeTicket` | server-rust/src/cast/mod.rs:300-322 | a lease of another session is refused and stays; otherwise exactly this lease goes |
| `CastLeases.Gateway.AcquireStream` | server-rust/src/cast/mod.rs:324-372 | a missing or expired ticket is unauthorised and an expired one goes; at four connections it is refused; otherwise its count grows by one with a new guard |
| `CastLeases.Gateway.Drop` | server-rust/src/cast/mod.rs:136-144 | the guard is gone, only its own lease counts one less, and counts and limits hold |
| `CastLeases.Gateway.Clear` | server-rust/src/cast/mod.rs:374-378 | no lease is left, live guards stay without one, and counts and limits hold |

## Left out

- OfflineCache.ServedAfterAnnouncement: speaks of the request's floor; which announcements lie below it, within one life of the worker and across terminations, is the subject of `OfflineCache.FloorCoversAnnouncement` and `OfflineCache.FloorAfterRestart`
- OfflineCache.CacheBound: speaks of account caches; the shell, static and outdated caches, navigation and audio are not modelled
- ServiceWorker.Worker.OnPurge: of what a stale purge deletes, covers the account caches, which `OfflineCache.FiltersPickKinds` tells apart; which names it picks is `OfflineCache.StalePurgePicks`
- OfflineCache.QuietCachesBelongToOwner: says nothing before the first policy message after a start of the worker, when the owner is not known yet
- LoginRateLimit.Limiter.Cleanup: a sweep at a future time counts as the clock having come there, so attempts in between are not covered
- AcquisitionWindow.RateWindow.Check: the numbers of pending jobs are parameters; they are read before the lock and retries skip the check, so they are no invariant
- PlaylistImport.RunEntries: the files themselves are not modelled; the program deletes its staging directory at the end of every run
- Migrations.LedgerIsPrefix: the scripts are an abstract function of the database; migration 39, seeding and the backfills are not modelled in detail
- FolderForest.RunKeepsForest: owners of folders play no part in the trigger and are left out
- ActivityTable.RunAgrees: holds while taste settings and exclusions stay as they are; changes of them rebuild or reset the table, which is treated apart
- LibraryShrinker.TargetSurvives: resolves `.` and `..` in names, and no symbolic links
- LibraryShrinker.ReferencesResolve: Windows path keys, line endings and other writers are left out
- MusicIdentity.Normalize: decomposition, ampersands and the removal of a featuring suffix are one abstract function
- MusicIdentity.KeysDecide: compares keys; the id is a truncated hash of the key
- CatalogMerge.IdsConserved: merging of artist albums and best matches are left out
- SilenceCache.NoStaleProfile: is about tracks that exist; the lookup without parameters, a query without revisions, is left out
- SilenceCache.Library.EnsureId: concurrent calls for one source are left out, because the schema does not enforce one item per source
- OrphanPruning.ExecuteScan: lists and the rest of the report are left out; the listing is a parameter
- CastLeases.LeasesCountGuards: needs fresh tickets; signing and content types are left out
- HTTP routing, streaming transport, the desktop shell and the user interface: plumbing without state of their own
- Subprocesses, cryptography, Unicode tables, regular expressions and URL parsing: parameters or abstract functions
- Status changes of acquisition jobs: single unconditional updates
- Loudness, trim bounds, configuration parsing and source ordering: single functions that would add only easy members
- Fairness of locks: that a waiting caller can be let in is proved (`RuntimeGate.EveryUpdateCanEnter`), that it will be is not

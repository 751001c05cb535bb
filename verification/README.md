# Premise in Dafny: reports, admissions, files, metering and map keys

This project models the stateful core of the Premise platform and proves what its
modules promise each other.

**Report runs** (`ReportTypes`, `ReportRules`, `ReportWorld`, `ReportInvariant`,
`ReportFrames`, `ReportWorkers`, `ReportCommands`, `ReportPublication`, `ReportRuns`,
`ReportSteps`, `ReportSafety`, `ReportBytes`, `ReportLocks`, `ReportNews`,
`ReportProgress`, `ReportAdmission`, `ReportStore`). A report run is a job with items, artifacts, a lease and a revision, paid
for by a quota ledger. `ReportWorld` is a state machine with 35 actions: users submit,
cancel, read a run to retry it, and retry; any number of workers claim, read their job in
three separate queries, start, render, settle, bundle, finish and release; recovery
passes select, republish, fence, list, erase and drop; the
organization is purged; Storage receives publications and works on its files. A worker
may crash, or go on with a stale snapshot, between any two of its transactions.
`ReportInvariant` states the twelve table invariants and what open retries have read, the
modules after it show that every action keeps them, and `ReportRuns`, `ReportSafety`, `ReportBytes` and
`ReportLocks` draw the conclusions for whole runs. `ReportNews` and `ReportProgress` say
what does happen: what is announced, claimed and listed, and that from every reachable
world an open run can be finished and an expired one cleaned. Submit and Retry are single actions
there (a retry has its read apart); `ReportAdmission` takes them apart into their locks,
reads, counts, checks and commits, interleaves those with everything else, and shows
that nothing is lost by taking them as one. `ReportStore` holds the same transactions as
a class whose methods update the tables row by row, each tied to the function that the state machine
interleaves, and the worker's own loop, which always ends the run.

**Admissions** (`Admissions`, `Capacity`, `Webhooks`, `Exports`, `Syncs`). The gate of
`Admissions` interleaves lock, count, sum, check, insert, commit and release of any number
of transactions, with the bounds of webhook deliveries (100), connector syncs (5),
exports (1), and uploads by number (20) and size (500 MiB). It shows that every committed
admission could as well be one step at its commit, which is how `Webhooks`, `Exports`,
`Syncs` and `Files` take it; the first three follow an admitted message to the end of its
life. `Capacity` holds the reservation table and its locks.

**Files** (`FileRows`, `Files`, `FileLibrary`): the life of a stored file, the upload
budget, legal hold, trash, and the purge.

**Map keys** (`SpatialBits`, `SpatialCells`, `SpatialCover`, `SpatialPredicates`): the
Morton key, tile ranges, clusters, the cover of a viewport and the predicate built on it.

**Scopes** (`Paths`), **CSV** (`Csv`), **metering** (`Metering`), **sweep leases**
(`SweepLeases`). `Basics` and `Totals` hold shared notions.

## Assumptions

- One non-decreasing clock; generated ids are fresh.
- Transaction-scoped locks are held to the commit, and what was committed before a lock
  was taken is visible after it. A transaction body under its lock is one step, save for
  admissions, which `Admissions` and `ReportAdmission` take apart; reads outside a lock
  are steps of their own.
- An action's time is that of its commit; a retry reads its job at a time of its own, and
  metering tells clock reads from commits.
- A recording commits at most an hour after it read the clock.
- The class methods of `Metering` run one at a time; its lemmas about readings do not
  assume that.
- The purge of an organization's reports is one step.
- A step that is not enabled, refused or thrown out leaves the tables as they were.
- Publications and acknowledgements may be delivered any number of times in any order;
  a webhook attempt's message is consumed in the transaction that handles it.
- The start-up ceilings on report limits hold (1000 sites, 100 queued jobs, 300 seconds).
- Coordinates are real numbers, and the latitude axis of the map is any function that
  does not increase from south to north over the map's range. Rows carry finite
  coordinates; 0 <= x, y < 2^z for requested tiles.
- Strings compare by code point, as in the database's "C" collation.

## Where the code says more or less than its documentation

- A connector's old sync token can consume a newer reservation: the purge of the
  organization deletes reservations and connectors without the connector's lock, and a
  request that saw the connector before the purge may enqueue it after.
  `Syncs.StealsExactlyAfterPurge` gives the exact condition and
  `Syncs.PurgeTakesAReservation` a run. The newer message could not have synced in any
  case, for its connector is gone (`Syncs.StolenWasDead`); without a purge it does not
  happen, and at most one committed sync a token holds throughout.
- The current usage of a meter is read in three queries without a lock or a common
  snapshot. A compaction that commits between them makes it too low, and a blocking meter
  can then exceed its limit (`Metering.CompactionShows`). `Metering.ReadingIsExact` says
  exactly when it is right, and `Metering.ReadingIsOff` by how much it is off otherwise.
- A retry that read its run before the expiry may commit after it, which reopens an expired
  run. `ReportSafety.ReopensExactlyIfReadInTime` gives the exact condition; every guarantee
  here holds for such runs, too, and the run is never claimed again
  (`ReportAdmission.ExpiredNeverRuns`).
- The sweeps of files delete bytes before they commit, a batch of files in one
  transaction. If it is rolled back, a trashed file can be restored without its bytes:
  `Files.RestorableHasBytes` gives the exact condition, `Files.RestoredWithoutBytes` a run.
- A final line that is a single empty field and lacks its line break is not a record
  (`Csv.OpenRoundTrip`). A CR and the LF of an empty line after it are one line break
  (`Csv.RoundTrip`).
- The intersection of two scopes does not compare organizations if one of them is a whole
  organization; `Paths.IntersectIsMeetExactly` says exactly when that matters.
- The viewport cover keeps to `maxTiles` ranges for every `maxTiles` of at least 1, not
  only from 2 on.
- Sweep intervals are safe up to thirty days and one tick, and unsafe beyond.

## Model

| member | source | states |
|---|---|---|
| `ReportRuns.NextKeeps` | src/Modules/Premise.Modules.Reporting/ReportRunner.cs:560-609 | every step of any worker, user, sweep pass, purge or Storage handler, whether or not its author still owns the job, keeps the invariant that ties the job, item, artifact, ledger, file and byte tables together |
| `ReportRuns.RunKeeps` | src/Modules/Premise.Modules.Reporting/ReportRunner.cs:26-229 | the invariant survives every sequence of steps: crashes, lost leases, split reads and stale snapshots included |
| `ReportRuns.LedgerIsExact` | src/Modules/Premise.Modules.Reporting/ReportQuota.cs:64-123 | in every reachable world the unconsumed entries are exactly the Queued or Running items of Queued or Running jobs, and for a job not Purging the consumed entries are exactly its Succeeded items |
| `ReportRuns.RetryNeverCollides` | src/Modules/Premise.Modules.Reporting/ReportEndpoints.cs:461-486 | Failed and Canceled items hold no entry, so the entries a retry inserts under the same item ids never meet an old one |
| `ReportRuns.StateIsTruthful` | src/Modules/Premise.Modules.Reporting/ReportRunner.cs:262-266 | a closed run has no open item; without an error it is Completed exactly if all its items succeeded and there are some, CompletedWithErrors exactly if some did and some did not, Failed exactly if none did; the only error is that of a bulk run that has successes and no bundle |
| `ReportRuns.SucceedsOnce` | src/Modules/Premise.Modules.Reporting/ReportRunner.cs:177-203 | over a whole run, retries and takeovers included, no item is settled as Succeeded twice |
| `ReportRuns.OnePdfPerSuccess` | src/Modules/Premise.Modules.Reporting/ReportRunner.cs:328-328 | in a job not Purging a Succeeded item has exactly one ready PDF and any other item none, so the single-row lookups always find one row |
| `ReportRuns.OneBundlePerRevision` | src/Modules/Premise.Modules.Reporting/ReportRunner.cs:268-304 | no two ZIP artifacts are ever made ready for one job and revision, even when the worker dies between the ZIP's commit and the end of the run |
| `ReportRuns.OneReadyBundle` | src/Modules/Premise.Modules.Reporting/ReportRunner.cs:273-273 | a job has at most one ready ZIP at its current revision |
| `ReportRuns.DownloadIsExact` | src/Modules/Premise.Modules.Reporting/ReportEndpoints.cs:520-544 | what the bundle route serves is in the store and is the archive of exactly the PDFs of the job's Succeeded items |
| `ReportRuns.CompletedBulkIsServed` | src/Modules/Premise.Modules.Reporting/ReportEndpoints.cs:520-582 | a bulk run that reports completion has a bundle, and until the run expires the download route serves it exactly while Storage has a clean file of every ready PDF |
| `ReportRuns.LinkEndsInTime` | src/Modules/Premise.Modules.Reporting/ReportEndpoints.cs:520-582 | a served bundle has succeeded items and only clean PDFs, its run is not Purging, and its link lives a second to a minute and never past the expiry |
| `ReportWorkers.ClaimKeeps` | src/Modules/Premise.Modules.Reporting/ReportRunner.cs:28-52 | a claim requeues the items of a dead worker and keeps the invariant |
| `ReportWorkers.StartItemKeeps` | src/Modules/Premise.Modules.Reporting/ReportRunner.cs:85-113 | starting an item on a stale snapshot is either fenced off or adds one unready attempt, and keeps the invariant |
| `ReportWorkers.RenderKeeps` | src/Modules/Premise.Modules.Reporting/ReportRunner.cs:505-546 | writing an attempt's bytes never touches the bytes of any ready artifact: keys are unique to attempts |
| `ReportWorkers.SettleKeeps` | src/Modules/Premise.Modules.Reporting/ReportRunner.cs:169-209 | settling turns one reservation into consumption or gives it back, makes at most one PDF ready, and keeps the invariant |
| `ReportWorkers.WriteBundleKeeps` | src/Modules/Premise.Modules.Reporting/ReportRunner.cs:311-370 | the archive written from a snapshot is the full archive of the items the job has when it becomes ready |
| `ReportWorkers.ReadyBundleKeeps` | src/Modules/Premise.Modules.Reporting/ReportRunner.cs:371-387 | making the bundle ready keeps the invariant, also when the commit succeeds but the worker sees an exception |
| `ReportWorkers.FinishKeeps` | src/Modules/Premise.Modules.Reporting/ReportRunner.cs:408-422 | closing the run keeps the invariant |
| `ReportWorkers.ReleaseKeeps` | src/Modules/Premise.Modules.Reporting/ReportRunner.cs:211-228 | a worker on its way out clears only its own lease |
| `ReportCommands.SubmitKeeps` | src/Modules/Premise.Modules.Reporting/ReportEndpoints.cs:218-272 | an admitted run starts with every item queued and one entry an item |
| `ReportCommands.CancelKeeps` | src/Modules/Premise.Modules.Reporting/ReportEndpoints.cs:391-406 | cancellation releases the open units, closes the open items and keeps the succeeded ones |
| `ReportCommands.RetryKeeps` | src/Modules/Premise.Modules.Reporting/ReportEndpoints.cs:441-487 | a retry requeues exactly the failed items under a new revision, reserves exactly their units and keeps the invariant, also if the run expired after it was read |
| `ReportCommands.SweepFenceKeeps` | src/Modules/Premise.Modules.Reporting/MaintainReportsHandler.cs:123-140 | the fence expires an open run, bumps its revision, takes its lease and releases its open units |
| `ReportCommands.SweepEraseKeeps` | src/Modules/Premise.Modules.Reporting/MaintainReportsHandler.cs:148-149 | deleting the listed bytes leaves all ready output of jobs not Purging in place |
| `ReportCommands.SweepDropRowsKeeps` | src/Modules/Premise.Modules.Reporting/MaintainReportsHandler.cs:150-154 | dropping the listed rows keeps the invariant |
| `ReportCommands.SweepDropJobKeeps` | src/Modules/Premise.Modules.Reporting/MaintainReportsHandler.cs:155-164 | a job is dropped only when nothing of it can still run; its consumed units stay booked |
| `ReportPublication.PurgeReportsKeeps` | src/Modules/Premise.Modules.Reporting/PurgeOrgReportingHandler.cs:25-36 | the purge closes every job and empties the ledger, whatever workers are doing |
| `ReportPublication.DeliverPublishKeeps` | src/Modules/Premise.Modules.Storage/PublishGeneratedFileHandler.cs:26-71 | delivering a publication, again or late, keeps the invariant |
| `ReportPublication.DeliverAckKeeps` | src/Modules/Premise.Modules.Reporting/GeneratedFilePublishedHandler.cs:18-24 | an acknowledgement marks ready PDFs only and changes nothing a worker can have observed except the mark |
| `ReportPublication.FileActionKeeps` | src/Modules/Premise.Modules.Storage/Endpoints.cs:315-351 | whatever Storage does to a published file, runs in progress and bundles keep their bytes |
| `ReportPublication.PurgeFilesKeeps` | src/Modules/Premise.Modules.Storage/Offboarding.cs:170-189 | the purge of all files keeps the invariant |
| `ReportNews.ErasureDeletes` | src/Modules/Premise.Modules.Storage/FileTrash.cs:48-63 | a handler of a published file deletes bytes exactly if it erases the file, and exactly the file's own and its preview's |
| `ReportNews.PurgeDeletes` | src/Modules/Premise.Modules.Storage/Offboarding.cs:170-189 | the purge of all files deletes exactly their bytes and previews and all rows |
| `ReportSteps.WorkerWrites` | src/Modules/Premise.Modules.Reporting/ReportRunner.cs:560-609 | every step of a worker either commits one new version of its own job with its messages, which ReportNews spells out, or changes no table at all |
| `ReportSteps.NextIsModest` | src/Modules/Premise.Modules.Reporting/ReportQuota.cs:64-123 | outside admission nobody takes quota, outside Storage nobody touches its rows, and only the sweep and Storage delete bytes |
| `ReportSteps.NextEvolves` | src/Modules/Premise.Modules.Reporting/ReportRunner.cs:459-460 | in any step a revision never goes back, Purging stays, a set expiry date stays, metadata outlives artifacts, a job whose time is over gains nothing, and no old worker becomes owner |
| `ReportSafety.LostStaysLost` | src/Modules/Premise.Modules.Reporting/ReportRunner.cs:459-460 | a worker that lost its lease never owns the job again, however the run goes on |
| `ReportSafety.LostWorkerCommitsNothing` | src/Modules/Premise.Modules.Reporting/ReportRunner.cs:176-177 | after any further run, whatever a worker without its lease does leaves ledger, messages, successes and bundles as they are and jobs too, but for clearing a lease that still names it |
| `ReportSafety.FencedWorkerCommitsNothing` | src/Modules/Premise.Modules.Reporting/MaintainReportsHandler.cs:134-137 | after a takeover, a cancellation, a retry, a sweep fence or a purge of its job a worker commits nothing over any further run |
| `ReportSafety.LiveLeaseIsExclusive` | src/Modules/Premise.Modules.Reporting/ReportRunner.cs:36-41 | a job changes from one owner to another only when the lease has run out |
| `ReportLocks.LockProtects` | src/Modules/Premise.Modules.Reporting/ReportRunner.cs:570-576 | while someone holds a job's lock, whatever all others do leaves its row as it is but for its artifacts, or raises its revision, or removes it |
| `ReportLocks.LeaseProtects` | src/Modules/Premise.Modules.Reporting/ReportRunner.cs:36-41 | over every run before a lease ends in which its worker commits nothing and the job is not canceled or purged, the job stays the worker's and its row does not change but for acknowledgements |
| `ReportLocks.LeaseCoversRendering` | src/Modules/Premise.Modules.Reporting/ReportRunner.cs:97-98 | from starting an item or the bundle until a minute after its deadline, whatever the others do meanwhile, the worker still owns the job, its row is as it left it but for acknowledgements, and every claim and sweep fence is refused |
| `ReportSafety.RetentionNeverMoves` | src/Modules/Premise.Modules.Reporting/ReportEndpoints.cs:590-595 | once set, an expiry date never changes over any run, unless the job is purged |
| `ReportSafety.MetadataOutlivesArtifacts` | src/Modules/Premise.Modules.Reporting/ReportEndpoints.cs:592-595 | in every reachable world the metadata of a run expires no earlier than its artifacts |
| `ReportSafety.GoneForGood` | src/Modules/Premise.Modules.Reporting/MaintainReportsHandler.cs:123-140 | nothing is added to an expired run that no open retry has read, and none of its artifacts ever becomes ready |
| `ReportSafety.FencedForGood` | src/Modules/Premise.Modules.Reporting/MaintainReportsHandler.cs:134-140 | that is so, for every continuation, of every run whose sweep pass is past its fence |
| `ReportSafety.ReopensExactlyIfReadInTime` | src/Modules/Premise.Modules.Reporting/ReportEndpoints.cs:441-487 | a run whose time is over can be made active by some step exactly if an open retry read it at its present revision, it is a failed or partly failed one, and the queue has room |
| `ReportSafety.SweepSparesReadyPdfs` | src/Modules/Premise.Modules.Reporting/MaintainReportsHandler.cs:141-149 | an artifact listed for deletion is not a ready PDF then or at any later time, unless the job is Purging |
| `ReportSafety.ReadyPdfIsThere` | src/Modules/Premise.Modules.Reporting/MaintainReportsHandler.cs:141-154 | a ready PDF of a job not Purging has its own bytes, unless Storage erased the file or purged the organization |
| `ReportSafety.PublicationNeverConflicts` | src/Modules/Premise.Modules.Storage/PublishGeneratedFileHandler.cs:36-66 | every publication that can be in flight passes Storage's checks and agrees with any row Storage already has |
| `ReportSafety.PublishedMeansStored` | src/Modules/Premise.Modules.Reporting/GeneratedFilePublishedHandler.cs:19-23 | an artifact marked as published has its row in Storage, or the organization's files were purged |
| `ReportSafety.FilesNeverReset` | src/Modules/Premise.Modules.Storage/PublishGeneratedFileHandler.cs:28-67 | over any run a generated file keeps one row with its key and origin, erasure is final, and after the purge fence no generated row appears |
| `ReportNews.ReadyIsAnnounced` | src/Modules/Premise.Modules.Reporting/ReportRunner.cs:579-606 | in every reachable world Storage was sent a message for every ready PDF of an existing job, with its id, key and job |
| `ReportNews.SettlementIsNews` | src/Modules/Premise.Modules.Reporting/ReportRunner.cs:175-204 | the settlement of a rendering that succeeded sends exactly one message, with the artifact's id, key, bytes, requester, sites and time; that of a failed one sends none |
| `ReportNews.RepublishTells` | src/Modules/Premise.Modules.Reporting/MaintainReportsHandler.cs:72-106 | a pass sends again exactly the messages of the ready PDFs without acknowledgement |
| `ReportNews.SubmitBuilds` | src/Modules/Premise.Modules.Reporting/ReportEndpoints.cs:218-272 | a run is admitted exactly within its mode's limit, the queue cap and the month's quota, and then waits with one item over all sites for an aggregate and one item a site otherwise |
| `ReportNews.ClaimsExactly` | src/Modules/Premise.Modules.Reporting/ReportRunner.cs:28-52 | a new worker becomes owner exactly of a Queued or Running job without a live lease that has not expired, and no item of it is Running then |
| `ReportNews.ListsExactly` | src/Modules/Premise.Modules.Reporting/MaintainReportsHandler.cs:141-147 | a pass past its fence lists everything of a purging job and otherwise exactly the unready attempts and the bundles |
| `ReportProgress.WorkerCanFinish` | src/Modules/Premise.Modules.Reporting/ReportRunner.cs:26-229 | from every reachable world, whatever crashed workers have left, some run of one new worker finishes any unexpired open job without a live lease: all its open items succeed, the others stay, it is closed without a lease, and without an error unless Storage erased a file |
| `ReportProgress.PassCanClean` | src/Modules/Premise.Modules.Reporting/MaintainReportsHandler.cs:123-164 | from every world some run of one pass cleans any expired or purging job without a live lease: its failed attempts and bundles are gone, rows and bytes, its reserved units are released, its ready PDFs stay unless it is purging, and the job goes exactly if its metadata's time is over and no PDF is left |
| `ReportProgress.PublicationArrives` | src/Modules/Premise.Modules.Storage/PublishGeneratedFileHandler.cs:26-71 | until the purge every ready PDF can get its file in Storage and its mark by delivering a message that was sent and its acknowledgement |
| `ReportProgress.CancelsExactly` | src/Modules/Premise.Modules.Reporting/ReportEndpoints.cs:383-407 | a cancellation takes exactly an open run of the user; open items are canceled, others stay, and exactly the job's unconsumed entries go |
| `ReportProgress.RetriesExactly` | src/Modules/Premise.Modules.Reporting/ReportEndpoints.cs:431-487 | an undisturbed retry takes exactly the user's unexpired failed or partly failed run, within cap and quota; exactly its failed items wait again, each with a new entry |
| `ReportAdmission.AdmissionIsStrict` | src/Modules/Premise.Modules.Reporting/ReportQuota.cs:64-107 | with any number of new runs and retries interleaved at lock, count, check, insert and commit among themselves and with everything else, the month's entries never outnumber the month's quota and Queued plus Running jobs never exceed the queue cap |
| `ReportAdmission.CommitIsAtomic` | src/Modules/Premise.Modules.Reporting/ReportEndpoints.cs:218-257 | what an interleaved transaction commits, or throws away on a changed revision, is what a single Submit or Retry at its commit does |
| `ReportAdmission.InterleavingIsReachable` | src/Modules/Premise.Modules.Reporting/ReportEndpoints.cs:431-486 | every world that interleaved admissions reach, late retries included, is one that ReportWorld reaches, so that all its guarantees hold there |
| `ReportAdmission.LoneRunIsSubmit` | src/Modules/Premise.Modules.Reporting/ReportEndpoints.cs:218-272 | a new run that nobody disturbs, step by step through its locks and counts, does exactly what the single Submit does, and is admitted if that is |
| `ReportAdmission.LoneRetryIsRetry` | src/Modules/Premise.Modules.Reporting/ReportEndpoints.cs:431-487 | the same of a retry and the single ReadRetry and Retry |
| `ReportAdmission.ExpiredNeverRuns` | src/Modules/Premise.Modules.Reporting/ReportRunner.cs:36-41 | a run past its expiry is never claimed again over any continuation, also if a late retry has reopened it |
| `ReportSteps.MessagesAreTrue` | src/Modules/Premise.Modules.Reporting/ReportRunner.cs:583-606 | every publication a step sends gives the PDF's own job, size, requester, sites and generation time |
| `ReportRules.PublishedIsClean` | src/Modules/Premise.Modules.Storage/PublishGeneratedFileHandler.cs:48-65 | a published file is clean, not held, has the announced key and size, and belongs to the announced sites, each once |
| `ReportBytes.RunsSweepApart` | src/Modules/Premise.Modules.Reporting/MaintainReportsHandler.cs:141-154 | in every reachable world, what a pass over an expired run has listed for deletion is unknown to Storage and in no message |
| `ReportBytes.HeldBytesSurvive` | src/Modules/Premise.Modules.Storage/Endpoints.cs:315-316 | no step deletes the bytes of a published PDF under legal hold, except the two purges of the organization |
| `ReportStore.ReportTables.Reserve` | src/Modules/Premise.Modules.Reporting/ReportQuota.cs:64-98 | all units or none: one entry an item exactly when the month has room, and always for an empty retry |
| `ReportStore.ReportTables.Release` | src/Modules/Premise.Modules.Reporting/ReportQuota.cs:100-108 | drops the job's unconsumed entries and no other |
| `ReportStore.ReportTables.PublishNewlyReady` | src/Modules/Premise.Modules.Reporting/ReportRunner.cs:583-606 | announces exactly the PDFs that are ready now and were not before, each with its key, size, requester, sites and generation time |
| `ReportStore.ReportTables.Claim` | src/Modules/Premise.Modules.Reporting/ReportRunner.cs:28-52 | claims a job exactly when it is Queued or Running, no lease on it is live and it has not expired, and requeues its running items one by one |
| `ReportStore.ReportTables.StartItem` | src/Modules/Premise.Modules.Reporting/ReportRunner.cs:91-102 | the item's start behind the ownership fence |
| `ReportStore.ReportTables.SettleItem` | src/Modules/Premise.Modules.Reporting/ReportRunner.cs:175-204 | behind the ownership fence a rendering that succeeded sends the one message with the artifact's id, key, bytes, requester, sites and time, and a refused one sends nothing; the item and its ledger entry end accordingly |
| `ReportStore.ReportTables.ReadyBundle` | src/Modules/Premise.Modules.Reporting/ReportRunner.cs:376-384 | the bundle's commit behind the ownership fence |
| `ReportStore.ReportTables.Close` | src/Modules/Premise.Modules.Reporting/ReportEndpoints.cs:583-596 | closes a run and sets each retention date only once, the artifacts' days or, for metadata, the longer of both after the completion |
| `ReportStore.ReportTables.Finish` | src/Modules/Premise.Modules.Reporting/ReportRunner.cs:408-422 | the end of the run behind the ownership fence |
| `ReportStore.ReportTables.Submit` | src/Modules/Premise.Modules.Reporting/ReportEndpoints.cs:218-272 | admits exactly within the mode's site limit, the queue cap and the month's quota; then an aggregate has one waiting item over all sites and any other run one waiting item a site |
| `ReportStore.ReportTables.Cancel` | src/Modules/Premise.Modules.Reporting/ReportEndpoints.cs:383-407 | cancels an open run of the requester, its open items with it, and leaves a closed one alone |
| `ReportStore.ReportTables.Retry` | src/Modules/Premise.Modules.Reporting/ReportEndpoints.cs:431-487 | retries exactly the unexpired failed work within cap and quota |
| `ReportStore.ReportTables.Republish` | src/Modules/Premise.Modules.Reporting/MaintainReportsHandler.cs:72-106 | announces again exactly the ready PDFs without acknowledgement, with all that their messages say |
| `ReportStore.ReportTables.Fence` | src/Modules/Premise.Modules.Reporting/MaintainReportsHandler.cs:123-140 | fences exactly when no live lease is left; an open run expires |
| `ReportStore.ReportTables.Purge` | src/Modules/Premise.Modules.Reporting/PurgeOrgReportingHandler.cs:25-36 | moves every job to Purging under a new revision and empties the ledger |
| `ReportStore.ReportTables.Acknowledge` | src/Modules/Premise.Modules.Reporting/GeneratedFilePublishedHandler.cs:18-24 | marks the ready PDF with the message's id and nothing else |
| `ReportStore.ReportTables.Complete` | src/Modules/Premise.Modules.Reporting/ReportRunner.cs:254-423 | closes a run: without an error as Completed, CompletedWithErrors or Failed exactly as all, some or none of its items succeeded, a bulk run with successes only with its bundle; with an error, as Failed, exactly if a bundle was needed and not written |
| `ReportStore.ReportTables.RunOne` | src/Modules/Premise.Modules.Reporting/ReportRunner.cs:62-210 | one turn of the item loop takes one waiting item to its end, leaves the others alone and keeps the job's ledger exact |
| `ReportStore.ReportTables.Run` | src/Modules/Premise.Modules.Reporting/ReportRunner.cs:26-229 | a worker left alone always ends the run: each open item is tried exactly once, finished items are untouched, the state is what the items say, no lease is left, and the job's part of the ledger is exact again |
| `Admissions.NeverOverLimit` | src/Premise.Platform/Entitlements/CapacityReservations.cs:15-57 | with any number of transactions interleaved at lock, count, sum, check, insert and commit, and rows released at any time without the lock and inserted again later, the committed rows and their total weight never exceed their bounds |
| `Admissions.CommitIsAdmission` | src/Premise.Platform/Entitlements/CapacityReservations.cs:6-10 | rows that a transaction commits are new, fit within the bounds at that moment, and are committed under the lock: the check could as well be made at the commit |
| `Admissions.AdmitsExactly` | src/Premise.Platform/Entitlements/CapacityReservations.cs:15-57 | a transaction that finds the lock free gets all its rows exactly if there is room for them by number and by weight, and none otherwise |
| `Admissions.QueuesAreBounded` | src/Modules/Premise.Modules.Storage/Endpoints.cs:99-113 | at most 100 deliveries, 5 syncs, 1 export, and 20 uploads of 500 MiB together are outstanding in any such run |
| `Capacity.ReservedCounts` | src/Premise.Platform/Entitlements/CapacityReservations.cs:43-57 | reserving raises the pending count of its own code by the number of rows and no other count |
| `Capacity.ConsumedCounts` | src/Premise.Platform/Entitlements/CapacityReservations.cs:59-72 | consuming lowers the count of its code by one if the row was there, and no other count |
| `Capacity.CapacityTable.TryLock` | src/Premise.Platform/Entitlements/CapacityReservations.cs:15-29 | fails at once exactly when another transaction holds the code's lock |
| `Capacity.CapacityTable.Reserve` | src/Premise.Platform/Entitlements/CapacityReservations.cs:43-57 | inserts one row an id |
| `Capacity.CapacityTable.Consume` | src/Premise.Platform/Entitlements/CapacityReservations.cs:59-72 | deletes a row only under its own code and says whether it did |
| `Capacity.CapacityTable.Admit` | src/Modules/Premise.Modules.Audit/WebhookDispatch.cs:21-26 | admits exactly when the lock is free and the count is below the limit; the count is then within the limit and other codes are untouched |
| `Webhooks.NextKeeps` | src/Modules/Premise.Modules.Audit/WebhookDeliveryPipeline.cs:58-163 | enqueueing, attempts, retries, pausing, deletion and purge keep reservations and delivery chains paired |
| `Webhooks.AdmissionsAreConserved` | src/Modules/Premise.Modules.Audit/WebhookDispatch.cs:13-36 | over any run there are at most 100 reservations, each belongs to exactly one message in flight, and each message of an existing endpoint still has its reservation |
| `Webhooks.ChainsEnd` | src/Modules/Premise.Modules.Audit/WebhookDeliveryPipeline.cs:150-163 | no admission is attempted more than five times, after the fifth nothing is in flight, and when nothing is in flight the reservation is gone |
| `Webhooks.HandledExactly` | src/Modules/Premise.Modules.Audit/WebhookDeliveryPipeline.cs:150-163 | in every reachable state a failed attempt below the fifth at an active endpoint leaves exactly the next attempt in flight and keeps the reservation; every other attempt, successful ones first, ends the chain and frees it; no other chain is touched |
| `Webhooks.WebhookTables.EnqueueDelivery` | src/Modules/Premise.Modules.Audit/WebhookDispatch.cs:21-35 | reserves and publishes the first attempt exactly under the lock and below 100 |
| `Webhooks.WebhookTables.HandleDelivery` | src/Modules/Premise.Modules.Audit/WebhookDeliveryPipeline.cs:58-163 | drops the chain of a missing or paused endpoint, ends it on success or the fifth attempt, and schedules the next attempt otherwise |
| `Exports.OneArchiveAnAdmission` | src/Premise.Platform/Entitlements/ExportAdmission.cs:11-21 | whatever is delivered twice or late, one export is outstanding at most, each admission yields at most one archive, and an open admission has none |
| `Exports.WorkIsReserved` | src/Modules/Premise.Modules.Storage/Offboarding.cs:71-93 | what a handler works on is the organization's one reservation until it commits |
| `Exports.ReservesExactly` | src/Premise.Platform/Entitlements/ExportAdmission.cs:11-21 | a new export is admitted exactly while none is outstanding and the lock is free |
| `Exports.ExportCompletes` | src/Modules/Premise.Modules.Storage/Offboarding.cs:71-140 | an admitted export becomes exactly one archive if it fits its budget, none otherwise, and frees its place |
| `Exports.NoArchiveAfterPurge` | src/Modules/Premise.Modules.Storage/Offboarding.cs:170-175 | after the purge fence no archive appears in any continuation |
| `Exports.PurgeFrees` | src/Modules/Premise.Modules.Storage/Offboarding.cs:71-83 | the purge gives back every reservation, and behind its fence a message gives back its own and nothing else happens |
| `Syncs.OneSyncAToken` | src/Modules/Premise.Modules.Ingest/ConnectorSync.cs:44-146 | whatever is duplicated, deleted or purged, each admission has at most one committed sync, and five are outstanding at most, one a connector |
| `Syncs.EnqueuesExactly` | src/Modules/Premise.Modules.Ingest/ConnectorSync.cs:44-54 | a request reserves exactly if the lock is free, its connector has no sync outstanding and fewer than five are |
| `Syncs.SyncCompletes` | src/Modules/Premise.Modules.Ingest/ConnectorSync.cs:54-146 | a reserved sync of an existing connector runs to its end: counted once if it staged, and its place is free again |
| `Syncs.StealsExactlyAfterPurge` | src/Modules/Premise.Modules.Ingest/ConnectorSync.cs:120-146 | a finishing handler consumes another message's reservation exactly if, since it began, the organization was purged and the connector was enqueued again, and it does not get as far as updating the connector; whoever enqueued it had seen it before the purge |
| `Syncs.NothingStolenWithoutPurge` | src/Modules/Premise.Modules.Ingest/ConnectorSync.cs:44-54 | in a run without a purge no handler consumes another message's reservation |
| `Syncs.StolenWasDead` | src/Modules/Premise.Modules.Ingest/ConnectorSync.cs:54-61 | the connector of such a reservation is gone, and over every continuation, with the reservation or without it, its message never syncs: no sync that could run is lost |
| `Syncs.LiveReservationStays` | src/Modules/Premise.Modules.Ingest/Endpoints.cs:531-538 | in every reachable state the reservation of a connector that exists goes only with its own handler's end, the connector's deletion or a purge |
| `Syncs.PurgeTakesAReservation` | src/Modules/Premise.Modules.Ingest/Offboarding.cs:64-70 | a concrete run in which the purge lets an old handler whose fetch failed consume a newer reservation, so that the newer message is dropped |
| `Files.BudgetHolds` | src/Modules/Premise.Modules.Storage/Endpoints.cs:99-116 | over any run, pending, uploaded and quarantined files are never more than 20 and declare no more than 500 MiB together |
| `Files.ErasureIsFinal` | src/Modules/Premise.Modules.Storage/FileTrash.cs:48-63 | until the organization is purged a row never goes, its key never changes and an erased file stays erased |
| `Files.CleanMeansScanned` | src/Modules/Premise.Modules.Storage/Pipeline.cs:35-44 | an upload is downloadable or restorable only if a clean verdict was given on it earlier in the run |
| `Files.ArchiveAppears` | src/Modules/Premise.Modules.Storage/Offboarding.cs:123-140 | before the purge fence an archive is there at once, clean, with its bytes under its own key |
| `Files.HoldKeepsBytes` | src/Modules/Premise.Modules.Storage/ExpirePendingUploadsHandler.cs:42-61 | in any reachable library no step but the organization's purge deletes the bytes of a file under legal hold |
| `Files.RestorableHasBytes` | src/Modules/Premise.Modules.Storage/FileTrash.cs:48-76 | once a downloadable or trashed file has its bytes it has them as long as it is either, over any run without the purge, exactly if no handler that deleted them was rolled back since, or they were uploaded again after it |
| `Files.RestoredWithoutBytes` | src/Modules/Premise.Modules.Storage/FileTrash.cs:48-76 | a concrete run in which a trash sweep deletes a file's bytes, is rolled back, and the file is restored without them |
| `Files.FenceHolds` | src/Modules/Premise.Modules.Storage/PublishGeneratedFileHandler.cs:28-29 | behind the purge fence no publication and no export archive is ever accepted |
| `FileLibrary.FileTables.OutstandingBytes` | src/Modules/Premise.Modules.Storage/Endpoints.cs:105-105 | adds up the declared bytes of everything outstanding |
| `FileLibrary.FileTables.Create` | src/Modules/Premise.Modules.Storage/Endpoints.cs:65-116 | admits an upload exactly if it has 1 byte to 100 MiB, fewer than 20 files are outstanding, and all together declare no more than 500 MiB |
| `FileLibrary.FileTables.Complete` | src/Modules/Premise.Modules.Storage/Endpoints.cs:154-177 | a pending upload that has bytes becomes quarantined exactly if they are more than declared, uploaded otherwise; anything else stays |
| `FileLibrary.FileTables.Scan` | src/Modules/Premise.Modules.Storage/Pipeline.cs:34-44 | only an uploaded file gets a verdict |
| `FileLibrary.FileTables.Derive` | src/Modules/Premise.Modules.Storage/Pipeline.cs:83-107 | a preview exactly for a clean text file of at most a mebibyte |
| `FileLibrary.FileTables.Delete` | src/Modules/Premise.Modules.Storage/Endpoints.cs:315-351 | trash for clean files, quarantine while a cloud ticket of 15 minutes is live, erasure for others, nothing under hold |
| `FileLibrary.FileTables.ExpirePending` | src/Modules/Premise.Modules.Storage/ExpirePendingUploadsHandler.cs:42-66 | of the candidates exactly those are erased, row and bytes, that are not held, more than an hour old, and pending, uploaded or quarantined when their lock is taken; nothing else changes |
| `FileLibrary.FileTables.PurgeTrash` | src/Modules/Premise.Modules.Storage/FileTrash.cs:48-76 | of the candidates exactly those are erased, row and bytes, that are not held, in the trash for more than the window's days, and, in a cloud store, created more than 15 minutes ago; nothing else changes |
| `FileLibrary.FileTables.Publish` | src/Modules/Premise.Modules.Storage/PublishGeneratedFileHandler.cs:26-71 | a clean row at most once, never behind the fence, only for a valid message or one that agrees with its row, and an acknowledgement for every accepted delivery |
| `FileLibrary.FileTables.PurgeOrg` | src/Modules/Premise.Modules.Storage/Offboarding.cs:170-189 | fences, deletes all bytes and previews, drops all rows |
| `SpatialBits.SpreadStep` | src/Premise.Platform/Spatial/SpatialCells.cs:109-118 | the mask ladder puts the lowest bit in place and the rest two positions further, bit by bit |
| `SpatialBits.InterleaveIsMorton` | src/Premise.Platform/Spatial/SpatialCells.cs:107-107 | the shift-and-mask key of two 32-bit coordinates is their arithmetic Morton code |
| `SpatialCells.InterleaveInjective` | src/Premise.Platform/Spatial/SpatialCells.cs:106-107 | two cells of the 2^20 grid have the same key exactly when they are the same cell |
| `SpatialCells.TileRangeExact` | src/Premise.Platform/Spatial/SpatialCells.cs:45-52 | for z up to 20 a cell's key is in the tile's range exactly when its coordinates shifted by 20-z are the tile's |
| `SpatialCells.FineTileRangeExact` | src/Premise.Platform/Spatial/SpatialCells.cs:53-57 | below the cell size the range is the one cell that contains the tile |
| `SpatialCells.ClustersAreTiles` | src/Premise.Platform/Spatial/DataLayerTiles.cs:86-104 | two keys agree after the cluster shift exactly when the cells share the tile at zoom min(z+3, 20) |
| `SpatialCover.TileIsPrefix` | src/Premise.Platform/Spatial/SpatialCells.cs:33-42 | a point's tile at any zoom up to 20, which TileHoldsPoint ties to the point, is its cell's coordinates shifted right |
| `SpatialCover.TileHoldsPoint` | src/Premise.Platform/Spatial/SpatialCells.cs:33-42 | a point's position on each axis, scaled to 2^z, lies in its tile's column and row; west of the map it is the first column, on the eastern edge and beyond the last, and beyond the latitude limits the row of the limit |
| `SpatialCover.KeyOfPoint` | src/Premise.Platform/Spatial/SpatialCells.cs:22-31 | a key exactly for a row with both coordinates, and on the map it is the code of the cell of the 2^20 grid that contains the point |
| `SpatialCover.ReachesExactly` | src/Premise.Platform/Spatial/SpatialCells.cs:66-78 | the cover's rectangles hold exactly the tiles between those of the box's corners, or outside them across the antimeridian |
| `SpatialCover.PointsAreReached` | src/Premise.Platform/Spatial/SpatialCells.cs:66-98 | every point of a valid box, antimeridian boxes and points beyond the map's edge included, falls in a tile of the cover's rectangles |
| `SpatialCover.Count` | src/Premise.Platform/Spatial/SpatialCells.cs:72-78 | the number of tiles of all pieces at one zoom |
| `SpatialCover.ChooseZoom` | src/Premise.Platform/Spatial/SpatialCells.cs:69-84 | the finest zoom at which at most maxTiles tiles cover the box, or 0 |
| `SpatialCover.Collect` | src/Premise.Platform/Spatial/SpatialCells.cs:85-93 | lists the range of every tile of every piece and nothing else |
| `SpatialCover.Merge` | src/Premise.Platform/Spatial/SpatialCells.cs:95-103 | merging keeps the set of keys, leaves real gaps and never adds a range |
| `SpatialCover.Cover` | src/Premise.Platform/Spatial/SpatialCells.cs:64-104 | sorted ranges with real gaps, at most maxTiles of them, holding exactly the keys of the cells under the chosen tiles, at the finest possible zoom |
| `SpatialCover.CoverHasPoints` | src/Premise.Platform/Spatial/SpatialCells.cs:59-63 | the cover holds the key of every point of the box |
| `SpatialPredicates.RangeTerms` | src/Premise.Platform/Spatial/SpatialPredicates.cs:31-39 | the OR-ed range terms select exactly the rows whose cell the ranges cover |
| `SpatialPredicates.InViewport` | src/Premise.Platform/Spatial/SpatialPredicates.cs:23-58 | on a row whose cell is the key of its coordinates the assembled predicate holds exactly when the point is in the box |
| `Paths.RangeIsExtensions` | src/Premise.Platform/Data/PathKeys.cs:17-18 | in code-point order a string lies between p. and p/ exactly when it starts with p. |
| `Paths.SubtreeIsRange` | src/Premise.Platform/Data/PathKeys.cs:7-18 | for all strings, equal to p or in its descendant range is the same as p or below p |
| `Paths.UnderAny` | src/Premise.Platform/Data/PathKeys.cs:25-54 | the assembled expression selects exactly the nodes under one of the paths; no paths select nothing |
| `Paths.Sql` | src/Premise.Platform/Data/PathKeys.cs:62-84 | the raw query's terms select the same nodes |
| `Paths.IntersectIsMeet` | src/Modules/Premise.Modules.Reporting/ReportAccess.cs:145-161 | within one organization the intersection covers a path exactly when both scopes do |
| `Paths.IntersectIsMeetExactly` | src/Modules/Premise.Modules.Reporting/ReportAccess.cs:145-161 | over any organizations the intersection selects what both scopes select exactly unless one is a whole organization and the other selects something in another one |
| `Paths.IntersectLaws` | src/Modules/Premise.Modules.Reporting/ReportAccess.cs:145-161 | up to coverage, intersection is commutative, associative and idempotent |
| `Csv.SplitRecords` | src/Premise.Platform/Text/CsvParser.cs:27-88 | the index loop with its lookahead computes the state machine, limits and final checks included |
| `Csv.AcceptedFits` | src/Premise.Platform/Text/CsvParser.cs:36-41 | every accepted text yields only records within the row, column and field limits |
| `Csv.RoundTrip` | src/Premise.Platform/Text/CsvParser.cs:42-73 | for every table within the limits, every legal choice of quotes and every choice of LF, CR or CRLF line by line, splitting the printed text gives the table back exactly unless the LF of an empty line follows a CR |
| `Csv.OpenRoundTrip` | src/Premise.Platform/Text/CsvParser.cs:74-78 | without the last line break the table comes back exactly when, in addition, its last record is not a single empty field |
| `Csv.UnclosedIsRefused` | src/Premise.Platform/Text/CsvParser.cs:79-87 | after any table, a quoted field that is never closed is refused |
| `Csv.ParseReadsBack` | src/Premise.Platform/Text/CsvParser.cs:6-25 | a printed table, whatever its line breaks, is parsed exactly if it has no more bytes than allowed and its normalised headers are distinct and not empty; there is then one dictionary for each data row that is not blank, in order, with exactly the normalised headers as keys, missing fields empty and extra ones dropped |
| `Metering.UsageIsMonthTotal` | src/Modules/Premise.Modules.Entitlements/EntitlementsService.cs:76-103 | read in one snapshot before the month is over, rollup plus live events is the sum of everything recorded in the month |
| `Metering.CompactionIsInvisible` | src/Modules/Premise.Modules.Entitlements/MeterCompaction.cs:31-77 | folding what is an hour older than the clock read keeps every month's account and leaves no event behind the fold, also when it commits later |
| `Metering.FoldIsOneStep` | src/Modules/Premise.Modules.Entitlements/MeterCompaction.cs:31-77 | a recording that commits within an hour of reading the clock, after the compaction has read it, is in none of the compaction's groups and survives its delete: grouping, folding and deleting act as one step without a lock |
| `Metering.SnapshotIsExact` | src/Modules/Premise.Modules.Entitlements/MeterCompaction.cs:31-77 | over any run of recordings and compactions whose clock reads may be up to an hour old and out of order at commit, the usage read in one snapshot before the month is over is the month's sum, and rollups plus events always account for everything |
| `Metering.ReadingIsOff` | src/Modules/Premise.Modules.Entitlements/EntitlementsService.cs:85-102 | whatever commits between the three queries, the result is the month's total at the last one, less what compaction moved since the first, plus what is live of later months |
| `Metering.ReadingIsExact` | src/Modules/Premise.Modules.Entitlements/EntitlementsService.cs:85-102 | with positive amounts and before the month ends, the result is never too high, and it is the month's total exactly if no compaction between the first and the last query folds an event of that code and month |
| `Metering.CompactionShows` | src/Modules/Premise.Modules.Entitlements/MeterCompaction.cs:31-77 | a concrete run in which a compaction between the queries makes the usage 0 while one unit was recorded all the time, so that a meter with a limit of 1 admits a second |
| `Metering.BlockNeverOvershoots` | src/Modules/Premise.Modules.Entitlements/EntitlementsService.cs:168-189 | when recordings decide one after the other, each on a usage read in one snapshot, a blocking meter never holds more than its limit in any month |
| `Metering.MeterTables.LiveUsage` | src/Modules/Premise.Modules.Entitlements/EntitlementsService.cs:95-101 | adds up the live events of the code from the given time on |
| `Metering.MeterTables.CurrentPeriodUsage` | src/Modules/Premise.Modules.Entitlements/EntitlementsService.cs:76-103 | with nothing committed between its three queries, returns the sum of everything ever recorded for the code in the month, however much was folded |
| `Metering.MeterTables.RecordUsage` | src/Modules/Premise.Modules.Entitlements/EntitlementsService.cs:46-74 | with nothing committed meanwhile, allows up to the limit on the month's true total; beyond it a Block meter blocks, a Grace meter warns up to a tenth more and blocks then, Overage charges and WarnOnly warns; exactly what is not blocked is recorded |
| `Metering.MeterTables.Fold` | src/Modules/Premise.Modules.Entitlements/MeterCompaction.cs:49-74 | adds the old events of each period to its rollup |
| `Metering.MeterTables.Compact` | src/Modules/Premise.Modules.Entitlements/MeterCompaction.cs:31-77 | folds and deletes exactly the events older than an hour without changing what was recorded |
| `SweepLeases.Bucket` | src/Premise.Platform/Messaging/SweepPeriod.cs:10-16 | a period is aligned to the interval and holds its instant |
| `SweepLeases.SameBucket` | src/Premise.Platform/Messaging/SweepPeriod.cs:10-16 | every replica computes the same period within a bucket |
| `SweepLeases.NeverWonTwice` | src/Premise.Platform/Messaging/SweepLease.cs:18-35 | over any run, with old rows deleted in between, no period of a sweep is won twice if intervals are at most thirty days and a tick |
| `SweepLeases.LongIntervalsAreWonTwice` | src/Premise.Api/CleanupIdempotencyHandler.cs:27-28 | for every longer interval a concrete run wins the same period twice |
| `SweepLeases.SafeExactlyUpToRetention` | src/Premise.Api/CleanupIdempotencyHandler.cs:27-28 | an interval is safe in every run exactly if it is at most thirty days and a tick of 100 ns |

## Left out

- PDF rendering, ZIP format, object-store and HTTP failures in detail: the environment decides how each attempt ends and how many bytes it leaves.
- Manifest, file names, warnings and dependencies of report items; audit events, log lines and metrics.
- Authorization, gates, entitlement lookups and request validation other than sizes and counts: their answers are inputs.
- The worker's one-second cancellation watch: it only shortens a rendering, and every ending of a rendering is modelled.
- A claim's message, its redelivery and the resume message of the sweep: any worker may claim at any time.
- The sweep's first selection: a pass may pick any job without a live lease, which includes the ones the query picks.
- The race between the unlocked bulk update of the reporting purge and a running transaction: the purge is one step.
- A crash inside the writing of an export archive, which leaves bytes without a row.
- A rolled back handler of a published file in ReportWorld, where one file's handler is one step; Files has it as a step of its own.
- Files with a null deletion date in the trash: the first selection of the trash sweep never picks them, and the per-file step says so.
- Admission messages from senders without an admission id.
- ReportStore.ReportTables.Run: says what a worker on its own achieves; what others do in between is the subject of ReportWorld.
- ReportStore.ReportTables.Reserve: assumes that the new ids have no entry yet; ReportRuns.RetryNeverCollides proves it for retries.
- Files.HoldKeepsBytes: assumes that a publication names its own artifact's key, which ReportSafety.PublicationNeverConflicts and the invariant behind it prove of Reporting.
- ReportAdmission.AdmissionIsStrict: about unchanging limits, one a month, as the promise is; plans and exceptions that change it are inputs.
- Metering.BlockNeverOvershoots: recordings decide one after the other, each on a usage read in one snapshot, and are of positive amounts or commit when they read the clock; Metering.OvershootIsTheWindow, a corollary of Metering.ReadingIsOff, bounds what happens otherwise.
- Metering.ReadingIsExact: about recordings of positive amounts; Metering.ReadingIsOff holds for any amounts.
- Metering.MeterTables.RecordUsage: its three queries and its insert run as one; the grace factor is the exact number 1.10, not the nearest binary fraction.
- Metering.MeterTables.CurrentPeriodUsage: its three queries run as one; Metering.ReadingIsOff is about queries apart.
- Csv.ParseReadsBack: trimming and lower-casing is any function that changes nothing when applied again.
- Two compactions of one organization at a time, and a recording that commits more than an hour after it read the clock.
- Metering.UsageIsMonthTotal: one snapshot for the three queries; Metering.ReadingIsOff and Metering.ReadingIsExact are about queries apart.
- Metering.SnapshotIsExact: one snapshot for the three queries, as in UsageIsMonthTotal.
- Webhooks.ChainsEnd: signatures, secrets and backoff times are not modelled.
- Site capacity, billing, catalogs, `DescribeAllAsync` and `StatusAsync`, listings and views are not modelled.
- Idempotency keys, which the cleanup handler deletes under a database policy that is not part of this model.
- The text of the generated SQL; its terms are modelled, parameter names are not.
- Culture-sensitive prefix comparison in the write-side scope check: it is modelled as an ordinal one.
- Tile SQL, geography functions, envelopes of a bounding box and non-finite coordinates.
- Sums wider than 64 bits and counters that overflow: numbers are unbounded.

# A verified model of the Wikore core

Wikore ingests documents, indexes them and answers questions over them, for
many tenants at once. This project models six of its parts in Dafny 4.11 and
proves what they are there for. `dafny verify dfyconfig.toml` checks all of it.

| part | modules | main results |
|---|---|---|
| Ingest claims and recovery: Redis queues, processing lists and heartbeats, the version row with status, claim token, payload and retry count, workers that crash anywhere, a reaper and two sweeps | `IngestProtocol`, `IngestSafety`, `IngestPayloads`, `IngestThreshold`, `IngestWorkers`, `PollingFallback` | no job is lost or altered, a reset claim is fenced, a fresh one is safe, resumption is bounded, tenants are served fairly |
| Access control resync against ingest upserts, with a compare-and-set on a version in place of a snapshot over two stores | `AclScope`, `ResyncProtocol`, `ResyncTruth`, `ResyncWorkers` | while synced and undrifted the index tells the truth, for exactly the recorded points; exactly which drifts are harmless; what a resync answers |
| The access cache validated by epochs | `AccessResolver`, `ReaderScope`, `AccessCache`, `CachedResolver` | every hit is what a fresh resolve would give, and that is what memberships, groups and tree say |
| Per-tenant LLM limits: token bucket and lease semaphore | `TokenBucket`, `Semaphore`, `LlmGate` | what the scripts decide over whole runs, and exactly when the concurrency bound holds |
| Prompt packing | `PromptText`, `PromptReader`, `ContextBuilder`, `LeftOut`, `PromptReadable`, `PromptBuilder` | consistent labels, both budgets, every prompt can be read back, nothing that fits is left out |
| Document structure | `SectionTree`, `SectionBuilder`, `TocText`, `TocSplit`, `Chunker`, `Reingest`, `DocumentRepo`, `Utf`, `Utf16`, `Utf8Text`, `OrgForest` | a tree bijection, text conserved by splits, whole words, re-ingest as exact replacement, UTF conversion, complete forests |

How it is built:

- The three concurrent protocols are step relations (`Step`, `Run`), with
  invariants proved over every run. The programs are classes beside them:
  every await is a call to `Yield` or `Interfere`, after which the program
  knows only that others took some steps, and every command is one step of the
  protocol. What the programs promise is proved from the invariants.
- Everything that loops in place in the system is a method proved against a
  function, and the properties are lemmas about that function.
- How each command of an ingest worker, a scheduler or a resync worker will go
  (answered, reply lost, never reached), how the work on a job ends, and what
  each poll for a shutdown will say, are functions fixed beforehand, so a
  contract can say exactly what was done about it; their contracts speak of the
  log of commands. Elsewhere failures, crashes, clocks, tokens and hashes are
  parameters or nondeterministic choices.
- `Wrappers` and `Collections` hold what several modules share.

Findings, each with a proof:

- A synced version does not say that the index is right. The scope query joins
  the closure of the org tree and filters grants by their expiry, but creating,
  moving or deleting a unit bumps only the company's `acl_epoch`
  (db/migrations/V032__acl_epoch_version_scope.sql:254-281), time bumps
  nothing, and no source file does the fan-out that lines 57-63 of that file
  leave to the move use case. The index then stays truthful exactly when the
  same units are still granted access (`ResyncTruth.DriftIsHarmlessIff`); a later
  resync repairs it (`ResyncTruth.ResyncRepairs`). The migration calls the
  fan-out a recall optimisation and leaves correctness to the live check at
  read time.
- Points upserted by a transaction that then fails before it is recorded are
  not found by the resync query, so they keep the old scope while the document
  counts as synced, until the outbox event is retried. Covered are exactly the
  points that `document_chunk_vectors` records (`ResyncTruth.RightIffRecorded`).
- The semaphore admits more than its cap when the longest hold exceeds twice
  the shortest lease: the key's deadline is set by the last call let through
  (`Semaphore.ConcurrencyIsBoundedIff`).
- Failed pushes give the retry back, so a version can be claimed any number of
  times while pushes fail (`IngestSafety.FailedPushesUnboundClaims`).
- Visible units that form a cycle would be silently absent from the org forest
  (`OrgForest.CompleteIffAcyclic`). The code does not normally get such input:
  db/migrations/V012__move_org_unit.sql rejects cycles, and parents that are
  updated directly.
- A refused relationship can come to fit later when another item gives one of
  its endpoints a text that is shorter once escaped, and only then
  (`LeftOut.BuilderRefusalsStandIff`).
- The reaper's touch protects a job for the stuck threshold and no longer: one
  tick more between touch and sweep, and the job it handed back is failed in the
  same cycle (`PollingFallback.ThresholdIsNeeded`).
- Two branches are dead: the last push of the position map
  (`TocText.PositionMap`) and the clamp of a body's start
  (`TocSplit.BodyStartsBeforeItEnds`).

## Model

| member | source | states |
|---|---|---|
| `IngestPayloads.NoJobIsLost` | src/scheduler/polling_fallback.cpp:177-375 | in every state reachable by any run of workers, crashes, reapers, sweeps, failed pushes and duplicate deliveries, every version with a produced job is finished, or a payload that a producer pushed for this version and tenant is saved in its row, on its own tenant's queue or on a processing list for that tenant |
| `IngestPayloads.CopiesAreGenuine` | src/ingest/document_repo.cpp:495-536 | nothing is made up or changed on the way: in every reachable state each queued or listed copy, each saved payload, each payload a worker holds and each outstanding push is one that a producer pushed, for that tenant and version |
| `IngestPayloads.RunKeepsGenuine` | src/scheduler/polling_fallback.cpp:327-375 | that is kept by every run from any state in which it holds |
| `IngestThreshold.ClaimIsSafeWithinThreshold` | src/scheduler/polling_fallback.cpp:177-313 | in every run after a claim, until the stuck threshold has passed the row is still processing under the claim's token, or that token made the terminal write, and a done version then has this claim's chunks |
| `IngestThreshold.SweepTakesClaimIff` | src/scheduler/polling_fallback.cpp:249-313 | the threshold is exact: a sweep after a wait takes the claim away if and only if the wait exceeds it |
| `IngestThreshold.FailureIsJustified` | src/scheduler/polling_fallback.cpp:177-313 | a step fails a version only if the claim that marks it reports so, or if it was stuck beyond the threshold and has no saved payload or no resume attempt left |
| `IngestThreshold.SweepResumes` | src/scheduler/polling_fallback.cpp:275-313 | a stuck version with a saved payload and an attempt left goes back to pending with that payload, one more retry, and one outstanding push of that very payload to its tenant |
| `IngestSafety.RunKeepsInv` | src/scheduler/polling_fallback.cpp:461-593 | the invariant behind all results of this core (rows, tokens, jobs, nothing lost) is kept by every run |
| `IngestSafety.ResetClaimIsFenced` | src/application/ingest_document_version.cpp:159-291 | once a worker's claim was reset, in every continuation its token never marks a row again, owns no chunks, and its own terminal write changes nothing |
| `IngestSafety.TokensFence` | src/ingest/document_repo.cpp:467-480 | in every reachable state a token is stored exactly while the row is processing, each token made at most one terminal write, and a stored token made none |
| `IngestSafety.TerminalIsAbsorbing` | src/ingest/document_repo.cpp:558-569 | done and error are final in every continuation, and so is whose chunks a done version has |
| `IngestSafety.ClaimsAreBounded` | src/scheduler/polling_fallback.cpp:206-247 | in every run the retry count stays within max_resume_attempts and a version is claimed at most 1 + max_resume_attempts + rolled-back pushes times |
| `IngestSafety.ClaimsAttainTheirBound` | src/scheduler/polling_fallback.cpp:206-247 | that bound is attained: for every budget and every r there is a run with exactly r rollbacks and 1 + max_resume_attempts + r claims, where r is 0 without a budget |
| `IngestSafety.NoBudgetNoRollback` | src/scheduler/polling_fallback.cpp:206-247 | without a budget no run requeues anything or gives a retry back |
| `IngestSafety.PoisonIsBounded` | src/scheduler/polling_fallback.cpp:275-313 | without failed pushes a version is claimed at most 1 + max_resume_attempts times |
| `IngestSafety.FailedPushesUnboundClaims` | src/scheduler/polling_fallback.cpp:363-368 | the hypothesis is needed: for every n there is a run with n failing pushes, each rolled back, that claims one version n times |
| `IngestSafety.StepHolds` | src/redis.cpp:301-308 | no step but the acknowledgement of that very job takes a copy off a tenant's lists, and no step invents a copy for an unknown version |
| `IngestSafety.StepExecutes` | src/ingest/document_repo.cpp:513-523 | every step of the protocol touches the rows by one of the listed SQL statements, whose guard holds, or not at all |
| `IngestSafety.ExecKeepsDb` | src/ingest/document_repo.cpp:467-480 | every guarded statement (create, claim, terminal write, touch, sweep, retry rollback) keeps the row and token invariants |
| `IngestSafety.RunKeepsRetired` | src/ingest/document_repo.cpp:513-523 | a token that marks no row and wrote nothing terminal stays so in every run |
| `IngestSafety.RunPersists` | src/scheduler/polling_fallback.cpp:284-301 | in every run rows keep their tenant, settled rows stay settled, issued tokens stay issued and terminal writes stay counted |
| `IngestSafety.OldestFirst` | src/redis.cpp:216-232 | LPUSH and LMOVE make a queue: whatever is pushed meanwhile, the oldest job is taken next |
| `IngestWorkers.IngestWorker.ClaimForProcessing` | src/ingest/document_repo.cpp:495-536 | the claim is an error exactly when it got no answer, and otherwise gives no token exactly when the row was not claimable and then changes nothing, or a token never issued before, which now marks the row as processing, with the very payload it was given saved in it |
| `IngestWorkers.IngestWorker.WriteTerminal` | src/application/ingest_document_version.cpp:250-291 | the token-gated terminal write: exactly when the token still marks the row and the write reached the database it finishes the row as the work says; otherwise the rows stay as they are, and an answer that ownership was lost means just that |
| `IngestWorkers.IngestWorker.Execute` | src/application/ingest_document_version.cpp:12-97 | the outcome, exactly, from the log: a failure if and only if a command of the call got no answer; a duplicate if the row was not claimable in the state the claim ran in; ownership lost if the claim's token did not mark the row in the state the terminal write ran in; otherwise processed or terminal error, as the work went |
| `IngestWorkers.IngestWorker.Dispatch` | src/ingest/worker.cpp:188-327 | every dispatched job is closed: acknowledged by LREM, transferred back, or the worker is fatal for good; the outcome is the one the log decides, and the three counters move by exactly what it says |
| `IngestWorkers.IngestWorker.Acknowledge` | src/ingest/worker.cpp:294-326 | the last command is the LREM, and a row that was terminal keeps its outcome meanwhile |
| `IngestWorkers.IngestWorker.HandBack` | src/ingest/worker.cpp:249-291 | it ends with an answered transfer exactly when one of its four attempts is answered; otherwise all four are spent, the heartbeat is given up and the worker is fatal |
| `IngestWorkers.IngestWorker.TryTransfer` | src/redis.cpp:291-330 | one atomic transfer attempt: in the log unless it never ran, and the worker lets go of the job exactly when it was answered |
| `IngestWorkers.IngestWorker.Take` | src/redis.cpp:216-232 | LMOVE: the command is in the log unless it never ran, the probe says what the queue held in the state it ran in, and the oldest job is handed over exactly when there was one and Redis answered; a lost answer leaves the job on the processing list |
| `IngestWorkers.IngestWorker.TryOneRotation` | src/ingest/worker.cpp:136-186 | the probes of a rotation follow the cursor, each is an LMOVE of this call that is in the log unless it never ran, only the last may be a hit, which was dispatched and closed, and unless a poll asked for a shutdown no work is reported only after probing every tenant exactly once |
| `IngestWorkers.IngestWorker.Rescan` | src/ingest/worker.cpp:118-134 | the tenant list becomes the sorted list of the tenants the well-formed keys name, and the cursor stays inside it |
| `IngestWorkers.IngestWorker.Serve` | src/ingest/worker.cpp:144-182 | one tenant is probed; it counts as served exactly when the queue had a job and Redis answered, and then the log shows the job taken and, later, acknowledged, handed back or given up |
| `IngestWorkers.RotationsAreCyclic` | src/ingest/worker.cpp:140-186 | a rotation that starts where the last probe left the cursor keeps the probes in cursor order; this is what a worker's invariant is kept with |
| `IngestWorkers.EveryWaitingTenantIsServed` | src/ingest/worker.cpp:118-186 | among any cyclic probes with n hits over n tenants, the first n hold one that hit the given tenant, if its queue had a job whenever its turn came |
| `IngestWorkers.IngestWorker.WaitingTenantIsServed` | src/ingest/worker.cpp:118-186 | fairness of a worker, between rescans: in any stretch of its probes with n dispatches over n tenants, one of the first n took a job of the given tenant off its queue and closed it, if that queue had a job and Redis answered whenever its turn came |
| `PollingFallback.Scheduler.ReapEntry` | src/scheduler/polling_fallback.cpp:495-593 | without an answer to the touch the entry stays and the version is deferred; with one, the touch is in the log and, unless Redis could not be reached, the transfer is behind it, and it counts as moved exactly when it was answered and the entry was there |
| `PollingFallback.Scheduler.ReapList` | src/scheduler/polling_fallback.cpp:461-510 | every entry of the list is attended to in order in that way, and the deferred versions are exactly those whose touch got no answer |
| `PollingFallback.Scheduler.ReapOrphans` | src/scheduler/polling_fallback.cpp:389-600 | every scanned key is visited in order: a list is opened only when its worker's heartbeat is known to be missing, in the state that was asked, it is read in a later state, and every entry of it is attended to; the deferred versions and the count are exactly those of these visits |
| `PollingFallback.Scheduler.SweepTransaction` | src/scheduler/polling_fallback.cpp:177-325 | in one stretch of the log, each of the due rows is swept once: the stuck pending rows that are not deferred and the stuck processing rows, and no others; they change exactly as one sweep changes them, and exactly the requeued ones are left to push |
| `PollingFallback.Scheduler.SweepRows` | src/scheduler/polling_fallback.cpp:190-247 | exactly the selected rows are swept, each once, with nothing in between, and the pushes are those of the rows within budget, with their payloads |
| `PollingFallback.Scheduler.PushOne` | src/scheduler/polling_fallback.cpp:327-375 | this scheduler's part of the log grows by up to three attempts and, if none is answered, the rollback of the retry; in every case exactly this push is discharged |
| `PollingFallback.AttemptsEnd` | src/scheduler/polling_fallback.cpp:340-375 | the attempts end in an answered push exactly when one of them is answered, and otherwise in the rollback; all before that are pushes whose reply was lost |
| `PollingFallback.Scheduler.Discharge` | src/scheduler/polling_fallback.cpp:327-375 | after a commit every push of the sweep goes through its attempts in order, after a lost commit reply none does, and either way none stays outstanding |
| `PollingFallback.Scheduler.SweepPhase` | src/scheduler/polling_fallback.cpp:128-386 | the database part of a cycle: nothing without begin and lock, nothing after a rollback, otherwise exactly the due rows and their pushes; the count it reports, and no push left outstanding |
| `PollingFallback.Scheduler.SweepCycle` | src/scheduler/polling_fallback.cpp:80-386 | a whole cycle, as its log shows: the lists of dead workers were visited first, then exactly the due rows were swept and pushed; unless the stuck threshold passed between its start and its sweep, no row was swept from pending whose entry the reaper saw on a list of the row's own tenant; and no push is left outstanding |
| `PollingFallback.SeenIsSpared` | src/scheduler/polling_fallback.cpp:426-437 | the reason, for any log: an entry that was seen is touched before the sweep or deferred, and neither can be due as pending within the threshold |
| `PollingFallback.ThresholdIsNeeded` | src/scheduler/polling_fallback.cpp:426-437 | the threshold is needed and sharp: for every threshold there is a cycle in which one tick more passes between touch and sweep, and the job the reaper found and handed back is failed |
| `PollingFallback.RunKeepsFresh` | src/scheduler/polling_fallback.cpp:528-560 | a version touched since t0 is not stuck pending before t0 plus the threshold, in any run |
| `PollingFallback.SecondSelect` | src/scheduler/polling_fallback.cpp:249-275 | what sweep 1 did changes nothing about which rows the select of sweep 2 finds |
| `PollingFallback.SweptTwice` | src/scheduler/polling_fallback.cpp:177-313 | two disjoint sweeps are one sweep over both sets of rows |
| `AclScope.ScopeIsOwnerOrNamed` | src/ingest/document_repo.cpp:75-165 | the five arms of the query give exactly the owner and the units named by a reading, unexpired grant that covers the document, directly or down a subtree |
| `AclScope.SameScopeIff` | src/ingest/document_repo.cpp:75-165 | two states of grants and tree give one owner's document the same scope exactly when the same units but the owner are granted access |
| `ResyncTruth.SyncedIsTruthful` | src/scheduler/resync_worker.cpp:199-354 | in every reachable state, while the synced version is the current one and the scope has not drifted since it was read, every chunk column and every active point in every collection carries the scope and owner the grants define, except points an aborted upsert left unrecorded |
| `ResyncTruth.RightIffRecorded` | src/scheduler/outbox_worker.cpp:473-505 | exactly which points are covered: a point tells the truth in every synced, undrifted state of every continuation if and only if a row of document_chunk_vectors records it |
| `ResyncTruth.DriftIsHarmlessIff` | db/migrations/V032__acl_epoch_version_scope.sql:254-281 | a change of the org tree, or time passing, leaves the version synced; the index stays truthful exactly when for every unit but the owner, some unexpired grant that covers the document names it afterwards if and only if one did before |
| `ResyncTruth.DriftLeavesIndexStale` | db/migrations/V032__acl_epoch_version_scope.sql:57-63 | for every access control and every drift that changes its scope there is a run that ends with the version synced and the index stale |
| `ResyncTruth.NewUnitDrifts` | src/ingest/document_repo.cpp:75-165 | a concrete drift: a new unit below one that may read with its descendants |
| `ResyncTruth.LapsedGrantDrifts` | src/ingest/document_repo.cpp:75-165 | another: a grant reaches its expires_at |
| `ResyncTruth.ResyncRepairs` | src/scheduler/resync_worker.cpp:199-354 | from any state in which the lock is free, a resync that nobody disturbs makes columns and recorded active points truthful, whatever drifted before |
| `ResyncTruth.SyncedIsTruthfulWithoutAborts` | src/scheduler/outbox_worker.cpp:387-505 | in runs where no upsert is followed by an abort, no point is an exception |
| `ResyncTruth.OrphansStayStale` | src/scheduler/outbox_worker.cpp:473-505 | unrecorded points do go stale: for any two grant states that define different scopes there is a run after which the document is synced, nothing drifted, and a point still carries the old scope |
| `ResyncProtocol.RunKeepsInv` | src/scheduler/resync_worker.cpp:199-354 | lock, program counters, bookkeeping and truthfulness are kept by every run of grant changes, drifts, resyncs, ingests and aborts |
| `ResyncProtocol.OthersKeepPc` | src/scheduler/resync_worker.cpp:203-211 | no step of another worker invalidates what a worker read or wrote under the per-document lock |
| `ResyncProtocol.CommitKeepsTruth` | src/scheduler/resync_worker.cpp:306-354 | the column refresh and the compare-and-set keep the index truthful, because an unchanged version validates the scope read as long as it has not drifted |
| `ResyncProtocol.UpsertKeepsTruth` | src/scheduler/outbox_worker.cpp:457-477 | no ingest upsert puts back an earlier scope |
| `ResyncProtocol.PatchKeepsTruth` | src/scheduler/resync_worker.cpp:284-304 | no older resync event puts back an earlier scope |
| `ResyncWorkers.Worker.ProcessResync` | src/scheduler/resync_worker.cpp:180-355 | the call is, command by command, what its log shows: lock, version, scope, points, patches of each collection, commit, up to the first that decides the outcome; a completed resync leaves the version synced and, if the scope did not drift during the call, columns and recorded active points as the grants define them |
| `ResyncWorkers.Worker.PatchCollections` | src/scheduler/resync_worker.cpp:291-304 | each patch is in the log, in order; all collections are patched exactly when none lacks a store and every patch is answered, and then nothing is left to patch |
| `ResyncWorkers.OutcomesAreExact` | src/scheduler/resync_worker.cpp:199-354 | what a resync answers, exactly: an error if and only if the lock was held, a collection had no store or a command got no answer; superseded if and only if, with none of these, the version read under the lock was newer than the event or no longer current at the commit; completed if it was current at this worker's commit, which is in the log |
| `ResyncWorkers.Worker.Lock` | src/scheduler/resync_worker.cpp:199-211 | the lock is taken exactly when the command is answered and the lock was free in the state it ran in |
| `ResyncWorkers.Worker.ReadVersion` | src/scheduler/resync_worker.cpp:208-235 | superseded exactly when the event is older than the version of the state it was read in |
| `ResyncWorkers.Worker.ReadScope` | src/scheduler/resync_worker.cpp:237-245 | without an answer the call is given up; with one the read is in the log, and the worker carries on with the version it had |
| `ResyncWorkers.Worker.Collect` | src/scheduler/resync_worker.cpp:247-279 | the collections are those of the recorded active points in the state they were read in |
| `ResyncWorkers.Worker.Commit` | src/scheduler/resync_worker.cpp:306-354 | the column refresh and the compare-and-set are one step of the log, and it completes exactly when the version read is still the current one in that state |
| `ResyncWorkers.Worker.WritePhase` | src/scheduler/resync_worker.cpp:247-354 | from the list of points to the commit, as the log has it; completion means that the compare-and-set succeeded for the scope that was read |
| `ResyncWorkers.Worker.ProcessIngest` | src/scheduler/outbox_worker.cpp:387-508 | the call is what its log shows: lock, re-read, upsert, commit, up to the first command without an answer; after a successful ingest every point is recorded, and if the document is synced and undrifted the index is truthful |
| `ResyncWorkers.IngestFailsIff` | src/scheduler/outbox_worker.cpp:387-508 | an index write fails if and only if the lock was held or a command got no answer; otherwise its commit is in the log |
| `ResyncWorkers.Worker.Overwrite` | src/scheduler/outbox_worker.cpp:457-467 | the loop gives every prepared point the columns and owner read under the lock |
| `ResyncWorkers.Worker.PrepareUpsert` | src/scheduler/outbox_worker.cpp:397-471 | the same points come back with the columns and owner of the state they were read in, under the lock, or nothing without an answer |
| `ResyncWorkers.Worker.UpsertPhase` | src/scheduler/outbox_worker.cpp:473-505 | upsert and commit are in the log unless one got no answer; success means every point is recorded |
| `AccessCache.HitsAreCoherent` | src/access_resolver.cpp:163-189 | every cache hit returns exactly the org-unit set a fresh resolve would give at that clock reading, in every interleaving of changes, expiry, late and overwritten writes, and evictions |
| `AccessCache.UnexpiredIsExact` | src/access_resolver.cpp:99-108 | an entry is exact for its database state at every time before its floored cache-until |
| `AccessCache.SameActive` | src/access_resolver.cpp:55-79 | before the earliest contributing expiry the set of active memberships does not change |
| `AccessCache.RunKeepsInv` | src/access_resolver.cpp:196-209 | every entry, cached or still in flight, was made from some past state of the database, and history is ordered by epochs |
| `AccessCache.ExecIsOrdered` | src/access_resolver.cpp:49-54 | equal epochs mean equal memberships, groups and closure for that user |
| `AccessResolver.TriggersBump` | db/migrations/V032__acl_epoch_version_scope.sql:260-352 | every statement that changes what a user resolves to bumps one of that user's epochs in the same transaction |
| `AccessResolver.SameHoldings` | db/migrations/V032__acl_epoch_version_scope.sql:287-325 | with unchanged epochs a statement leaves what the user holds unchanged |
| `CachedResolver.CachedAccessResolver.Resolve` | src/access_resolver.cpp:153-210 | with everyone else moving at each await, the answer is exactly the scope of a database state live during the call, at a clock reading during the call, and that is the set of units the user reads by memberships, groups and tree; not-found only if the user was absent |
| `ReaderScope.ResolveIsByMembership` | src/access_resolver.cpp:24-45 | what the scope query means: for any tree and its closure, a unit is in a user's answer if and only if it is the root or below it and some unexpired membership, the user's own or a group's, is on the unit itself, or covers descendants and is on an ancestor |
| `CachedResolver.CachedAccessResolver.TryCache` | src/access_resolver.cpp:163-194 | a hit is exact for the live state at a clock reading between the first clock read and the epoch check |
| `CachedResolver.CachedAccessResolver.ResolveAndFill` | src/access_resolver.cpp:196-209 | a miss answers from the live snapshot; the late write may land or not |
| `CachedResolver.EntryIsExact` | src/access_resolver.cpp:169-189 | an entry read earlier and validated by epochs later is exact in between |
| `TokenBucket.AllowedIffEveryStretchFits` | src/redis.cpp:435-453 | what the script decides, without its state: a call is let through exactly when no stretch of calls ending in it exceeds burst + rate * T / 1000 |
| `TokenBucket.RateIsBounded` | src/redis.cpp:435-453 | over any stretch within T milliseconds the admitted cost is at most burst + rate * T / 1000 |
| `TokenBucket.ExpiryIsUnobservable` | src/redis.cpp:444-453 | every call gets the answer a never-expiring bucket would give, whatever the clock does |
| `TokenBucket.SameBucket` | src/redis.cpp:451-452 | the expiring and the never-expiring bucket hold the same state after any calls |
| `TokenBucket.LevelsAreBounded` | src/redis.cpp:447-451 | the level stays between 0 and burst |
| `Semaphore.ConcurrencyIsBoundedIff` | src/redis.cpp:379-387 | in every run at most cap calls run within their declared hold, exactly when there is one slot or the longest hold is at most twice the shortest lease |
| `Semaphore.ExpiryIsHarmlessIff` | src/redis.cpp:383-387 | the key-level expiry never drops a live lease in any run, exactly when there is one slot or the longest lease is at most twice the shortest |
| `Semaphore.GrantedIffBelowCap` | src/redis.cpp:384-386 | under that condition a call is granted exactly when fewer than cap leases are live |
| `Semaphore.RefusalIsJustified` | src/redis.cpp:383-385 | whatever the holds, a refusal is backed by cap live leases, so a crashed holder's slot comes back |
| `Semaphore.RunKeeps` | src/redis.cpp:379-420 | stored leases are backed by calls, at most cap, and kept for as long as they protect a call |
| `LlmGate.LlmGate.Acquire` | src/rag/llm_gate.cpp:84-113 | an out-of-range hold is an error that touches nothing; otherwise the tenant's key changes as the script says, other tenants' keys do not, and without an answer the call goes ahead with a lease that holds no slot |
| `LlmGate.LlmGate.AllowRate` | src/rag/llm_gate.cpp:73-82 | the bucket decides when it answers; without an answer the request goes ahead; other tenants are untouched |
| `LlmGate.LlmLease.Release` | src/rag/llm_gate.cpp:61-67 | the slot is given back once; afterwards the lease holds nothing |
| `LlmGate.LlmLease.MoveFrom` | src/rag/llm_gate.cpp:50-59 | the slot held so far is given back and the other one changes hands; self-assignment does nothing |
| `LlmGate.Configure` | src/rag/llm_gate.cpp:20-33 | the gate exists exactly for limits in range |
| `LlmGate.Server.SemAcquire` | src/redis.cpp:364-407 | prune, count, add and set the deadline; the answer and the new key are those of the specification |
| `LlmGate.Server.SemRelease` | src/redis.cpp:409-420 | removing the last member removes the key |
| `LlmGate.Server.TokenBucketTake` | src/redis.cpp:426-474 | refill, take and expire as the specification says |
| `PromptBuilder.Build` | src/rag/context_builder.cpp:174-393 | every error in the order the code checks; otherwise both budgets are met for any deterministic counter, the labels are consistent with source_chunk_ids and source_edge_ids, ids do not repeat, and the result is that of greedy all-or-nothing packing |
| `PromptBuilder.Screen` | src/rag/context_builder.cpp:196-233 | all evidence is screened, and the first fault is reported |
| `PromptBuilder.Compose` | src/rag/context_builder.cpp:235-393 | mandatory checks, packing and the final count, which cannot fail |
| `PromptBuilder.PackEvidence` | src/rag/context_builder.cpp:251-385 | the loop with its index map, label counters and text agrees with the packing function |
| `PromptBuilder.Packer.Offer` | src/rag/context_builder.cpp:280-375 | one turn of the loop: the item is placed as a whole or changes nothing |
| `PromptBuilder.Packer.AddChunk` | src/rag/context_builder.cpp:289-307 | a known chunk is accepted without a block; a new one gets the next label if it fits |
| `PromptBuilder.Packer.AddRelationship` | src/rag/context_builder.cpp:308-366 | missing endpoints and the relationship are added together or not at all |
| `PromptBuilder.Packer.Assign` | src/rag/context_builder.cpp:329-341 | an endpoint gets the label it has, the one it has among the pending blocks, or the next free one |
| `ContextBuilder.EachLabelOnce` | src/rag/context_builder.cpp:254-375 | label [SRC n] is emitted exactly once, for the n-th source id |
| `ContextBuilder.RelationsRefer` | src/rag/context_builder.cpp:329-358 | every relationship refers only to labels emitted before it, those of its own endpoints |
| `ContextBuilder.PackIsWellLabelled` | src/rag/context_builder.cpp:280-375 | labels stay consistent for every evidence list, and the item cap is kept |
| `ContextBuilder.PackFits` | src/rag/context_builder.cpp:270-278 | the packed evidence meets both budgets |
| `ContextBuilder.RejectedItemsLeaveNoTrace` | src/rag/context_builder.cpp:308-375 | packing only the accepted items gives the same prompt |
| `LeftOut.NothingThatFitsIsLeftOut` | src/rag/context_builder.cpp:270-307 | for a counter that grows with the text, a chunk that is not in the prompt was left out because the cap was reached or because it does not fit beside what was packed |
| `LeftOut.NoRelationThatFitsIsLeftOut` | src/rag/context_builder.cpp:308-375 | the same for relationships, which bring their missing endpoints along: one that is not in the prompt does not fit beside what was packed, if no item gives one of its endpoints a text that is shorter to write |
| `LeftOut.RenderIsOrderly` | src/rag/context_builder.cpp:57-150 | blocks are written as both results ask: a higher number or label never makes a block shorter, and it does not matter which of two blocks or endpoints has the longer one |
| `LeftOut.RefusalsStandIff` | src/rag/context_builder.cpp:308-366 | exactly when: for any set of chunk ids and texts, refusals of a relationship stay justified in all settings and for all evidence drawn from the set, if and only if the set holds no text for one of its endpoints that is shorter to write |
| `LeftOut.BuilderRefusalsStandIff` | src/rag/context_builder.cpp:41-63 | for the blocks the builder writes, shorter to write means a shorter escaped text |
| `LeftOut.ShorterMakesRoom` | src/rag/context_builder.cpp:308-366 | the counterexample for every such text, with distinct endpoints or not: the relationship first, then a chunk that gives an endpoint the shorter text |
| `LeftOut.RelationEndsLater` | src/rag/context_builder.cpp:329-366 | the reason: behind more blocks, its own endpoints included, a relationship never ends earlier, although its labels and missing endpoints change, as long as no block has a shorter text for an endpoint |
| `LeftOut.ByteUpperBoundIsMonotone` | src/rag/context_builder.cpp:154-164 | the byte counter is such a counter |
| `ContextBuilder.ChunkPromptIsReadable` | src/rag/context_builder.cpp:41-63 | from a prompt of chunks only a decoder recovers labels 1, 2, ... in order, each with the exact text of the chunk with that source id, and the question |
| `PromptText.PromptDecodes` | src/rag/context_builder.cpp:41-63 | decoding rendered chunk blocks followed by the question gives them back, whatever the texts contain |
| `PromptText.RenderIsInjective` | src/rag/context_builder.cpp:57-63 | two chunk-only prompts that read the same have the same labels, texts and question |
| `PromptText.TagsEncloseTexts` | src/rag/context_builder.cpp:35-148 | for all evidence, relationships included, the source tags enclose exactly the chunk texts |
| `PromptText.UnescapeEscape` | src/rag/context_builder.cpp:41-55 | escaping loses nothing |
| `PromptText.EscapeText` | src/rag/context_builder.cpp:41-55 | the loop computes the escape function, whose result has no angle bracket and no quote |
| `PromptText.DecimalRoundTrip` | src/rag/context_builder.cpp:57-63 | label numbers can be read back |
| `PromptText.OrientationFollowsRole` | src/rag/context_builder.cpp:99-135 | when exactly one endpoint has an acting role, swapping the endpoints in storage does not change the block |
| `PromptReader.ReadsRelation` | src/rag/context_builder.cpp:65-150 | a reader gets back from a relationship block, whatever follows it, its number, the escaped type, origin and review state, the confidence, both endpoint lines with label and heading, and for a directed edge the labels on either side of the type; the endpoint that acts alone stands on line A and on the left |
| `PromptReader.PromptReads` | src/rag/context_builder.cpp:35-150 | a whole prompt of chunks and relationships is read as it is meant, whatever texts, headings and question say, if the attributes do not hold the separators behind them |
| `PromptReader.SeparatorsMatter` | src/rag/context_builder.cpp:99-150 | what reading back asks of the attributes is needed: with the separator inside a field two different symmetric relationships are written alike |
| `PromptReadable.PromptIsReadable` | src/rag/context_builder.cpp:174-393 | for all evidence: from the prompt's text alone a reader gets back every packed block in order and the question; each source has a text some item gives the chunk with its label, and each relationship is one of the evidence, with its attributes, its own number and the labels of its own endpoints, the right way round; attributes as the database admits them |
| `SectionBuilder.ParseBody` | src/ingest/docx_parser.cpp:329-391 | the stack builder appends exactly the tree of the body's headings, with body text in the open section and an implicit depth-0 section before the first heading; its headings and texts hold every paragraph that says something, in order |
| `SectionBuilder.EntriesHoldBody` | src/ingest/docx_parser.cpp:340-391 | no paragraph is lost, repeated or moved: each heading paragraph is the heading of a section, and the section's text is the text paragraphs up to the next heading, joined by newlines |
| `SectionBuilder.FlushToDoc` | src/ingest/parser.cpp:329-359 | the plain-text variant builds the same tree |
| `SectionBuilder.StackAgreesWithTree` | src/ingest/docx_parser.cpp:365-384 | for every list of headings, the place the stack gives a new heading is the place the tree has it |
| `SectionBuilder.TextAgreesWithTree` | src/ingest/docx_parser.cpp:340-352 | text goes to the last heading of the list |
| `SectionBuilder.Pop` | src/ingest/docx_parser.cpp:364-366 | the frames of strictly smaller depth stay |
| `SectionTree.FlattenTree` | src/ingest/docx_parser.cpp:329-391 | preorder flattening gives the heading list back |
| `SectionTree.RebuildFlattened` | src/ingest/docx_parser.cpp:329-391 | rebuilding from the flattening of any forest with deeper children and non-increasing sibling depths gives that forest |
| `SectionTree.TreeIsWellNested` | src/ingest/docx_parser.cpp:366-384 | every built forest is such a forest |
| `SectionTree.FlattenIsInjective` | src/ingest/docx_parser.cpp:329-391 | so such forests are determined by their headings |
| `SectionTree.ParentIsNearestShallower` | src/ingest/docx_parser.cpp:365-384 | each section's parent is the nearest earlier heading of strictly smaller depth |
| `TocSplit.SplitByToc` | src/ingest/pdf_parser.cpp:241-351 | it succeeds exactly when at least half the entries plus one are found; then headings and bodies in document order have exactly the non-blank characters of the text, up to case, and the sections are those of outline entries that were found, in order, each at its entry's depth |
| `TocSplit.SplitIsOutlined` | src/ingest/pdf_parser.cpp:304-348 | behind an untitled section for what precedes the first match, the sections have the titles and depths of the found entries |
| `TocSplit.SearchPicks` | src/ingest/pdf_parser.cpp:284-299 | which entries are found: each at the first place behind the match before, with its own title and depth; an entry that is not found is blank or stands nowhere behind |
| `TocSplit.SplitKeepsInk` | src/ingest/pdf_parser.cpp:304-348 | no character is lost, repeated or moved by a split |
| `TocSplit.BodyStartsBeforeItEnds` | src/ingest/pdf_parser.cpp:321-328 | the start/end clamp never fires |
| `TocSplit.NormaliseTextKeepsInk` | src/ingest/pdf_parser.cpp:107-146 | tidying white space keeps all other characters |
| `TocSplit.WordsStayApart` | src/ingest/pdf_parser.cpp:107-146 | tidying white space neither joins words nor splits them |
| `TocSplit.TidyText` | src/ingest/pdf_parser.cpp:107-146 | the loops compute that normalisation |
| `TocSplit.SearchIsOrdered` | src/ingest/pdf_parser.cpp:284-299 | matches stand where their titles occur, one behind the other |
| `TocSplit.FindMatches` | src/ingest/pdf_parser.cpp:284-299 | the loop finds each title at its first occurrence behind the previous one |
| `TocText.PositionMap` | src/ingest/pdf_parser.cpp:263-280 | the loop computes the position map, and the push after it is never reached |
| `TocText.Normalise` | src/ingest/pdf_parser.cpp:248-258 | the loop computes the comparison form |
| `TocText.SliceInk` | src/ingest/pdf_parser.cpp:261-282 | any stretch of the normalised text has the characters of the stretch the map assigns to it |
| `TocText.OrigPosGrows` | src/ingest/pdf_parser.cpp:263-283 | the position map never goes back |
| `Chunker.WordsAreWhole` | src/ingest/chunker.cpp:44-98 | every maximal run of non-space characters stands whole in at least one chunk |
| `Chunker.ChunksAreFew` | src/ingest/chunker.cpp:44-98 | a text of length L gives at most ceil(L / 500) chunks |
| `Chunker.WindowsStep` | src/ingest/chunker.cpp:57-96 | windows start and end between words, leave no gap, advance at least 500 characters, and the next one starts at the first word start behind the first white space of the last 100 characters, or where the window ends if there is none; behind a blank window there is no overlap |
| `Chunker.NextPosIsNextStart` | src/ingest/chunker.cpp:87-96 | the step back computes that place |
| `Chunker.SectionWordsAreWhole` | src/ingest/chunker.cpp:26-98 | every word of every section stands whole in a chunk that carries the section's own id and heading |
| `Chunker.SplitText` | src/ingest/chunker.cpp:44-98 | the loop terminates and appends exactly those chunks, numbered on |
| `Chunker.ChunkSection` | src/ingest/chunker.cpp:26-42 | a section's chunks, then its children's, with its own id and heading |
| `Chunker.ChunkDocument` | src/ingest/chunker.cpp:7-24 | chunks are numbered 0, 1, ... over the document, section by section in document order, none across sections |
| `DocumentRepo.Repo.WriteSections` | src/ingest/document_repo.cpp:264-308 | whatever rows were there, afterwards the version has exactly the new sections at preorder ordinals 0 to n-1, each under its parent's row, every section carries its row's id, and rows that survive keep theirs |
| `DocumentRepo.Repo.UpsertSection` | src/ingest/document_repo.cpp:183-262 | one subtree is written at consecutive ordinals and nothing else changes; existing rows keep their ids |
| `DocumentRepo.CascadeSparesLayout` | src/ingest/document_repo.cpp:280-306 | the cascade of the delete removes exactly the rows from n on, never one that stays |
| `DocumentRepo.Repo.DeleteSections` | src/ingest/document_repo.cpp:295-306 | the smallest set closed under the cascade goes, and chunks that pointed into it point nowhere |
| `DocumentRepo.Repo.WriteChunks` | src/ingest/document_repo.cpp:321-415 | every chunk of the batch goes to its index, the last one wins, a row that was there keeps its id, and exactly the rows below the batch size that were there or were written remain |
| `DocumentRepo.LatestOfNumbered` | src/ingest/chunker.cpp:7-24 | for a batch numbered 0 to N-1, as the chunker makes it, that leaves exactly these chunks |
| `DocumentRepo.Repo.Replace` | src/application/ingest_document_version.cpp:147-178 | sections, then chunks cut from them: the version is replaced as a whole |
| `DocumentRepo.WordsReachRows` | src/application/ingest_document_version.cpp:147-178 | from what this leaves: every word of every section stands whole in the content of a chunk row linked to the section's own row |
| `Reingest.PathIsAncestorHeadings` | src/ingest/document_repo.cpp:207-210 | the heading path of a row is the headings of its ancestors and its own |
| `Reingest.LayoutAgrees` | src/ingest/document_repo.cpp:183-262 | the planned rows have the parents, headings and depths of the forest in preorder |
| `Utf8Text.UstringToUtf8` | src/ingest/pdf_parser.cpp:44-98 | for every sequence of UTF-16 units the output decodes to the code points of section 2.2 of RFC 2781, each unpaired surrogate replaced by U+FFFD |
| `Utf16.WriteRoundTrip` | src/ingest/pdf_parser.cpp:52-81 | code points written as UTF-16, as section 2.1 of RFC 2781 says, are read back, for every sequence of scalar values |
| `Utf8Text.StripUnicodeTags` | src/ingest/parser.cpp:157-174 | it fails exactly on texts that are not UTF-8; otherwise exactly U+E0000 to U+E007F are removed |
| `Utf8Text.DecodeEncodeAll` | src/ingest/pdf_parser.cpp:44-98 | every sequence of scalar values can be read back from its encoding |
| `Utf8Text.EncodeDecodeAll` | src/ingest/parser.cpp:116-155 | a text that decodes is the one encoding of its code points |
| `Utf.DecodesIffForm` | src/ingest/parser.cpp:116-155 | one step of the decoder succeeds exactly on the sequences of section 4 of RFC 3629, with their width |
| `Utf.DecodeUtf8` | src/ingest/parser.cpp:116-155 | the loop decodes as the specification does |
| `Utf.DecodeEncode` | src/ingest/pdf_parser.cpp:85-95 | the encoding of a scalar value decodes to it |
| `Utf.EncodeDecode` | src/ingest/parser.cpp:116-155 | a decoded code point encodes to the bytes it was read from |
| `OrgForest.OrgsTree` | apps/api/orgs_tree.cpp:172-230 | the error is returned exactly when some visible chain goes below depth 64; otherwise every listed unit is visible, listed once, under its visible parent or as a root, and all visible units are listed exactly when they form no cycle |
| `OrgForest.ErrorIffChainTooLong` | apps/api/orgs_tree.cpp:204-230 | the depth flag of the bounded recursion is set exactly when a chain of visible units is too long |
| `OrgForest.CompleteIffAcyclic` | apps/api/orgs_tree.cpp:192-225 | without the error, everything visible is listed exactly when there is no cycle |
| `OrgForest.ForestListsOnce` | apps/api/orgs_tree.cpp:192-225 | no unit is listed twice, also when there are cycles |
| `OrgForest.BuildLists` | apps/api/orgs_tree.cpp:207-220 | a node lists exactly the units that hang below it, down to the limit |
| `OrgForest.Filter` | apps/api/orgs_tree.cpp:172-190 | the loop keeps exactly the visible units, in order |
| `OrgForest.Split` | apps/api/orgs_tree.cpp:192-202 | the loop gives the roots and every unit's children, in order |

## Left out

Assumptions of the ingest protocol:

- The lifecycle of a version stays draft or deprecated, queued payloads are
  well formed, claim tokens never repeat, and terminal rows are not triggered
  again. Ids, tenants and workers are natural numbers.
- A version may be produced more than once; that the payload which survives is
  one of those produced for it is proved, not which one.
- Discarding malformed jobs and parsing keys are not modelled: a key names a
  tenant or none, a processing key a worker and a tenant.
- An advisory lock that another scheduler holds counts as a statement that was
  not reached: both end the database part of a cycle in the same way.
- A pending row without a stored payload may be turned into an error by sweep 1
  even when a copy is queued; the version then counts as finished.
- Audit and outbox rows written with the chunks are not modelled; the terminal
  write and the chunks are one step.

Assumptions of the resync protocol:

- Chunk rows and the active version are fixed; version promotion and a
  concurrent write of chunks are not modelled.
- Principals other than org units do not occur: the table admits no others.
- Waiting for the advisory lock is modelled as giving up and trying again.
- The document is never deleted, so the branch of a resync that drops an event
  for a missing document (src/scheduler/resync_worker.cpp:212-219) is not taken.
- Sensitivity and lifecycle fields of a payload are not modelled.

Assumptions of the access cache:

- Every statement with its trigger is one transaction; the set of users is
  fixed; one clock serves all nodes.
- JSON encoding of entries and the Redis time-to-live (which only evicts
  earlier than the stored deadline) are not modelled beyond eviction.

Assumptions of the limits:

- Arithmetic is over exact reals, so the number formats of Lua and of the
  command text are not modelled; the Redis clock never goes back where a bound
  needs it; a key is gone at its deadline.
- A NaN or infinite rate cannot be written down as a real and is not modelled.

Prompt packing:

- A string is a sequence of bytes; the confidence of a relationship is given in
  its two-decimal form.
- PromptReader.ReadsRelation: reading a relationship back needs an edge type
  without comma and space, origin and review state without comma, and a
  confidence without a bracket. All values that
  db/migrations/V034__knowledge_edges.sql:46-94 admits are like that, and without
  it the block is ambiguous (`PromptReader.SeparatorsMatter`).
- Logging, and counters that are not deterministic, are not modelled.
- The settings that the condition on refusals ranges over include budgets
  beyond those the options accept.

Document structure:

- Walking ZIP, XML, DOM and PDF structures is not modelled: the builders get
  the list of headings and texts. The HTML and ODT parsers use the same builder.
- The builders' pointers into nested vectors are steps down the right edge of a
  value, so aliasing itself is not captured.
- Heading detection in plain text, hidden-tag removal in Markdown and the caps
  on outline entries are not modelled.
- The text-array literal of heading paths, a failing digest, and database
  errors (the transaction then changes nothing) are not modelled.
- The rows are those of one version; other versions and companies are not
  touched by these statements.
- Names, slugs and descriptions of org units are not modelled.

Not modelled at all: HTTP handlers, authentication, LLM and embedding clients,
connection pools, the evidence gates (their deciding SQL function is not part
of this model), the edge-embedding worker, the filter builder, wire tables and
partition maintenance. They are plumbing, or would only add easy members.

# Verified model of the sparse-token cache and its companions

The repository serves language models whose attention history is too large for device memory. This project models
the parts whose correctness rests on arguments rather than on arithmetic, and proves those arguments in Dafny.

**The shared sparse-token pool.** A paged host arena is shared by many sessions; every layer has a small device pool
that holds copies of some records, found through two inverse maps, with FIFO priorities, asynchronous writebacks,
transactions, GPU-only transient suffixes, speculative prefetch and snapshots. The specification is one append-only
record sequence per session and layer (`TokenPool.Logical`). `PoolRuns` is the state machine over every interleaving
of sessions, layers and landing copies, defined on every pool; its invariant is `TokenPool.Inv`. A refused action keeps
what the source has done by the time it raises: a drain, a lease, a closed step. `arena` is pure specification: the
record each written host ID stands for. `PoolMeanings` says what each call means to its caller, `PoolSlots` and
`PrefetchRuns` hold the slot arithmetic behind the fast paths. `RecallLaw` and `PrefetchLaw` say what one recall and one
stream of candidates leave in the rows and their ages, `DeviceLaw` what every action of the pool does to the device, and
`CertificateLaw` when a session keeps its residency certificate, `CursorLaw` which actions are accepted and whose cursors they
move, `SnapshotLaw` what happens to snapshots. `LayerPool` is one layer as mutable arrays, `SharedPool`
is the pool object with one method an action, `AttentionRunner` is its consumer. A copy's cells land one at a time, in
any order.

**Twins.** `StoreTwins`, `LayerTwins`, `PoolTwins`, `TwinSteps` and `ArchiveTwins` prove that neither the clock limit nor
what records say ever decides what the pool does; `ClockRuns` and `RestoreLaw` use it for clock renumbering and for
snapshots.

**Staging.** `StagingStreams` models the caller and copy streams, their events and buffers as interleaved steps;
`Staging` is the lease object on top of them, with a failure possible at every submission and at every join.

**User-level LRU.** `PrefixPool` is the admission pool, `StackDistance` the sampled reuse distance and the theorem that
connects them.

**Host pages, indexer records, block selection, layer placement, schedules, forward pass.** `HostPages` and `HostRuns`
(page ownership and translated writes), `IndexerCache` (derived records under append, abort and truncate),
`BlockSelection` (two-stage 33/64 choice), `LayerPlan` (optimal contiguous placement), `Fenwick` and `Schedule` (weighted
draws and arrival schedules). `Forward` is the transaction around one forward pass as functions of a state, with failures and
interrupts at every point between two operations; `ForwardLaw` proves when it is all or nothing, `ForwardSlips` shows each
interrupt it does not survive, `ForwardModel` is the model object that computes it phase by phase, and `ForwardCaches` shows
that each operation on a layer there is one action of the token pool.

Device kernels, clocks, random numbers and callbacks are parameters: uniform draws, exponential ticks, cooling gaps,
what a callback returns or raises, which cell lands next. Scores are integers with two infinities, weights and times are
reals, attention is an uninterpreted function of a query and its selected records.

Three promises turned out not to hold as stated, and the exact condition is proved instead:

- A rollback that raises is not without effect. It clears the open step before the truncation asks for the operation
  lease; when another session holds the layer's candidate rows (or an operation elsewhere), the lease is refused and the
  records written in the step are left mapped outside any history and any step. `RollbackGap.TornRollback` is a run of ten
  calls from a new pool after which a residency certificate covers a token that is on no device row.
  `PoolRuns.RollbackKeepsInv`: a rollback of an open step keeps the pool sound if and only if the lease is free, nothing
  was written in the step, or an own prefetch makes it raise earlier (that last case completes the machine; the source
  cannot have an own prefetch prepared while the lease is taken). `PoolRuns.RunKeepsInv`: a run passes through sound
  pools only if and only if none of its rollbacks is of that kind ("torn"). `RollbackHeals.TornHeals`: once the lease is
  free, truncating to the committed length gives exactly the pool the rollback would have given then.
- `restore` rewinds lengths without invalidating the other snapshots. A later snapshot then still passes the length
  check although its host prefix has been rewritten: `PoolRestoreGap.RestoreGap` builds such a run from any sound state
  with room for one record. `RestoreLaw.RestoreByLengths`, over runs without torn rollbacks that load no snapshot rewound
  below: an accepted restore is right for every choice of the records appended meanwhile if and only if no restore since
  has rewound below the snapshot, which lengths alone decide. Loading a snapshot that was rewound below is right exactly
  when its recorded prefixes happen to be intact (`RestoreLaw.RightIffIntact`); when they are not, the pool is broken from
  there on, and a snapshot saved later records the broken pool without any mark.
- A forward pass that raises is not always poisoned or undone. Interrupts, exceptions that no operation of the pass raised,
  escape the bookkeeping at five kinds of points, each shown in `ForwardSlips`: after a layer's step has begun and before
  the layer is recorded as started; after the first commit; between the two assignments of a commit; after the
  model's length has advanced; and in the handler outside its inner `try` blocks before every pending step is rolled back.
  The first and the last leave a step open that refuses every later pass although the model is not poisoned; an interrupt
  among the commits leaves some layers longer than others; after the length update the pass raises although it is complete.
  `ForwardLaw.AllOrNothing`: a pass that raises has poisoned the model or given everything back if and only if it is
  not lost to one of these (`Forward.Lost`, a condition on the state, the fault and the clean-up alone).

## Model

| member | source | states |
|---|---|---|
| TokenStore.ChooseTakesOldest | cache/sparse_token_cache.py:483-500 | victims are distinct unprotected rows, and every row spared comes later in the stable order of empty rows first, then age |
| TokenStore.MissesFit | cache/sparse_token_cache.py:490-494 | a selection of at most P distinct IDs always leaves enough unprotected rows for its misses, so the working-set error inside the allocator is unreachable from recall |
| TokenStore.ClockEventKeeps | cache/sparse_token_pool.py:531-543 | renumbering at the limit preserves order and ties of live priorities below the new clock and touches nothing else |
| TokenStore.ClockBounded | cache/sparse_token_pool.py:531-543 | renumbering happens exactly when the clock has reached the limit, and with fewer rows than the limit no age ever exceeds it |
| TokenStore.EvictKeeps | cache/sparse_token_cache.py:470-481 | unmapping what evicted rows hold keeps the two maps inverse, every remaining copy exact, and the bitmap and ages in agreement |
| TokenStore.ForgetIsEvict | cache/sparse_token_pool.py:697-710 | while the maps are inverse, releasing host IDs is the same as evicting the rows they name; eviction itself goes through the rows |
| TokenStore.RefillKeeps | cache/sparse_token_cache.py:537-551 | overwriting victims with unmapped IDs keeps the maps mutually inverse off row 0 and every copy exact |
| TokenStore.EnsureRecalls | cache/sparse_token_cache.py:518-553 | recall of any bounded selection maps every selected ID to a row holding its record, moves no hit, and keeps every store invariant |
| RecallLaw.RecallOrder | cache/sparse_token_cache.py:518-553 | one recall, told by contents and ages alone: rows that held a selected ID become younger than all rows that hold none, refilled rows younger still, the refilled ones were the oldest without a selected ID and take the misses in that order, every other row keeps its content and its order |
| TokenStore.StampOrder | cache/sparse_token_pool.py:648-661 | a FIFO event leaves the rows it skips in their old order, all strictly older than the stamped ones |
| LayerPool.LayerPool.Evict | cache/sparse_token_cache.py:470-481 | the in-place eviction computes exactly the specified store |
| LayerPool.LayerPool.ClockEvent | cache/sparse_token_pool.py:531-543 | the in-place renumbering loop computes exactly the dense ranks of the live priorities |
| LayerPool.LayerPool.Stamp | cache/sparse_token_pool.py:648-661 | an in-place FIFO event, with its clock event, computes exactly the specified store and re-pins row 0 |
| LayerPool.LayerPool.Victims | cache/sparse_token_cache.py:483-500 | the mask-and-sort selection returns the stable FIFO choice, and raises exactly when too few unprotected rows remain |
| LayerPool.LayerPool.Lookup | cache/sparse_token_cache.py:518-526 | one pass splits the listed IDs into hit rows and misses, in order |
| LayerPool.LayerPool.ReleaseIds | cache/sparse_token_pool.py:697-710 | the listed IDs are unmapped and the rows they named emptied, in place, which is the eviction of exactly those rows |
| LayerPool.LayerPool.Place | cache/sparse_token_cache.py:383-396 | appended records take the planned rows or the FIFO choice, then one stamp |
| LayerPool.LayerPool.Ensure | cache/sparse_token_cache.py:518-553 | recall on the arrays: every selected ID ends in a row with its record and no hit moved; found rows become younger than every row without a selected ID, refilled rows younger still, the misses take the oldest other rows in order, and the rest keeps its order |
| LayerPrefetch.PrefetchReference | cache/sparse_token_cache.py:871-916 | the candidate loop on the arrays starts at the first sorted victim on every call; exactly the listed history tokens that are absent when their turn comes, each once and up to the cap, are fetched into the victims in order, with their host records, and nothing else moves |
| PoolWritebacks.LandCellInv | cache/sparse_token_pool.py:468-501 | any cell of any queued copy may land at any moment without breaking the pool invariant |
| PoolWritebacks.ReapInv | cache/sparse_token_pool.py:456-466 | retiring finished copies, or waiting for room, keeps the invariant |
| PoolWritebacks.ReapExactly | cache/sparse_token_pool.py:456-466 | reaping retires exactly the finished copies at the front and, when room is asked for, as many more as make it; the others stay as they are |
| PoolWritebacks.SyncMineExactly | cache/sparse_token_pool.py:503-510 | the wait for one session's layer touches no other copy |
| PoolWritebacks.WaitHostInv | cache/sparse_token_pool.py:503-510 | after the wait no copy of that session and layer is outstanding |
| PoolWritebacks.SettledHost | cache/sparse_token_pool.py:503-510 | after the wait host memory holds every token the session has written on the layer, so a recall reads right records |
| PoolTransactions.BeginStepInv | cache/sparse_token_cache.py:227-242 | opening a persistent step keeps every layer's invariant |
| PoolTransactions.BeginTransientInv | cache/sparse_token_cache.py:244-264 | leasing the candidate rows for a GPU-only suffix keeps every invariant |
| PoolTransactions.CommitInv | cache/sparse_token_cache.py:411-421 | draining and advancing the committed length keeps every invariant |
| PoolAppend.CertificateSound | cache/sparse_token_cache.py:148-162 | in every sound pool a residency certificate implies that every history token is mapped to a row with its record, and a dense one that token i sits exactly at row i + 1; `RollbackGap.TornRollback` shows it fail after a torn rollback |
| PoolAppend.PlanIsFreshChoice | cache/sparse_token_pool.py:590-619 | while a plan is valid its next entries are exactly what a stable sort of the current priorities would choose |
| PoolAppend.PlanAdvances | cache/sparse_token_pool.py:621-626 | consuming planned rows leaves the rest of the plan in exact FIFO order behind nothing older |
| PoolRecall.ProtectKeepsPlan | cache/sparse_token_pool.py:663-679 | interleaved all-hit protection of consumed rows does not change the next victims of a plan |
| PoolAppend.AppendPersistentInv | cache/sparse_token_cache.py:290-401 | an append with its queued writeback keeps every invariant |
| PoolAppend.AppendPersistentMeaning | cache/sparse_token_cache.py:290-401 | an append extends exactly its own session's sequence on its own layer by the given records |
| PoolAppend.AppendTransientInv | cache/sparse_token_cache.py:317-321 | writing suffix rows keeps every invariant and maps nothing |
| PoolRecall.EnsureInv | cache/sparse_token_cache.py:502-569 | recall keeps every invariant and changes no sequence of any session |
| PoolRecall.EnsureReadsLogical | cache/sparse_token_cache.py:554-569 | every row returned for a selection holds the session's logical record at that index, transient tail included; negative indices give -1 |
| PoolPrefetch.ClaimKeeps | cache/sparse_token_cache.py:895-913 | one claim keeps the maps inverse and every copy exact while its row waits in the allocation log |
| PoolPrefetch.PrepareInv | cache/sparse_token_cache.py:741-850 | preparing a prefetch keeps every invariant with no proof published and no own copy in flight |
| PoolPrefetch.FinalizeInv | cache/sparse_token_pool.py:681-695 | the closing event makes exactly the logged rows live with one timestamp and restores the agreement of ages, bitmap and maps |
| PrefetchLaw.StreamFetches | cache/sparse_token_cache.py:871-916 | which positions of a candidate stream fetch and which do not (cap reached, fetched already, or still in its row), and what rows and maps hold afterwards |
| PrefetchLaw.StreamCovers | cache/sparse_token_cache.py:885-913 | while the cap is not reached every listed history token that was absent is fetched |
| PrefetchRuns.PreparedExactly | cache/sparse_token_cache.py:741-850 | preparing sets up nothing exactly when the whole history is certified; otherwise the victims are all rows by age, ties to the smaller row, and the cap is the least of the limit, 8192 and P - Q, or 64 beside a sole bounded history |
| PrefetchRuns.StreamFetchesExactly | cache/sparse_token_cache.py:871-916 | the same law for a stream run as actions of the pool machine on any sound pool |
| PoolPrefetch.AppendSparesPrefetched | cache/sparse_token_cache.py:835-843 | the victims of a following append exclude every row just prefetched if and only if claims and batch together fit in P |
| PrefetchRuns.BatchFits | cache/sparse_token_cache.py:835-847 | in every sound pool the claims made so far and the announced batch fit in P, on the bounded free path (64 claims, one query) too |
| PrefetchRuns.AnnouncedBatchSpares | cache/sparse_token_cache.py:741-870 | prepare for a batch, any stream of candidates while copies land, finalize: an append of at most the batch leaves every claimed row holding the token it was claimed for |
| PoolTheorems.PlannedAppendIsFifo | cache/sparse_token_pool.py:590-619 | in every sound pool a planned append takes the rows a fresh FIFO decision would take |
| PoolSlots.SoleSessionFits | cache/sparse_token_cache.py:652-660 | a sole session with history H leaves at least P - H rows free |
| PoolSlots.SoleRecallFits | cache/sparse_token_cache.py:652-660 | with a sole session and H at most P there are as many free rows as any selection has misses, and every victim is a free row |
| PoolSlots.SoleAppendFits | cache/sparse_token_cache.py:359-367 | with a sole session and an appended end at most P there are as many free rows as appended records, and the FIFO choice takes free rows only |
| PoolSlots.SolePrefetchFits | cache/sparse_token_cache.py:785-796 | with a sole session and P - H at least 64 at least 64 rows are free, and every row the bounded prefetch may claim is one of them |
| PoolSlots.ChooseFree | cache/sparse_token_cache.py:483-500 | as long as enough unprotected rows are free the victims are free rows and nothing is evicted |
| PoolTheorems.RunContainsWritebacks | cache/sparse_token_pool.py:456-501 | after any run without torn rollbacks at most `max_inflight_writes` copies are queued, each inside the written part of an open persistent step of a live session and carrying that session's records |
| PoolTheorems.EmptyPoolInv | cache/sparse_token_pool.py:170-278 | a new pool is sound, and a run from it stays sound throughout exactly when no rollback is torn |
| PoolSessions.CutToInv | cache/sparse_token_cache.py:423-455 | once the lease is free, rollback and truncation cut exactly one sequence to its prefix, leave nothing in flight and touch no other session |
| PoolSessions.DiscardInv | cache/sparse_token_cache.py:266-280 | discarding a suffix returns the session to exactly its committed history |
| PoolSessions.AllocateInv | cache/sparse_token_pool.py:347-387 | admission starts the new session empty on every layer and changes no other sequence |
| PoolSessions.ReleaseInv | cache/sparse_token_pool.py:719-780 | release removes one session, returns exactly its pages to the free ones and leaves every other session's records |
| PoolRuns.StepInv | cache/sparse_token_pool.py:410-454 | every action, accepted or refused, keeps the invariant and changes the sequences exactly as its declared effect says, except a torn rollback |
| DeviceLaw.StepMoves | cache/sparse_token_pool.py:410-454 | what every action, accepted or refused, does to the rows, maps and ages of every layer: appends fill the oldest rows (a dense pool: the rows of their positions) and make them the youngest, recalls follow `RecallLaw`, cuts and releases forget exactly the dropped tokens, a closing prefetch makes its rows the youngest, everything else moves nothing |
| CursorLaw.AcceptsExactly | cache/sparse_token_cache.py:227-455 | an action is accepted exactly when the lengths of the sequences, the leases, the cursors and the pages say so, condition by condition |
| CursorLaw.StepCursors | cache/sparse_token_cache.py:227-455 | every action, accepted or refused, moves exactly its own session's cursors on its own layer, and sessions, free pages and the open operation exactly as it says |
| CertificateLaw.LeftAloneCertified | cache/sparse_token_pool.py:590-626 | a session that nobody disturbs on a layer, and whose history stays within P, keeps its whole history certified over any run |
| CertificateLaw.DenseNeverRefuses | cache/sparse_token_pool.py:590-619 | in a dense pool such a session is never refused an append that its step has room for |
| PoolRuns.RollbackKeepsInv | cache/sparse_token_cache.py:423-434 | a rollback of an open persistent step keeps the pool sound if and only if the lease is free, nothing was written in the step, or an own prefetch makes it raise before it clears the step |
| RollbackHeals.TornHeals | cache/sparse_token_cache.py:436-455 | after a torn rollback, once another session has given the candidate rows back or the open operation has ended, truncating to the committed length gives exactly the sound pool a rollback gives at that time |
| RollbackGap.TornRollback | cache/sparse_token_cache.py:430-434 | the failing input: ten calls from a new pool, one of them a refused rollback, after which the certificate covers token 0 although no row holds it and the maps disagree |
| PoolRuns.RunKeepsInv | cache/sparse_token_pool.py:98-106 | a run passes through sound pools only, if and only if none of its rollbacks is torn |
| PoolRuns.RunReplays | cache/sparse_token_cache.py:33-44 | refinement over whole runs without torn rollbacks: each session's layer is the replay of its own appends and cuts, whatever the others do and whenever copies land |
| TwinSteps.StepTwins | cache/sparse_token_pool.py:410-454 | every action but the landing of a copy is accepted by both or neither of two pools that differ only in clock numbers, records, host memory and queued copies, and every action leaves them so: same maps, proofs, plans, leases and cursors |
| ClockRuns.RenumberingInvisible | cache/sparse_token_pool.py:531-543 | over any run of the pool machine without torn rollbacks, prefetches included, any two clock limits (or none) take the same victims at every action and end with the same sequences and the same record in every live row |
| PoolSnapshots.RestoreInv | cache/sparse_token_pool.py:826-878 | restoring an intact snapshot gives a sound pool with exactly the recorded sequences |
| SnapshotLaw.RestoreExactly | cache/sparse_token_pool.py:826-878 | a restore brings back the saved rows, maps, ages and cursors beside the present host memory, and revives exactly the dense certificates that were saved |
| SnapshotLaw.SaveRestores | cache/sparse_token_pool.py:782-878 | a pool that can be saved accepts what it has just saved, and restoring it changes nothing but proofs |
| SnapshotLaw.InvalidatedExactly | cache/sparse_token_pool.py:712-717 | an action invalidates exactly the snapshots that recorded more of a session than it truncates that session to |
| PoolSnapshots.MovedInv | cache/sparse_token_pool.py:712-717 | every action, save, or restore of a snapshot that nothing rewound below keeps all live snapshots restorable |
| PoolSnapshots.RestoreAfterRun | cache/sparse_token_pool.py:826-878 | after any run without torn rollbacks that loads no snapshot rewound below, an accepted snapshot below which no restore has rewound restores exactly its recorded lengths and records |
| PoolRestoreGap.RestoreExact | cache/sparse_token_pool.py:826-878 | after an accepted restore host memory holds every recorded token if and only if the recorded prefixes are intact |
| PoolRestoreGap.RestoreGap | cache/sparse_token_pool.py:712-717 | from any sound state with room for one record there is a run after which a valid, accepted snapshot is broken |
| RestoreLaw.RightIffIntact | cache/sparse_token_pool.py:826-878 | an accepted restore leaves a sound pool with the recorded sequences if and only if the recorded prefixes are intact |
| ArchiveTwins.RunTwins | cache/sparse_token_pool.py:780-878 | what appended records say never changes which moves, saves and restores are accepted, nor any length |
| RestoreLaw.RunSpoilt | cache/sparse_token_pool.py:826-878 | when every appended record is one fixed filler, a snapshot that a restore has rewound below and that may still be accepted has recorded positions where the pool, and every snapshot a careful run may still load, hold the filler or nothing |
| RestoreLaw.RestoreByLengths | cache/sparse_token_pool.py:826-878 | after such a run an accepted snapshot restores correctly for every choice of the records appended meanwhile if and only if no restore has rewound below it |
| PoolConsume.ConsumeMeaning | models/deepseek_v32/attention.py:201-235 | splitting terminates, succeeds exactly when each single query fits, and returns row by row the result on an unbounded resident cache |
| AttentionRunner.EchoAttentionRunner.Consume | models/deepseek_v32/attention.py:201-235 | the recursive consumer object: same rows, same pool and same split count as the specification, sequences undisturbed |
| SharedPool.SharedTokenPool.Synchronize | cache/sparse_token_pool.py:456-466 | waiting for one event lands every cell of that copy and no other, under the pool invariant |
| SharedPool.SharedTokenPool.ReapWrites | cache/sparse_token_pool.py:456-466 | the reaping loop computes the specified queue and leaves room when room is asked for |
| SharedPool.SharedTokenPool.DrainWrites | cache/sparse_token_pool.py:512-529 | the drain loop lands every queued copy and empties the queue |
| SharedPool.SharedTokenPool.WaitHostCopies | cache/sparse_token_pool.py:503-510 | after the loop no copy of that session and layer is in flight |
| SharedPool.SharedTokenPool.Enter | cache/sparse_token_pool.py:410-430 | accepted exactly when the lease is free; until it is closed no other session or layer may operate, no proof of another session stands, and no sequence has changed |
| SharedPool.SharedTokenPool.BeginStep | cache/sparse_token_cache.py:227-242 | accepted exactly without an open step and within capacity; no sequence changes, appends are then accepted exactly within the reserved tokens, and a commit is not until they are written |
| SharedPool.SharedTokenPool.BeginTransient | cache/sparse_token_cache.py:244-264 | no sequence changes, and every other session is refused the layer while the suffix is open |
| SharedPool.SharedTokenPool.DeclareVisible | cache/sparse_token_cache.py:282-288 | the announced end never moves back; no sequence changes, and a prefetch may be prepared exactly for batches that end within it |
| SharedPool.SharedTokenPool.AppendRecords | cache/sparse_token_cache.py:322-401 | the persistent branch of an append, once accepted: one sequence grows by the records, the rest stay |
| SharedPool.SharedTokenPool.Append | cache/sparse_token_cache.py:290-401 | every append, persistent or transient, accepted or refused: accepted, exactly the own sequence grows by the records; refused, no sequence changes and a dense pool keeps the lease it took |
| SharedPool.SharedTokenPool.EnsureRecords | cache/sparse_token_cache.py:502-569 | accepted exactly for bounded selections of written tokens; each returned row reads back the record written at that position |
| SharedPool.SharedTokenPool.Commit | cache/sparse_token_cache.py:411-421 | accepted exactly for a finished persistent step: everything written is committed, nothing is in flight, nothing is left to roll back |
| SharedPool.SharedTokenPool.Rollback | cache/sparse_token_cache.py:423-434 | in the order of the source: accepted, it cuts exactly its own sequence to the committed length; the pool is sound afterwards exactly when the call was not torn |
| SharedPool.SharedTokenPool.Truncate | cache/sparse_token_cache.py:436-455 | accepted, exactly its own sequence becomes its first `length` records and nothing is in flight; refused, no sequence changes |
| SharedPool.SharedTokenPool.DiscardTransient | cache/sparse_token_cache.py:266-280 | accepted, exactly its own sequence returns to the committed history and the candidate rows are free; refused, no sequence changes |
| SharedPool.SharedTokenPool.AllocateSession | cache/sparse_token_pool.py:347-387 | the new session is empty on every layer, its pages leave the free ones, no other sequence changes; refused without effect |
| StagingStreams.CopySparesConsumers | cache/staging.py:309-326 | no copy about to run overwrites a slot for which an earlier consumer is still queued |
| StagingStreams.ConsumerReadsSources | cache/staging.py:331-353 | a consumer about to run reads exactly the sources given to its own load |
| StagingStreams.ConsumerReadsSuffix | cache/staging.py:49-61 | a consumer queued behind a suffix write of its own load reads what was last written, where it was written |
| StagingStreams.ExecCopySound | cache/staging.py:309-326 | running the head of the copy stream keeps the protocol and the newest copy of every buffer standing |
| StagingStreams.ExecCallerSound | cache/staging.py:331-353 | running the head of the caller stream keeps it, a suffix write landing behind what its load copied |
| StagingStreams.NeverStuck | cache/staging.py:156-174 | the two streams never wait for each other in a circle: while anything is queued one head may run |
| StagingStreams.ScheduleReadsSources | cache/staging.py:49-61 | under every interleaving the protocol holds throughout, consumers read their own sources and, behind them, the suffix last written for their load |
| StagingStreams.StartLoadSound | cache/staging.py:318-324 | recording the consumer event and making the copy stream wait for it keeps the protocol |
| StagingStreams.AddCopySound | cache/staging.py:309-316 | queueing the next record's copy keeps the protocol, even if the load is abandoned after it |
| StagingStreams.PushCallerSound | cache/staging.py:331-342 | queueing a wait, a consumer of a waited-for load, or a suffix write behind its history keeps the protocol |
| Staging.DoubleBufferStaging.RunCaller | cache/staging.py:331-353 | whatever was queued through the lease, a consumer that executes sees its own layer's sources and the suffix last written behind them |
| Staging.DoubleBufferStaging.RunCopy | cache/staging.py:309-326 | a copy that executes overwrites no slot with an unexecuted earlier consumer |
| Staging.DoubleBufferStaging.Join | cache/staging.py:156-174 | a confirmed join empties both streams, an unconfirmed one poisons the storage |
| Staging.DoubleBufferStaging.Lease | cache/staging.py:126-150 | a lease is granted exactly when none is active and the storage is open and healthy |
| Staging.DoubleBufferStaging.Prefetch | cache/staging.py:292-329 | refused exactly when the lease is unusable, the sources do not fit or the old consumer has not waited; otherwise complete, or interrupted at the failing submission |
| Staging.DoubleBufferStaging.WaitReady | cache/staging.py:331-342 | only the owning layer may wait; afterwards the caller stream waits for exactly that load's copies |
| Staging.DoubleBufferStaging.Consume | cache/staging.py:344-353 | work on borrowed views is accepted exactly for the owning layer after its wait, and is tied to that slot's newest load |
| Staging.DoubleBufferStaging.WriteSuffix | cache/staging.py:49-61 | a suffix written behind the copied history keeps the protocol, so later consumers still read the history |
| Staging.DoubleBufferStaging.Reset | cache/staging.py:355-361 | a confirmed reset drains both streams, clears both slots and re-enables an interrupted lease |
| Staging.DoubleBufferStaging.CloseLease | cache/staging.py:363-376 | a closed lease leaves both streams empty, or the storage poisoned and still owned by it |
| Staging.DoubleBufferStaging.Close | cache/staging.py:180-197 | storage is disposed of only with no live lease and drained streams |
| PrefixPool.VictimsAreShortest | cache/prefix_pool.py:202-210 | eviction stops at the shortest sufficient LRU prefix and, for a possible request, before victims run out |
| PrefixPool.AcquireKeepsQuotas | cache/prefix_pool.py:165-234 | admission keeps byte, page and token quotas and unique keys, whatever the callbacks do |
| PrefixPool.AdmitsIsWithin | cache/prefix_pool.py:202-207 | the eviction loop asks exactly whether all quotas would hold with the new entry beside the remaining ones |
| PrefixPool.PrefixSessionPool.Acquire | cache/prefix_pool.py:134-234 | told on the entries: refused exactly for malformed or impossible requests, without effect; a hit exactly when the key has a ready entry of the same history and plan that is at least as large, which is handed out and moves to the young end; otherwise a new entry that is not ready, and as evicted the stale key followed by the shortest sufficient run of oldest entries |
| PrefixPool.PrefixSessionPool.Evict | cache/prefix_pool.py:202-210 | the eviction loop drops exactly the shortest sufficient LRU prefix and names it in order |
| PrefixPool.PrefixSessionPool.Discard | cache/prefix_pool.py:128-132 | one key goes, quotas and the order of the others stay |
| PrefixPool.PrefixSessionPool.MarkReady | cache/prefix_pool.py:236-237 | exactly the key's entry becomes ready |
| StackDistance.HitIffNear | cache/prefix_pool.py:181-227 | stack-distance law: with equal page charges a request hits if and only if its user was seen before and fewer distinct users than fit were requested since |
| StackDistance.SamplePopulation | GR/sample_distribution.py:46-73 | each sampled row has the number of earlier visits, the previous visit and the number of distinct users requested since |
| StackDistance.RowsPredictHits | GR/sample_distribution.py:66-68 | the sampled reuse distance predicts every hit: hit if and only if it is below floor(capacity / charge) |
| StackDistance.BehindIsSince | GR/sample_distribution.py:66-68 | the users behind one in the recency order are exactly those requested since it was last seen |
| HostPages.PageArena.Allocate | cache/sparse_token_pool.py:347-387 | each error exactly when it applies; otherwise free pages move to the new session, contiguous and at the lowest feasible address when required |
| HostPages.PageArena.Release | cache/sparse_token_pool.py:740-760 | exactly the session's pages become free again and the overlap error is unreachable |
| HostPages.PageArena.EmptyArenaIsOneRun | cache/sparse_token_pool.py:741-752 | once every session is gone the contiguous arena is one free run |
| HostPages.MergeRuns | cache/sparse_token_pool.py:743-752 | merging yields sorted, disjoint, maximally merged runs over the same pages, and reports an overlap exactly when two runs overlap |
| HostPages.StretchInRun | cache/sparse_token_pool.py:364-376 | any stretch of free pages lies inside one run, so first fit fails only when no contiguous stretch exists |
| HostPages.FirstFit | cache/sparse_token_pool.py:364-376 | the first run long enough starts at the lowest feasible address; none means no contiguous stretch of that length is free |
| HostPages.CutRun | cache/sparse_token_pool.py:366-373 | cutting pages off the front of a run removes exactly those pages and leaves the runs merged |
| HostPages.GrantPlaces | cache/sparse_token_pool.py:377-387 | granting free pages keeps free and session pages a partition of the arena |
| HostPages.ReleasePlaces | cache/sparse_token_pool.py:753-758 | returning pages keeps free and session pages a partition of the arena |
| HostRuns.BuildRuns | cache/sparse_token_pool.py:912-925 | the runs tile the session, translate every position as the page table does and are maximal |
| HostRuns.BisectRight | cache/sparse_token_pool.py:475-478 | the binary search splits the run ends at the position |
| HostRuns.WriteHost | cache/sparse_token_pool.py:468-487 | writing through runs writes exactly the cells the page table names, each with its source record |
| IndexerCache.CountIsComplete | models/nosa/indexer.py:672-673 | the published counts are exactly the records whose whole token span has arrived |
| IndexerCache.SpansAre | models/nosa/indexer.py:333-345 | a compressed record spans 32 tokens at stride 16, a pooled one exactly the existing compressed records that touch its block |
| IndexerCache.EqualsAcross | cache/indexer_cache.py:227-242 | right records stay right when tokens are appended, and the kept ones when tokens are dropped |
| IndexerCache.IndexerCache.ReserveLayer | cache/indexer_cache.py:144-166 | refused exactly for a double, invisible or oversized reservation; otherwise the target extends what is published |
| IndexerCache.IndexerCache.Write | cache/indexer_cache.py:46-58 | a borrower's write beyond the previous cursor keeps everything published right |
| IndexerCache.IndexerCache.FinishLayer | cache/indexer_cache.py:168-176 | the target is published, pending inside a step and committed outside one, other layers unchanged |
| IndexerCache.IndexerCache.AbortLayer | cache/indexer_cache.py:178-180 | a withdrawn reservation publishes nothing, whatever was written |
| IndexerCache.IndexerCache.LayerView | cache/indexer_cache.py:182-193 | every record shown equals recomputation from the visible tokens |
| IndexerCache.IndexerCache.BeginStep | cache/indexer_cache.py:195-202 | opening a step appends tokens under everything published |
| IndexerCache.IndexerCache.CommitStep | cache/indexer_cache.py:204-216 | commit publishes exactly what the step showed, refused while a reservation is open |
| IndexerCache.IndexerCache.AbortStep | cache/indexer_cache.py:223-225 | the tokens and the records return to the committed ones, still right although buffers were written |
| IndexerCache.IndexerCache.Truncate | cache/indexer_cache.py:227-242 | each layer keeps at most the given records; all of them are right for the shorter prefix if and only if min(published, given) is at most the complete records of that prefix for every layer and kind |
| IndexerCache.TruncatePrefix | models/nosa/cache/resident.py:234-257 | a cache that drops tokens passes the counts of the shorter prefix, and what stays published is always right |
| IndexerCache.Update | models/nosa/indexer.py:685-694 | an updater that writes only beyond `previous`, from each record's own span, makes the whole target right |
| IndexerCache.PrepareInputs | models/nosa/indexer.py:662-705 | the views are the complete records of the requested prefix, as computed from scratch; a failed update publishes nothing |
| BlockSelection.TopPrecedes | models/nosa/indexer.py:774-777 | the first k of a stable descending argsort are distinct and precede every position left out |
| BlockSelection.ShortPathAgrees | models/nosa/indexer.py:755-760 | the path for at most 64 blocks agrees with the ranked one |
| BlockSelection.SelectionShape | models/nosa/indexer.py:747-778 | exactly min(64, visible) distinct ascending visible IDs, then -1 |
| BlockSelection.SelectionProtects | models/nosa/indexer.py:769-777 | block 0, the local blocks and the visible members of the query's top 33 are always selected |
| BlockSelection.SelectionDominates | models/nosa/indexer.py:774-778 | every other selected block beats every rejected visible block by CIS, ties to the smaller ID |
| BlockSelection.SelectionLaw | models/nosa/indexer.py:769-778 | exactly 33 blocks (or all visible ones) are protected: block 0 and the 17 local ones, then those with the largest query scores; all are selected, and the other selected blocks are those with the largest CIS, ties to the smaller ID |
| BlockSelection.LocalSelected | models/nosa/indexer.py:769-769 | block 0 and every block from sixteen before the query's own up to it are in the answer |
| BlockSelection.SelectionMeans | models/nosa/indexer.py:747-778 | the answer has 64 entries: min(64, visible) visible IDs ascending, then -1 |
| BlockSelection.BlockScoreIsMax | models/nosa/indexer.py:762-766 | a block's score is the largest of the existing windows 4b - 1 to 4b + 3, and there is none exactly when no such window exists |
| BlockSelection.WindowedIsMax | models/nosa/indexer.py:762-766 | a block's score is the maximum over its existing windows and is attained |
| LayerPlan.PrefixExchange | models/deepseek_v32/model.py:42-50 | any partition is at least as heavy as extending the best choice for its own prefix |
| LayerPlan.BestEnd | models/deepseek_v32/model.py:42-50 | a table entry is found exactly when a partition exists, and is then optimal and, among the optimal ones, the one whose last part starts earliest, and so on for the layers before it |
| LayerPlan.PlanLayerDevices | models/deepseek_v32/model.py:34-60 | the mapping follows the partition minimising the largest weight, ties going to the earliest start of each last part; "cannot hold" exactly when no partition exists |
| Fenwick.BuiltNode | GR/scheduling.py:58-64 | adding each node into its parent in order leaves every node holding the sum it covers |
| Fenwick.WeightedSampler.constructor | GR/scheduling.py:58-64 | the tree represents the given weights |
| Fenwick.WeightedSampler.Set | GR/scheduling.py:66-72 | one weight is replaced and every node follows |
| Fenwick.WeightedSampler.Draw | GR/scheduling.py:74-89 | with a positive total the drawn user's interval of the cumulative weights contains the target, so its weight is positive |
| Fenwick.BetweenIsNarrow | GR/scheduling.py:70-72 | nodes between a node and its parent reach back only to it |
| Schedule.SlotVisitKeeps | GR/scheduling.py:124-130 | drawing an active user keeps gaps, slot quota, visit maximum and remaining = active + cooling |
| Schedule.WakeKeeps | GR/scheduling.py:116-119 | waking a due user restores its full weight and keeps every slotted invariant |
| Schedule.ActiveIsOpen | GR/scheduling.py:113-119 | before the next due slot the users with sampling weight are exactly those with visits left whose gap has passed |
| Schedule.JumpWaits | GR/scheduling.py:115-123 | with nobody active, no slot before the next due one could have had a visit |
| Schedule.StreamDrawable | GR/scheduling.py:132-142 | while users remain the total weight is positive and only unfinished users can be drawn |
| Schedule.NextTurn | GR/scheduling.py:132-140 | sequential order advances every user round by round |
| Schedule.Scheduler.Admit | GR/scheduling.py:115-123 | the inner loop terminates with somebody active and nobody due left cooling |
| Schedule.Generate | GR/scheduling.py:92-143 | each visit goes to the user whose interval of the cumulative weights, among the users open then, contains the scaled draw; a slotted visit comes in the first slot with quota and an open user; Poisson times are the start plus the ticks; visits respect the maximum, gaps and quotas, time never runs back, and the schedule is short only when every user is exhausted |
| ForwardModel.Model.BeginAll | models/deepseek_v32/model.py:748-750 | the loop begins every layer, or stops at the first that raises or that an interrupt keeps from being recorded; exactly the layers before it are recorded |
| ForwardModel.Model.CommitAll | models/deepseek_v32/model.py:774-775 | a prefix of the layers commits; a failed drain poisons its pool, an interrupt stops before, between or inside commits |
| ForwardModel.Model.Recover | models/deepseek_v32/model.py:778-814 | without an interrupt every started layer with an open step is rolled back or the model is poisoned; an interrupt leaves the rest open and nothing poisoned |
| ForwardLaw.AllOrNothing | models/deepseek_v32/model.py:733-814 | a pass that returns has grown every layer and the length by the batch; one that raises has poisoned the model or given everything back if and only if it is not lost to an interrupt |
| ForwardLaw.UndoErrors | models/deepseek_v32/model.py:796-810 | clean-up reports an error exactly when some open step's pool is poisoned or its rollback fails |
| ForwardLaw.UndoExactly | models/deepseek_v32/model.py:796-810 | exactly the pools of failed drains are poisoned, and a visited open step is rolled back exactly when its pool is sound by then |
| ForwardLaw.CleanupMeans | models/deepseek_v32/model.py:778-814 | what an interrupt does to the clean-up by when it comes: before everything, after some rollbacks, or too late; without one every started layer is visited, and a failed synchronisation only poisons |
| ForwardLaw.HealthyAccepts | models/deepseek_v32/model.py:733-750 | a consistent model begins every layer exactly when it is not poisoned, the batch is not empty and fits, and no pool is poisoned |
| ForwardSlips.BeginSlipJams | models/deepseek_v32/model.py:748-750 | failing input: an interrupt between a layer's begin and its recording leaves that step open, unpoisoned, and every later pass is refused |
| ForwardSlips.CommitSlipTears | models/deepseek_v32/model.py:774-776 | failing input: an interrupt after k commits leaves exactly k layers with the batch and the model's length without it |
| ForwardSlips.HalfCommitTears | cache/sparse_token_cache.py:419-421 | failing input: an interrupt between the two assignments of a commit leaves that layer with the batch too |
| ForwardSlips.UpdateSlipKeeps | models/deepseek_v32/model.py:776-777 | failing input: an interrupt after the length update raises although the whole batch is committed |
| ForwardSlips.CutCleanupJams | models/deepseek_v32/model.py:778-801 | failing input: an interrupt before the clean-up or between two rollbacks leaves the remaining steps open, unpoisoned, and every later pass is refused |
| ForwardModel.Model.Run | models/deepseek_v32/model.py:733-814 | a poisoned model, an empty batch or one that does not fit is refused without effect; without faults the pass returns exactly when no pool is poisoned either; the in-place phases compute the specified pass, so it is all or nothing exactly when it is not lost to an interrupt |
| ForwardCaches.AcceptsSeen | cache/sparse_token_cache.py:227-242 | a layer that is not poisoned accepts a step in the transaction exactly when the pool accepts the begin, unless another session holds the candidate rows |
| ForwardCaches.BeginSeen | cache/sparse_token_cache.py:227-242 | beginning a layer's step in the transaction is the pool's begin, with the session's other layers unchanged |
| ForwardCaches.AppendSeen | cache/sparse_token_cache.py:290-401 | appending in the body is the pool's append |
| ForwardCaches.CommitSeen | cache/sparse_token_cache.py:411-421 | committing a layer is the pool's commit |
| ForwardCaches.RollbackSeen | cache/sparse_token_cache.py:423-434 | rolling a layer back is the pool's rollback |

## Left out

- Device kernels and native metadata operators: foreign code; the reference arithmetic of the Python paths is modelled and the native branches are taken as implementing it.
- CUDA Graph capture (`cache/sparse_token_graph.py`) and the extend-graph branch of the forward pass: they need capture semantics that the model does not have.
- Statistics, counters, byte accounting, diagnostics, storage audits: they do not feed back into behaviour.
- Shape, dtype and device validation: folded into preconditions or types.
- Standalone and non-shared caches: a session appends at most P records at once, so the piece loop of `append` runs once.
- Dense history certification by DMA prefetch: `PoolHistoryPrefetch` is not part of this model; dense certificates come from ordered append and restore only.
- Anything after the first torn rollback of a run, beyond the run of `RollbackGap`: no theorem is claimed for the pools reached from there.
- PoolRuns.StepInv: at pool level layers, sessions and queue are values inside the fields of `SharedTokenPool`, so aliasing between a layer's arrays and the pool is not modelled; `LayerPool` proves the same store functions on arrays. Prefetch, release, snapshot and restore exist at pool level only as actions on values. Twin pools are compared as values too.
- PoolSessions.AllocateInv: the pool takes any free pages the allocator picks; which ones it picks is the subject of `HostPages`.
- PoolRuns.RunReplays: a copy lands cell by cell, which is more general than the engine's order; the position of a drain relative to map updates of the same call is not observable in the model.
- Transient writes that outlive their stream, and stream identity checks of the pool and of staging leases: one caller stream is assumed per lease.
- Staging on the CPU, the shapes of borrowed views, and stopping callers that keep a view after its lease: consumers are queued through the lease methods.
- Staging.DoubleBufferStaging.Join: a failed join executes nothing further by itself; partial execution is covered by scheduler steps before it.
- Release callbacks that raise in the LRU, and the measured-usage checks of its audit beyond their outcome: the audit's verdict is a parameter.
- StackDistance.HitIffNear: byte budgets and token quotas are absent there, since the law is stated for equal page charges.
- The arithmetic of compression, softmax, norms, rotary, experts and quantisation: floating point; the index records are an arbitrary function of their token span.
- Schedule.Generate: sampling in floating point may land on a neighbouring user at interval ends; weights are reals here. `heapq` and the random generators are library code, replaced by an ordered queue and by given draws.
- Histogram and summary columns of the sampled trace, heat curves, capacity dataclasses, model loading, text generation, lifecycle flags, reports and command lines: bookkeeping or input and output.
- RestoreLaw.RestoreByLengths: runs that load a snapshot rewound below, or contain a torn rollback, are excluded; whether a pool that such a load broke comes right again is not followed.
- RollbackGap.TornRollback: one run shows a wrong certificate; from which other torn rollbacks a continuation reaches one is not characterised beyond the broken invariant.
- ForwardModel.Model.Run: prefetch-hint offsets and helpers carry no state of their own, only the possibility to fail; an interrupt inside a cache operation counts as that operation raising or as the point after it, except between the two assignments of a commit.

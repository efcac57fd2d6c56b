# A verified model of the goforj/queue workflow engine

goforj/queue runs jobs, chains and batches over transports that deliver at least once. Deliveries are duplicated,
reordered, reclaimed from workers that are still running, and settled by statements whose reply may be lost. What
makes this safe is spread over several files: first-writer outcomes and receipts in the workflow store, recovery checks
in the chain and batch handlers, claim tokens and lineage in the SQL driver, reservations and permits in the in-process
worker pool, and the staged shutdown of the runtime. This project models those parts in Dafny and proves what they
guarantee together, over every run.

`dafny verify dfyconfig.toml` checks all of it.

## What is proved

**Chains over SQL rows** (`chain_engine.dfy` and the `chain_*` files). The system is the workflow store, the queue table
and the workers, with one action for each atomic step of any participant: store calls, fenced row statements, claims,
stale-lease recovery, crashes, pruning. Over every run:

* a delivery never names a node ahead of its chain, so handlers run in chain order (`DeliveriesFollowChainOrder`);
* every published fact carries the identity derived from the one receipt owner of its node
  (`PublishedFactsHaveOneOwner`), and while a chain is stored no recovery check refuses its deliveries and no answer of
  its advance and failure calls is found inconsistent (`DefensiveErrorsUnreachable`);
* the facts of a committed node are published exactly when the receipt's owner, or a later generation that has met the
  receipt and whose row's lineage is still that owner, has a settlement acknowledged while it owns its row
  (`ChainFacts.FactsPublishedExactly`). Otherwise they are lost: `LostReplyLosesFacts` and `SecondStaleLeaseLosesFacts`
  are complete runs of both kinds;
* a recovered delivery that meets a receipt echoes it and never runs the handler again (`ReceiptBarsRerun`);
* no live chain is left without a carrier that survives its workers exactly when every commit finds a row of its node
  that outlives it (`NoLostContinuation`). A commit that owns its row always does, and commits own their rows while
  leases outlive their handlers (`OwnedCommitsSuffice`, `LeasesOutliveHandlers`);
* a live chain is ever delivered again exactly when it has an unsettled row, or a worker of it can still reach an
  accepted dispatch, or its creator has yet to enqueue its first node (`DeliveredAgainIff`).
  `OverlappingLeasesCanLoseContinuation` is a complete run under the default lease that ends with a live chain which
  has none of these.

The runs that end a guarantee (`lost_*.dfy`, `late_cancellation.dfy`) are built from `chain_witness.dfy` and `batch_witness.dfy`, each restricted to one kind of fault.

**SQL rows** (`sql_rows.dfy`, `job_table.dfy`). Fencing, at-most-once settlement, truthful lineage and exact retry
accounting for any interleaving of claims, recovery and repeated or omitted settlement statements.

**Batches** (`batch_*.dfy`). Counter conservation for every call sequence, confluence of deliveries, final first
writers, no lost member, and for every call sequence, cancellations included, exactly when a completed batch has a
completion owner, when that owner may publish for it, and when receipts keep passing the recovery checks. Facts of
members are published under the same exact condition as those of nodes, except that recovery does not rebuild the
progress of a failed member (`BatchFacts.FactsPublishedExactly`, `RecoveryRebuildsSuccesses`,
`FailedMemberLosesProgress`). Cancellation may come at any time in these runs; a recovered delivery is refused by a
readable batch exactly when its receipt owns the completion and the batch was cancelled after it had completed cleanly
(`RefusedIffCancelledLate`).

**The in-memory store** (`memory_store.dfy`, `callbacks.dfy`) is an object with its four maps. Every method is proved
against the transition functions used above, and all of them together keep every stored workflow and receipt
consistent, including reuse of an identifier after discarding or pruning.

**Concurrency lifecycles** (`worker_pool.dfy`, `runtime_shutdown.dfy`, `permits.dfy`, `delivery_settlement.dfy`,
`retry_loop.dfy`). Reservations, permits, drain and close as interleaved steps around the lock-protected fields.

**Refinements of simpler views** (`claim_store.dfy`, `stats_collector.dfy`, `sql_uniqueness.dfy`, `identity.dfy`). The
claim store's indexed heap and map refine a plain map from keys to (token, expiry); a window over the pruned statistics
lists counts like the full history exactly when nothing that was pruned lies inside it; framed identities are injective.

## How the model is built

* A Go string or byte slice is a Dafny string whose characters stand for bytes. A SHA digest is represented by the
  bytes it digests, so equal digests mean equal pre-images. Claim tokens are assumed fresh.
* Every `memoryStore` method runs under one mutex and is one atomic step. A store call either fails unapplied or is
  applied and reported. Inserts and settlement statements may also be applied although they report an error.
* Time, randomness, handler results and every failure are inputs of a step, chosen by the environment.
* `Whole(p)` and `forall k :: Unseal(k) ==> p` state `p`; they only decide when a proof looks inside it.

## Model

| member | source | states |
|---|---|---|
| ChainStore.ChainNodePosition | internal/workflow/store.go:249-256 | The scan finds the first node with the identifier, or reports that no node has it. |
| ChainStore.ValidateChainRecord | internal/workflow/store.go:291-309 | Accepts exactly the records with an identifier and present, named, pairwise distinct nodes. |
| ChainStore.DispositionsPartition | internal/workflow/store.go:275-410 | On every sound chain the success, advance and failure dispositions agree: committed, current, failed-here and future nodes are told apart the same way by all three. |
| ChainStore.AdvanceEffect | internal/workflow/store_memory.go:82-128 | A fresh success claim commits exactly the current node of a live chain; any other call changes nothing. |
| ChainStore.FailEffect | internal/workflow/store_memory.go:139-171 | A fresh failure claim fails a live chain at exactly its current node; any other call changes nothing. |
| ChainStore.ClaimsFollowChainOrder | internal/workflow/store_memory.go:82-189 | For every order and duplication of advance and failure calls, the nodes that won a success claim are the committed prefix in order, each once; at most one failure claim exists, at the node the chain stopped at; completed and failed never both hold. |
| ChainSafety.StepKeepsInv | internal/workflow/chain.go:494-625 | Every action of the chain system keeps the invariant: order, truthful receipts, owned facts and admissible worker points. |
| ChainSafety.Reachable | internal/workflow/chain.go:103-625 | The invariant holds after every run from the empty system. |
| ChainTheorems.DeliveriesFollowChainOrder | internal/workflow/chain.go:470-625 | After every run each queued or running delivery names a node at or before the current one, and all earlier nodes have a success receipt. |
| ChainTheorems.PublishedFactsHaveOneOwner | internal/workflow/chain.go:324-400 | Every published fact is the one determined by its node's receipt owner; two facts of one kind for one node are equal; the publishing generation settled its row exactly once. |
| ChainTheorems.DefensiveErrorsUnreachable | internal/workflow/chain.go:324-625 | While its chain is stored, no reachable delivery gets a store error from advance or failure, no answer of those calls is found inconsistent, and no recovery check refuses it. |
| ChainFacts.FactsPublishedExactly | driver/sqlqueuecore/queue_database_impl.go:729-767 | Over every run, a generation has published a fact of a node if and only if its settlement was applied and acknowledged while it owned its row and it owned the node's success receipt, or had met the receipt with its row's lineage still the owner; it then published both facts of the node. |
| ChainFacts.DeferredFactsAreExact | internal/workflow/chain.go:573-625 | In every reachable state a delivery holds no facts or exactly those of its node's receipt, the owner of a success always holds them, and a delivery that owns its row inherits the receipt exactly when the row's lineage is its owner. |
| ChainFacts.MetReceiptRebuildsFacts | internal/workflow/chain.go:368-400 | A reachable delivery that meets its node's receipt rebuilds exactly the owner's facts when the recovery rule makes it the owner's heir, and none otherwise. |
| LostFacts.LostReplyLosesFacts | driver/sqlqueuecore/queue_database_impl.go:846-881 | Lost settlement replies alone can leave a completed chain with its receipt and no published fact. |
| LostFacts.SecondStaleLeaseLosesFacts | internal/workflow/chain.go:380-381 | Two vanished workers in a row can do the same although every statement is acknowledged: the second recovery replaces the owner in the row's lineage. |
| ChainFrames.ActionStates | driver/sqlqueuecore/queue_database_impl.go:729-767 | Every action executes at most one queue statement, so each system run is a run of the fenced queue table. |
| ChainFrames.RunProjects | driver/sqlqueuecore/queue_database_impl.go:706-767 | Every run of the chain system projects to a run of the fenced queue table. |
| ChainFrames.StepGrows | internal/workflow/store_memory.go:82-189 | Chain states only progress and recorded receipts never change, under every action. |
| ChainReplay.ReceiptBarsRerun | internal/workflow/chain.go:324-463 | A recovered delivery that enters after its node has a receipt never runs the handler or asks for a transition again, over any continuation; it returns the receipt's outcome or a same-attempt redelivery. |
| ChainProgress.NoLostContinuation | internal/workflow/chain.go:312-625 | For every run, each live chain has, in every state, an unsettled row of its current node, or an unsettled row of the committed predecessor that will dispatch it without running the handler, or a creator that has not yet learned the fate of its first delivery, if and only if each commit that leaves its chain live finds a row of its node that outlives it. |
| ChainProgress.AdvanceCarriesIff | internal/workflow/chain.go:573-625 | One commit leaves its chain carried exactly when its own row, a recovered row that waits, a row whose worker vanished or one bound to meet the receipt is there before it. |
| ChainProgress.OwnedCommitsSuffice | driver/sqlqueuecore/queue_database_impl.go:941-982 | Commits made by generations that own their rows keep every live chain carried, and commits own their rows in every run whose leases outlive their handlers. |
| ChainProgress.StepKeepsHeld | driver/sqlqueuecore/queue_database_impl.go:941-982 | With such leases a delivery that is still inside its handler owns its row. |
| ChainProgress.LeasesOutliveHandlers | driver/sqlqueuecore/queue_database_impl.go:941-958 | Stale recovery is exclusive whenever each running handler is within its timeout and grace, or within the lease without timeout. |
| ChainDelivery.DeliveredAgainIff | internal/workflow/chain.go:312-625 | In every reachable state some continuation queues a delivery of a live chain if and only if the chain has a row that is not settled, or a worker of it can still reach an accepted dispatch, or its creator has yet to enqueue its first node. |
| ChainDelivery.StillForever | internal/workflow/chain.go:470-625 | A chain with none of these never gets one back, over any run. |
| LostContinuation.OverlappingLeasesCanLoseContinuation | internal/workflow/chain.go:512-524 | Under the default lease, and with every statement acknowledged, a run with a lease recovered under a running handler ends with a live chain and an empty queue: the continuation is lost. |
| SqlRows.LostGenerationStaysFenced | driver/sqlqueuecore/queue_database_impl.go:1039-1119 | Over every run a generation that lost its row never owns a row again, and its later statements change nothing. |
| SqlRows.SettlesAtMostOnce | driver/sqlqueuecore/queue_database_impl.go:846-881 | Each claim generation settles its row at most once, however often its statements repeat. |
| SqlRows.LineageAndBudget | driver/sqlqueuecore/queue_database_impl.go:941-1032 | In every reachable table a pending row's token is null, the marker or an earlier claim of that row at its current attempt; a live row is within its retry budget and a dead one at most one past it. |
| SqlRows.AttemptCountsCharges | driver/sqlqueuecore/queue_database_impl.go:1273-1302 | A row's attempt grows by exactly the number of retried or failed settlements its owners made; recovery, redelivery and repair charge nothing. |
| SqlRows.RedeliveryKeepsLineage | driver/sqlqueuecore/queue_database_impl.go:1086-1168 | Across any number of claims, redeliveries and repairs an inherited generation survives until a stale lease, a committing generation or an attempt-ending settlement replaces it. |
| SqlRows.CommittedGenerationBecomesLineage | driver/sqlqueuecore/queue_database_impl.go:1148-1168 | A generation that committed application state becomes the lineage of its redelivered row. |
| JobTables.JobTable.Settle | driver/sqlqueuecore/queue_database_impl.go:1039-1081 | One fenced delete or update; it reports success only when it changed the generation's own row. |
| JobTables.JobTable.SettleWithRetry | driver/sqlqueuecore/queue_database_impl.go:846-881 | Three ambiguous attempts leave the table untouched or with exactly one settlement. |
| JobTables.JobTable.Restore | driver/sqlqueuecore/queue_database_impl.go:1086-1143 | Lineage repair fenced by token and attempt. |
| JobTables.JobTable.Finalize | driver/sqlqueuecore/queue_database_impl.go:729-780 | Facts are committed only with a settled row; otherwise the row is unchanged, settled once or repaired; no other row is touched and the attempt is charged at most once. |
| RetryLoop.RunWithRetry | queue_local.go:591-639 | Attempts carry the number the earlier outcomes determine, and the loop ends at the first success, terminal failure or cancelled wait. |
| RetryLoop.RetryableFailuresCountUp | queue_local.go:610-637 | A handler that keeps failing retryably is attempted with numbers 0 to the budget, and fails there. |
| RetryLoop.WithinBudget | busruntime/runtime.go:167-178 | No attempt exceeds the budget, however many redeliveries intervene. |
| RetryLoop.RowsCountLikeTheLoop | driver/sqlqueuecore/queue_database_impl.go:1273-1302 | For the same outcomes a SQL row's attempt equals the loop's attempt; a terminal failure leaves it dead with one more charge. |
| BatchStore.ValidateBatchRecord | internal/workflow/store.go:313-331 | Accepts exactly the records with an identifier and present, named, pairwise distinct members. |
| BatchStore.BlankMembers | internal/workflow/store_memory.go:233-236 | The creation loop enters every member once with a blank status. |
| BatchStore.CountersConserved | internal/workflow/store_memory.go:283-328 | Over every call sequence pending + processed = total, processed and failed count the settled and failed members, and completed holds exactly when nothing is pending or the batch is cancelled. |
| BatchStore.DeliveryOrderIsIrrelevant | internal/workflow/store_memory.go:283-328 | For one outcome per member and no cancellation, any two call sequences reaching the same members end in the same counters, flags and outcomes. |
| BatchStore.FirstWriterIsFinal | internal/workflow/store_memory.go:283-352 | A settled member's outcome and receipt never change. |
| BatchStore.ReplayOwnsIffAgrees | internal/workflow/store_memory.go:298-305 | A replay owns its outcome exactly when it agrees with the first writer. |
| BatchStore.ShapesAgreeIffNoLateCancel | internal/workflow/store_memory.go:416-427 | With complete claims every receipt passes the terminal-ownership checks if and only if no call cancelled a cleanly completed batch. |
| BatchStore.BalancedIsRecoverable | internal/workflow/batch.go:315-332 | Conserved counters pass every aggregate check of a recovered delivery. |
| BatchStore.SingleTerminalOwner | internal/workflow/batch.go:291-302 | Over every call sequence with complete claims at most one receipt owns completion; a completed batch has an owner exactly when a settlement rather than a cancellation completed it; an owned settlement may publish for the batch exactly when it is that owner's and no call cancelled the batch after it had completed cleanly. |
| BatchTheorems.StepKeepsInv | internal/workflow/batch.go:418-507 | Every action of the batch system, cancellation at any time included, keeps its invariant. |
| BatchTheorems.NoLostMember | internal/workflow/batch.go:418-507 | After every run, with overlapping leases and late cancellation too, each accepted member is settled in its batch or still has an unsettled row. |
| BatchTheorems.FirstSettlementDefersItsFacts | internal/workflow/batch.go:418-507 | A first settlement defers exactly the facts it makes true, completion exactly when it completes the batch uncancelled. |
| BatchTheorems.PublishedFactsHaveOneOwner | internal/workflow/batch.go:358-415 | Published facts are those their member's receipt entitles to; two facts of one kind for a member are equal, and all batch_completed facts of a batch are one fact. |
| BatchReplay.ReceiptBarsRerun | internal/workflow/batch.go:358-443 | A recovered delivery that enters after its member has a receipt never starts, runs or settles it again and returns the receipt's outcome; while the batch can be read a check refuses it exactly when its receipt owns a clean completion and the batch it has read was cancelled. |
| BatchCancellation.RefusedIffCancelledLate | internal/workflow/batch.go:334-384 | Over every run, a delivery that reads the batch after its member has a receipt and then checks that receipt is refused if and only if the receipt owns the completion and the run up to the read cancelled the batch after it had completed cleanly. |
| BatchCancellation.ShapesFitIffNoLateCancel | internal/workflow/batch.go:147-150 | Over every run all receipts fit the batch if and only if no action cancelled it after it had completed cleanly. |
| LateCancellation.LateCancellationRefusesRecovery | internal/workflow/batch.go:147-150 | A run with every statement acknowledged cancels a batch after its only member completed it, and the member's recovered delivery is refused. |
| BatchFacts.FactsPublishedExactly | internal/workflow/batch.go:358-507 | Over every run, a generation has published a fact of a member if and only if its settlement was applied and acknowledged while it owned its row and it owned the receipt and deferred the fact, or had met the receipt with its row's lineage still the owner and recovery rebuilds the fact. |
| BatchFacts.RecoveryRebuildsSuccesses | internal/workflow/batch.go:386-415 | In reachable states the heir of a receipt rebuilds exactly what the owner deferred if and only if the member succeeded; for a failed member exactly its progress is missing. |
| LostBatchFacts.FailedMemberLosesProgress | internal/workflow/batch.go:397-415 | A run with every statement acknowledged settles a failed member whose progress is never published. |
| MemoryStores.MemoryStore.constructor | internal/workflow/store_memory.go:11-18 | The empty store is consistent. |
| MemoryStores.MemoryStore.DeleteReceipts | internal/workflow/store_memory.go:407-413 | The loop removes exactly the receipts of one workflow. |
| MemoryStores.MemoryStore.CreateChain | internal/workflow/store_memory.go:51-72 | Stores a blank chain and forgets the identifier's old receipts, or rejects the record unchanged. |
| MemoryStores.MemoryStore.Advance | internal/workflow/store_memory.go:82-128 | Chain and receipts move exactly by the advance transition. |
| MemoryStores.MemoryStore.FailNode | internal/workflow/store_memory.go:139-171 | Chain and receipts move exactly by the failure transition. |
| MemoryStores.MemoryStore.Fail | internal/workflow/store_memory.go:174-189 | Fails a live chain and leaves a terminal one alone. |
| MemoryStores.MemoryStore.DiscardChain | internal/workflow/store_memory.go:206-211 | Removes one chain with its receipts, and nothing else. |
| MemoryStores.MemoryStore.CreateBatch | internal/workflow/store_memory.go:214-242 | Stores a blank batch and forgets the identifier's old receipts, or rejects the record unchanged. |
| MemoryStores.MemoryStore.Count | internal/workflow/store_memory.go:312-324 | The counter updates of a first settlement, in order, give the settled counters and flags. |
| MemoryStores.MemoryStore.SettleMember | internal/workflow/store_memory.go:283-328 | Counters, status and receipt of one batch move exactly by the settlement transition; every other batch is untouched. |
| MemoryStores.MemoryStore.StartMember | internal/workflow/store_memory.go:245-260 | Marks a member started without touching counters. |
| MemoryStores.MemoryStore.CancelBatch | internal/workflow/store_memory.go:416-427 | Marks a batch cancelled and completed. |
| MemoryStores.MemoryStore.DiscardBatch | internal/workflow/store_memory.go:442-447 | Removes one batch with its receipts, and nothing else. |
| MemoryStores.MemoryStore.ChainReceipt | internal/workflow/store_memory.go:363-381 | In a consistent store a stored chain's receipt lookup never reports foreign or unsupported provenance. |
| MemoryStores.MemoryStore.BatchReceipt | internal/workflow/store_memory.go:385-403 | The same for a stored batch. |
| MemoryStores.MemoryStore.MarkCallbackInvoked | internal/workflow/store_memory.go:450-458 | Claims a callback key exactly when it is unclaimed. |
| MemoryStores.MemoryStore.Prune | internal/workflow/store_memory.go:461-483 | Removes exactly the expired terminal workflows with their receipts and the expired callback markers. |
| Callbacks.CallbackKeysDistinct | internal/workflow/batch.go:530-603 | Keys of different callbacks or workflows are never equal. |
| Callbacks.InvokeCallback | internal/workflow/batch.go:530-624 | A callback runs only when the workflow's state makes its kind ready, and after the claim of its key was stored. |
| Callbacks.RunsAtMostOnce | internal/workflow/store_memory.go:450-458 | While claims are retained, a callback of a workflow runs at most once over any sequence of deliveries and prunes, and only if some delivery found it ready. |
| Callbacks.CatchExcludesCompletion | internal/workflow/chain.go:633-656 | A chain that was ever ready for Catch never completes, and a completed chain never becomes ready for Catch. |
| Callbacks.ThenMeansEverythingSettled | internal/workflow/batch.go:530-603 | Then is ready only when every member settled and no disallowed failure occurred; Finally exactly when nothing is pending or the batch was cancelled. |
| ClaimStores.ExpiryQueue.Swap | internal/uniqueness/memory.go:41-45 | Exchanges two slots and keeps every back-pointer. |
| ClaimStores.ExpiryQueue.Push | internal/uniqueness/memory.go:48-52 | Adds one entry and keeps heap order and back-pointers. |
| ClaimStores.ExpiryQueue.Pop | internal/uniqueness/memory.go:55-63 | Removes the root and nothing else, keeping heap order and back-pointers. |
| ClaimStores.ExpiryQueue.RemoveAt | internal/uniqueness/memory.go:98-101 | Removes the entry at a slot and nothing else, keeping heap order and back-pointers. |
| ClaimStores.RootIsEarliest | internal/uniqueness/memory.go:38-38 | The head of the heap expires no later than any other claim. |
| ClaimStores.ClaimStore.PruneExpired | internal/uniqueness/memory.go:105-112 | Reclaims exactly the expired claims. |
| ClaimStores.ClaimStore.Acquire | internal/uniqueness/memory.go:66-89 | Acquisition is acquisition in the plain map, with map and heap in one-to-one correspondence. |
| ClaimStores.ClaimStore.Release | internal/uniqueness/memory.go:92-102 | Release is release in the plain map: only the owning token removes a claim. |
| ClaimStores.ClaimHoldsUntilEnded | internal/uniqueness/memory.go:66-112 | A key is not granted again until its owner releases it or some acquisition used a clock reading at or past its expiry. |
| ClaimStores.NextTokenCounts | internal/uniqueness/memory.go:81-84 | The wrapping counter that skips zero gives the n-th grant the n-th token of its cycle. |
| ClaimStores.StaleTokenIsHarmless | internal/uniqueness/memory.go:92-102 | A token released after any operations with fewer than 2^64 - 1 grants among them cannot remove a newer claim of its key. |
| ClaimStores.StaleTokenAfterCycle | internal/uniqueness/memory.go:81-102 | A stale token removes a newer claim exactly when a whole number of counter cycles lies between the grants. |
| WorkerPool.LocalQueue.Reserve | queue_local.go:386-406 | Admission refuses outsiders during shutdown, opens the channel on first use and counts the reservation. |
| WorkerPool.LocalQueue.FinishQueuedWork | queue_local.go:454-462 | Releases one reservation and closes the idle channel with the last. |
| WorkerPool.LocalQueue.CloseIfIdle | queue_local.go:465-487 | Closes the job channel exactly when nothing is outstanding. |
| WorkerPool.ReservationsAreJobs | queue_local.go:340-462 | After every run the reservations are exactly the jobs between admission and completion, and the idle channel exists exactly while there are any. |
| WorkerPool.NoSendOnClosedChannel | queue_local.go:340-371 | Whenever any job may still be sent, the channel is open. |
| WorkerPool.IdleIsStable | queue_local.go:386-487 | Idle during shutdown stays idle: no permit is left to admit a job. |
| WorkerPool.DrainedMeansEverythingRan | queue_local.go:158-181 | When a drain returns nil, with or without a channel to close, every accepted job has run, and none is accepted later. |
| WorkerPool.ShutMeansDrained | queue_local.go:465-487 | A closed channel is always the result of such a drain. |
| WorkerPool.AcceptedJobsAreNotCancelled | queue_local.go:278-294 | Only a job whose acceptance was never reported can be withdrawn; a delayed job cannot. |
| RuntimeShutdown.OperationState.Acquire | queue.go:258-263 | The first lease opens a new idle generation. |
| RuntimeShutdown.OperationState.Release | queue.go:266-275 | The last lease closes it. |
| RuntimeShutdown.InnerShutdownIsExclusive | queue.go:878-999 | Backend resources are closed only with no active lease and no live permit; the idle channel exists exactly while leases are active. |
| RuntimeShutdown.NoLeaseAfterClosing | queue.go:632-673 | Once closing began no lease is ever granted again, even when it fails and is retried. |
| RuntimeShutdown.GateNeverReopens | queue.go:632-664 | From the first shutdown call on, callers without a permit are always refused. |
| RuntimeShutdown.RecursionIsShallow | queue.go:878-891 | In every run, of any number of concurrent calls, no shutdown call is more than one call deep, and one that was made again finds no start in progress. |
| Permits.Issue | busruntime/runtime.go:78-92 | A handler context carries one fresh live permit beyond those it was derived from. |
| Permits.Owns | busruntime/runtime.go:95-105 | The scan reports exactly whether a live permit of the scope is carried. |
| Permits.Merge | busruntime/runtime.go:111-155 | The nested scan carries over exactly the permits of both contexts, by identity. |
| Permits.MergingGrantsNothing | busruntime/runtime.go:107-155 | In every state of the permits a merged context may continue exactly when one of its parts may. |
| DeliverySettlements.DeliverySettlement.DeferCommit | busruntime/delivery_settlement.go:153-162 | Queues a fact before the commit and publishes it directly after. |
| DeliverySettlements.DeliverySettlement.Commit | busruntime/delivery_settlement.go:133-150 | Publishes the deferred facts in order, once. |
| DeliverySettlements.FactsArePublishedOnce | busruntime/delivery_settlement.go:133-162 | Over every interleaving nothing is published before a commit, and afterwards each fact exactly as often as it was deferred. |
| SqlUniqueness.LockTable.AcquireKey | driver/sqlqueuecore/queue_database_impl.go:1343-1362 | A key is taken exactly when it is absent or expired. |
| SqlUniqueness.LockTable.AcquireAll | driver/sqlqueuecore/queue_database_impl.go:1322-1328 | The transaction succeeds exactly when every key is free, and then claims them all. |
| SqlUniqueness.LockTable.DispatchUnique | driver/sqlqueuecore/queue_database_impl.go:432-452 | A refused or rolled back dispatch leaves all locks unchanged. |
| SqlUniqueness.PruningIsInvisible | driver/sqlqueuecore/queue_database_impl.go:1381-1387 | Pruning frees no live claim and never changes a reply. |
| SqlUniqueness.LegacyOnlyRejectsMore | driver/sqlqueuecore/queue_database_impl.go:1306-1340 | Over every run with a monotone clock the dispatches admitted under both keys are all admitted, in order, by the canonical key alone. |
| SqlUniqueness.ClaimHoldsUntilExpiryIsRead | driver/sqlqueuecore/queue_database_impl.go:1306-1362 | Between two accepted dispatches of one canonical key some dispatch, possibly the second, read a clock at or past the first one's expiry, whatever the order of clock readings. |
| SqlUniqueness.AcceptedDispatchesAreSeparated | driver/sqlqueuecore/queue_database_impl.go:1306-1362 | Under a monotone database clock two accepted dispatches of one canonical key are at least the first one's time to live apart. |
| StatsCollector.CollectorQueue.Open | observability.go:596-618 | Opens an execution under its strongest correlation, once for a physical identity. |
| StatsCollector.CollectorQueue.Close | observability.go:622-667 | Closes a matching execution only. |
| StatsCollector.CollectorQueue.Observe | observability.go:710-794 | One event moves gauge, counters and lists as specified. |
| StatsCollector.ActiveCountsOpenExecutions | observability.go:596-676 | Over every event sequence Active equals the open physical identities plus the keyed and the uncorrelated opens, and is never negative. |
| StatsCollector.PruneBefore | observability.go:866-877 | Drops exactly the leading entries before the cutoff. |
| StatsCollector.CountSince | observability.go:879-887 | Counts the entries at or after the cutoff. |
| StatsCollector.WindowExactIff | observability.go:860-887 | For every event sequence in any order of times the pruned list is a suffix of the full history, and a window over it is exact if and only if no dropped entry lies inside the window. |
| StatsCollector.OrderedWindowExactIff | observability.go:833-887 | With event times in order, a window is exact if and only if no event of its kind lies at or after the window's start and more than a week before the last event. |
| StatsCollector.SnapshotCountsFullHistory | observability.go:833-864 | Whatever the order of event times, a window is exact when no event is observed more than a week after its start. |
| StatsCollector.EarlySnapshotLosesHistory | observability.go:860-877 | A concrete inexact window: a success pruned by an event a week and a second later is missing from the window that starts at its time. |
| Identity.FramingRoundTrip | job_identity.go:42-47 | Reading a framed stream returns the parts. |
| Identity.FramingInjective | internal/workflow/runtime.go:645-658 | Two part lists share a framed stream exactly when they are equal. |
| Identity.WriteFramed | internal/workflow/runtime.go:601-620 | The hashing loop writes exactly the framed stream. |
| Identity.UniqueKeyIdentity | job_identity.go:16-39 | Unique keys are equal exactly when queue and type are equal and the payloads are equal or both absent, empty or null. |
| Identity.FingerprintIdentity | internal/workflow/runtime.go:601-620 | Receipt fingerprints are equal exactly when every job field is. |
| Identity.FactIdIdentity | internal/workflow/runtime.go:645-658 | Fact identifiers are equal exactly when kind and all identity parts are. |

## Left out

- ChainProgress.NoLostContinuation: the creator of a chain does not vanish between storing the chain and learning the fate of its first delivery; a chain in that state counts as carried.
- RuntimeShutdown.InnerShutdownIsExclusive: assumes that a worker drain returns nil only when no permit of that worker is live, the promise of every backend's DrainWorkers.
- ChainTheorems.DefensiveErrorsUnreachable: speaks of stored chains; a chain pruned while old deliveries remain is answered with a same-attempt redelivery.
- BatchTheorems.StepKeepsInv: covers one batch; batches do not share state. The dispatcher is not a participant: members are offered and the batch is cancelled by actions of their own, at any time.
- MemoryStores.MemoryStore.CancelBatch: keeps counters and receipts truthful; whether terminal ownership still agrees after a late cancellation is settled by BatchStore.ShapesAgreeIffNoLateCancel.
- JobTables.JobTable.Finalize: one finalization runs without other statements in between; the interleavings are those of the SqlRows and engine runs.
- The chain and batch engines call the transition functions on values; MemoryStore proves that the object's methods compute them.
- Row selection order, the optimistic claim loop and SQL dialects: a claim takes any claimable row.
- Administrative retry, cancel, delete and clear: they rewrite attempts and tokens by hand.
- Redis, NATS, RabbitMQ and SQS drivers, and the SQL workflow store: their guarantees rest on foreign clients or on files outside this model.
- Custom stores that lack atomic outcomes, and the compatibility paths for them.
- Ephemeral callback closures, progress hooks, callback deliveries and the negative facts, whose identifiers are random.
- Waiting-time and run-time averages of the statistics collector, and queue history timelines.
- The synchronous local driver's reservation counter, which mirrors the worker pool's, and paused queues.
- Fairness: nothing is said about when a step happens, only about what every order of steps leads to.
- The write-only completed-node map of a stored chain.

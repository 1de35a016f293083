# A verified model of the bot's chain ingestion, concurrency and money-moving core

The bot follows a chain that can re-organise. It keeps a journal of the latest canonical
blocks, one checkpoint per listener, an event table keyed by log identity, and trades whose
transactions cost money when they are sent twice. This project models that core in Dafny and
proves what has to hold whatever the network answers, whatever call fails, and wherever the
process is cut off.

A block hash is modelled by the block itself: a `Block` contains its parent, so two equal hashes
have the same number and the same ancestry, which is what a collision-free hash gives. Everything
outside the process is a parameter: answers of RPC providers and of the database are functions
indexed by call, so a theorem about all of them covers every pattern of failures, stale answers
and answers from different forks. A database transaction is one atomic step. Code between two
awaits is one atomic step too, and each await may be the last thing that happens.

## The modules

- `Blocks`, `CursorOrder`: blocks and ancestry; the order of chain cursors, stable sorting, and
  why ordered lists are determined by their elements.
- `ChainStore`, `CanonicalScan`, `ChunkLoop`, `CanonicalPass`: the journal and checkpoint tables, and one
  pass of the coordinator: plan, scan, persist in batches, hand out chunks, move checkpoints, prune.
- `AncestorSearch`, `ReorgRepository`, `ChainRuns`, `ListenerTiling`: the search for the common ancestor, the
  rollback transaction, whole runs of fresh starts, passes and rewinds, and what the passes of one listener add up to.
- `HonestPasses`, `GapRun`, `RecurringTips`, `OverlappingPasses`: passes in which nothing fails, two runs built from them that show
  what the code does not give, and what two passes of one replay do to each other.
- `SwapBatch`, `BatchRefinement`, `BatchRequest`: one shared log scan for many pairs.
- `SwapEvents`, `BatchedPass`, `ListenerPass`: the event table, why re-organisations leave no trace in what is canonical, and when a
  pass, of the batch or of a pair on its own, finished or torn, a rollback or an admission is a piece of a run of that table.
- `LateBatch`, `SetBack`: a batch whose request waits while other passes and rollbacks come first: exactly when it leaves no event
  out, and a run in which it does.
- `TradeBooks`, `TradeExecution`, `TradeRecovery`: buying, selling and reconciling, one await at a time.
- `RecoveryBarrier`, `Orchestrator`, `MonitorScheduler`, `CoordinatorStatus`: the concurrency primitives.
- `AdaptiveLogs`, `PostEntryBuys`, `PositionExit`, `EntrySizing`, `HeaderSpool`: the adaptive reader, buy
  counting, exit rules, entry amounts and the temporary header file.

Classes have the fields of the source's objects; their methods are proved equal to a specification function on the
state, and the theorems over whole runs are lemmas about that function.

## What is proved

**The chain invariant over every run.** After a fresh start, any sequence of passes (each of which may stop at
any call), rewinds and forgotten checkpoints keeps the journal on the ancestry of its tip, at or above
the cutoff, and every checkpoint at or below the tip with the hash the tip's own ancestry has there. Pruning never removes
a block at or above the oldest checkpoint or inside the retention window. The journal has no gaps either, as long
as no multi-batch persist is torn.

**Chunk tiling.** Over any run of passes without a re-organisation, passes of other listeners in between, the chunks
one listener acknowledges follow on from one another above the cutoff, and two of them overlap if and only if the checkpoint of
the first could not be written.

**Batch refinement.** Over a whole multi-chunk pass with truthful providers each pair receives exactly its own logs,
once each and in cursor order, from its starting block (or just above the cutoff) to the end of the last completed chunk; the
checkpoints concerned stand there together and no other has moved.

**Re-organisation transparency.** Two runs that end on the same chain, and in which a pair is watched from the same block and has caught up, end with
the same checkpoint and the same canonical events of that pair, however many forks one of them ingested, rewound and
replayed. That no event is missing up to a checkpoint is derived from the handling of each chunk. Such a run is made of
pieces: a pass of a pair's own listener, a pass that never got past the journal, a pass of others, a rollback and the pairs it
stops, an admission, and a batched pass from its set-up to its last checkpoint, however long its request waited in between,
unless a re-organisation set one of its pairs back meanwhile and the replay did not make up for it. That condition is exact: where it fails, some ledger makes the pass leave an event out.

**At-most-once sending and conservation.** Over every sequence of live and recovery work, cut off anywhere:
a transaction's row is stored before the network sees it, each step of each trade is sent at most once, a
session buys at most once, recovery sends something new only when there is no transaction or a successful approval,
and the realised result of a closed position equals the change of the wallet over its trades' transactions. When nothing
fails outside, every purchase, sale and reconciliation ends as its receipt and its balances say.

**Concurrency.** The recovery barrier gives a waiting recovery its turn after exactly the number of departures that were ahead of it.
The orchestrator answers a waiter once, by the running pass if that covered its pair and otherwise by the next to begin; a request is followed
by a pass exactly when it finds one running, one on its way, or an open guard with nothing in the way. The scheduler
never exceeds its capacity, settles within two quiet passes, and needs at most one pass more than it monitors observations when starts
may be refused. The coordinator becomes healthy again only by completing the current re-organisation, and a manual review can be left exactly
while a pass under way may still find a divergence.

**Exact conditions.** When the adaptive log reader terminates, when a persist can leave a gap, when a trailing stop fires, what entry amount is the largest
admissible one.

## Where the code does less than one might expect

These are results of the model, each with a lemma:

- A persist of several batches that is cut off can leave a gap in the journal, because the journal may have to
  start below its lowest stored row when a listener's checkpoint is older. `ListenerTiling.EveryInterruption` says exactly when it
  cannot, and `GapRun.GapOpens` is a run of three passes after a fresh start in which it does.
- A rollback is keyed by the hashes of the old and the new tip. When the same two tips meet again, nothing is rolled
  back: the recorded impact is returned, or, if any event was counted as replayed since, the rollback fails, because the
  saved impact still counts none (exactly when: `ReorgRepository.ChainDatabase.RewindToAncestor`; a run in which it
  happens: `RecurringTips.TipsMeetAgain`).
- The set-up of a batch reads the checkpoints before its request waits for its turn. If a pass ahead rolls back one of its pairs and
  the replay leaves the pair below where the set-up found it, the batch skips what lies in between and moves the checkpoint past
  it (exactly when: `LateBatch.NothingLeftOutIff`; a run from a fresh start in which it happens: `SetBack.EventLeftOut`; that the
  request waits through the whole replay: `CoordinatorStatus.QueuedThroughReplay`).
- Requests made during a replay run at once. Two such passes that read different forks leave a journal on neither, or a checkpoint
  off the chain (exactly when: `OverlappingPasses.StillRootedIff`, `OverlappingPasses.StillConsistentIff`; an instance:
  `OverlappingPasses.TwoForks`).
- An event can be accepted without having been processed: when its row is still marked as being processed since less
  than a minute (exactly when: `SwapEvents.AcceptedIsProcessed`; a run in which a checkpoint then moves past it:
  `SwapEvents.PassedUnprocessed`).
- A purchase whose result cannot be stored on the session ends as a rejected session, not as a manual review
  (exactly when: `TradeRecovery.Desk.BuyNow`; a purchase that is paid for and ends so: `TradeRecovery.LostPurchase`).
- The adaptive log reader starts over after each refusal and grows its range back, so it can go round for ever
  (`AdaptiveLogs.LoopsForever`; exactly when not: `AdaptiveLogs.TerminatesIff`).
- A waiter is told that a pass succeeded which had begun before it came (`Orchestrator.AnsweredByRunningPass`), and even
  that a pass succeeded which did not run over its pair (`Orchestrator.ResolvedUncovered`; exactly when: `Orchestrator.WhoAnswered`). A request made
  between the end of a pass and the clearing of its promise, or while the guard is closed and nothing runs or is on its way, is followed
  by no pass (exactly when one follows: `Orchestrator.FollowedIff`; a run from the start that loses one: `Orchestrator.LostWakeup`).
- Two scheduling passes are not enough once a start is refused (`MonitorScheduler.ThirdPass`; exactly when a pass asks for
  another one: `MonitorScheduler.AsksAgainIff`).
- A manual review is overwritten when a second pass of the same replay, already past the guard, detects a divergence
  (a run from the start: `CoordinatorStatus.ManualReviewOverwritten`; exactly from which states: `CoordinatorStatus.ManualReviewLeft`). A
  re-organisation whose handler throws although an ancestor was found stays in progress until a manual review is required
  (exactly which ones can still be recovered from: `CoordinatorStatus.RecoverableIff`; a run from the start into one that cannot:
  `CoordinatorStatus.StuckReached`).
- A session that waits for its first buy keeps none of its observed buys after a rollback (exactly when
  one that is still canonical is lost: `PostEntryBuys.ObservationsKeptIff`; for instance `PostEntryBuys.OneObservationLost`).
- The cutoff anchor ignores that checkpoints are not to be persisted, but no stored checkpoint ever needs it (`ListenerTiling.StoredCheckpointResumes`).

## Model

| member | source | states |
|---|---|---|
| `ChainStore.CanonicalStore.FreshStart` | src/runtime/fresh-start.repository.ts:90-242 | refused exactly when the cutoff would move back or onto another fork; otherwise the whole new state, which is consistent and without gaps |
| `ChainStore.CanonicalStore.GetCanonicalTip` | src/chain/canonical-chain.repository.ts:356-364 | the row with the greatest block number |
| `ChainStore.CanonicalStore.ListCanonicalDescending` | src/chain/canonical-chain.repository.ts:366-374 | the highest rows, tip first, at most `limit` of them |
| `ChainStore.CanonicalStore.SaveCanonicalBlocks` | src/chain/canonical-chain.repository.ts:376-397 | an upsert of the given blocks, later ones winning |
| `ChainStore.CanonicalStore.GetOldestBlockNumber` | src/storage/repositories.ts:553-587 | the least checkpoint, none exactly when there is none |
| `ChainStore.CanonicalStore.SetManyAtomically` | src/storage/repositories.ts:608-646 | all the keys move to the checkpoint together, no other moves |
| `ChainStore.RewindConsistent` | src/chain/canonical-chain.repository.ts:736-745 | rewinding to a stored ancestor leaves a consistent state whose tip is that ancestor |
| `CanonicalScan.CoherentIsOneChain` | src/chain/canonical-chain.coordinator.ts:1382-1414 | answers that pass the checks one by one are all ancestors of the header read at the head |
| `CanonicalScan.ScanHeaders` | src/chain/canonical-chain.coordinator.ts:1382-1423 | succeeds exactly when every answer passes every check; the spools then hold exactly their ranges |
| `CanonicalScan.PrepareCanonicalScan` | src/chain/canonical-chain.coordinator.ts:1331-1423 | the scan for a plan: where it starts, exactly when it fails, what it prepares |
| `CanonicalScan.ScanExtends` | src/chain/canonical-chain.coordinator.ts:1340-1414 | what was scanned is one chain through the stored tip, up to the head |
| `CanonicalScan.HasContinuousCachedJournal` | src/chain/canonical-chain.coordinator.ts:1426-1441 | whether every cached row from the start to the head is there and linked; an error exactly when an unlinked pair comes before the first missing height |
| `CanonicalScan.PersistJournal` | src/chain/canonical-chain.coordinator.ts:1458-1475 | the journal after however many batches were saved |
| `ChunkLoop.ProcessChunks` | src/chain/canonical-chain.coordinator.ts:1022-1061 | acknowledged chunks tile the range from its start with linked headers, checkpoints are those the chunks leave, a pass that is not stopped reaches the head |
| `ChunkLoop.TilesAscend` | src/chain/canonical-chain.coordinator.ts:1031-1046 | later chunks lie strictly above earlier ones |
| `ChunkLoop.AfterChunksAnchored` | src/chain/canonical-chain.coordinator.ts:1047-1060 | checkpoints written for chunks carry the hash the chain has at their height |
| `CanonicalPass.MakePlan` | src/chain/canonical-chain.coordinator.ts:863-985 | exactly when a pass is skipped, fails, or diverges from the stored tip before any header is read; otherwise a plan that fits the stored state |
| `CanonicalPass.PersistConsistent` | src/chain/canonical-chain.coordinator.ts:1458-1475 | however many batches were saved, the state is consistent and the tip only extended |
| `CanonicalPass.InterruptedPersist` | src/chain/canonical-chain.coordinator.ts:1458-1475 | an interrupted persist leaves a gap if and only if it saved something below the lowest row without reaching it |
| `CanonicalPass.PruneOld` | src/chain/canonical-chain.coordinator.ts:1073-1085 | pruning removes nothing at or above the oldest checkpoint nor inside the retention window, and keeps the tip |
| `CanonicalPass.Execute` | src/chain/canonical-chain.coordinator.ts:826-1090 | one pass, wherever it stops, and for every early end its cause: consistency kept, tip only extended, exactly the checkpoints the acknowledged chunks leave, window stored, rows kept |
| `AncestorSearch.ValidateDescendingWindow` | src/chain/canonical-chain.coordinator.ts:1282-1329 | accepts exactly a bounded linked window that starts at the tip |
| `AncestorSearch.FindAncestor` | src/chain/canonical-chain.coordinator.ts:1092-1160 | the highest shared stored block, none exactly when no window block is shared; nothing read below the cutoff; every shallow result is admissible for the rollback |
| `AncestorSearch.SharedIsDownwardClosed` | src/chain/canonical-chain.coordinator.ts:1107-1140 | below a shared window block every window block is shared |
| `AncestorSearch.ContiguousWindow` | src/chain/canonical-chain.coordinator.ts:1282-1329 | the window of a journal without gaps always passes its validation |
| `ReorgRepository.ChainDatabase.RewindToAncestor` | src/chain/canonical-chain.repository.ts:564-764 | rolls everything back if and only if no rollback is recorded for this pair of tips; otherwise changes nothing, and fails exactly when the recorded one has another depth or events were replayed since; the whole new state |
| `ReorgRepository.ChainDatabase.RewindTwice` | src/chain/canonical-chain.repository.ts:564-620 | repeating a rollback before it is completed returns the same impact and leaves exactly what one rollback leaves |
| `ReorgRepository.ChainDatabase.CompleteReorg` | src/chain/canonical-chain.repository.ts:782-813 | only an audit in progress becomes recovered; its row counts the replayed events, its saved impact does not |
| `ReorgRepository.ChainDatabase.RecordDeepReorg` | src/chain/canonical-chain.repository.ts:766-780 | an audit without ancestor goes to manual review unless it was closed before |
| `RecurringTips.TipsMeetAgain` | src/chain/canonical-chain.repository.ts:576-590 | a run in which the same tips meet twice: the second rollback changes nothing, and fails if anything was replayed |
| `ChainRuns.Chain.Reconcile` | src/chain/canonical-chain.coordinator.ts:1092-1214 | a divergence ends in a failed search, a deep re-organisation or a rollback to the common ancestor, and keeps the invariant; with an honest reader and no gap the search succeeds; a rollback fails only if one recorded for these tips is outdated |
| `ChainRuns.Chain.Step` | src/chain/canonical-chain.coordinator.ts:826-1090 | what each operation leaves behind; a divergence is always reconciled, never reported as an ordinary end |
| `ChainRuns.Chain.Run` | src/chain/canonical-chain.coordinator.ts:826-1090 | the invariant over every run, contiguity unless a persist was torn |
| `OverlappingPasses.StillRootedIff` | src/chain/canonical-chain.repository.ts:376-397 | two passes of one replay that read on from the same stored tip and were saved one over the other leave the journal on one chain if and only if the second reached as high as the first or read the same chain |
| `OverlappingPasses.StillConsistentIff` | src/chain/canonical-chain.coordinator.ts:590-606 | with both checkpoints written the state is consistent if and only if one pass read the chain of the other |
| `OverlappingPasses.TwoForks` | src/chain/canonical-chain.coordinator.ts:590-606 | two planned passes after a fresh start whose saved headers lie on no common chain |
| `ListenerTiling.OwnCheckpoint` | src/chain/canonical-chain.coordinator.ts:1047-1061 | a listener's checkpoint is at the end of its last chunk whose write succeeded, or where it was |
| `ListenerTiling.TilingAcrossPasses` | src/chain/canonical-chain.coordinator.ts:953-1061 | over any run of passes, others in between, the chunks a listener acknowledges follow on from its checkpoint and from one another, above the cutoff, on one chain, none wider than allowed |
| `ListenerTiling.OverlapIff` | src/chain/canonical-chain.coordinator.ts:1047-1061 | consecutive acknowledged chunks overlap if and only if the checkpoint of the first could not be written |
| `ListenerTiling.CommittedTile` | src/chain/canonical-chain.coordinator.ts:953-1061 | the committed chunks tile the range from the first checkpoint to the last |
| `ListenerTiling.NeverPastTheHead` | src/chain/canonical-chain.coordinator.ts:1022-1046 | no chunk reaches past the head its pass had confirmed |
| `ListenerTiling.ExecuteAll` | src/chain/canonical-chain.coordinator.ts:826-1090 | executing passes one after the other is such a run |
| `ListenerTiling.EveryInterruption` | src/chain/canonical-chain.coordinator.ts:1458-1475 | a persist is gap-free at every interruption point if and only if it has one batch or its first batch reaches the lowest row |
| `GapRun.GapOpens` | src/chain/canonical-chain.coordinator.ts:985-1020 | three passes after a fresh start, with an honest reader, in which a batch that cannot be saved opens a gap |
| `HonestPasses.HonestPassFinishes` | src/chain/canonical-chain.coordinator.ts:826-1090 | with an honest reader and nothing failing a pass is finished and the stored tip is the confirmed head |
| `ListenerTiling.StoredCheckpointResumes` | src/chain/canonical-chain.coordinator.ts:890-962 | no stored checkpoint needs the cutoff anchor, and a listener resumes one block above its checkpoint |
| `SwapEvents.SwapEventRepository.Claim` | src/storage/repositories.ts:145-207 | when a row is inserted, revived or taken, and the whole table afterwards |
| `SwapEvents.SwapEventRepository.Handle` | src/strategy/session-engine.ts:68-142 | the table and the answer after one event, turned away before it is claimed or however its handling ends |
| `SwapEvents.SwapEventRepository.HandleAll` | src/monitoring/swap-log-batch-reconciler.ts:345-372 | a chunk's events one after the other, up to and including the first that is not accepted |
| `SwapEvents.AcceptedIsProcessed` | src/storage/repositories.ts:145-232 | an accepted event is processed, with one exact exception |
| `SwapEvents.PassedUnprocessed` | src/storage/repositories.ts:145-207 | a run in which an event is cut off, skipped as done within the minute, and passed by the checkpoint unprocessed |
| `SwapEvents.StepKeeps` | src/chain/canonical-chain.repository.ts:600-745 | every step keeps: canonical rows are events of the tip's ancestry, none missing up to a checkpoint; a chunk moves the checkpoints only once all its events were accepted |
| `SwapEvents.RunKeeps` | src/chain/canonical-chain.repository.ts:600-745 | the same over every run |
| `SwapEvents.PiecesMakeRun` | src/chain/canonical-chain.coordinator.ts:826-1090 | pieces that lead on from one another, passes and rollbacks, are one run |
| `SwapEvents.ReorgTransparency` | src/chain/canonical-chain.repository.ts:564-764 | two runs that end on the same chain with the pair watched from the same block and caught up end with the same checkpoint, at the tip, and the same canonical events |
| `SwapEvents.ViewIsChain` | src/storage/repositories.ts:145-207 | and these are exactly the pair's logs on that chain |
| `BatchedPass.RollBack` | src/chain/canonical-chain.repository.ts:564-764 | a rollback is exactly a rewinding step of the event table's run, in which the pairs it stops are no longer watched; a recorded one is none |
| `BatchedPass.AdmissionIsStep` | src/app.ts:426-440 | a pair is admitted from where its checkpoint stands, or from right below its first block |
| `BatchedPass.OtherPass` | src/chain/canonical-chain.coordinator.ts:826-1090 | a pass of other listeners only extends the chain |
| `BatchedPass.AttemptIsStep` | src/monitoring/swap-log-batch-reconciler.ts:261-389 | an attempt at a chunk is a step of that run, however far it gets, when no pair that it commits stands lower than it was listed for |
| `BatchedPass.DoneIsCommitted` | src/monitoring/swap-log-batch-reconciler.ts:345-389 | a chunk that the shared scan completes is one in which the table accepted every event |
| `BatchedPass.SetUpStands` | src/monitoring/swap-log-batch-reconciler.ts:203-250 | at the set-up each pair stands right below the first block that the shared scan has for it, whatever happens before the scan |
| `BatchedPass.BatchedPassIsRun` | src/monitoring/swap-log-batch-reconciler.ts:203-389 | a batched pass that got past the journal, from set-up to last checkpoint, is a run of the event table that ends where the pass leaves the chain and the checkpoints, however long the request waited after the set-up, if no pair that it commits was set back meanwhile |
| `LateBatch.NothingLeftOutIff` | src/monitoring/swap-log-batch-reconciler.ts:223-389 | whatever the ledger, the event table and the attempts, such a pass leaves no event out if and only if no pair that it commits stands lower where the pass begins than where the set-up found it |
| `SetBack.EventLeftOut` | src/monitoring/swap-log-batch-reconciler.ts:223-389 | a run from a fresh start through set-up, divergence, rollback and a stopped replay to the late pass, whose checkpoint moves past an event that was never handed out |
| `BatchedPass.UnwrittenPassIsRun` | src/chain/canonical-chain.coordinator.ts:1458-1475 | a pass of anybody that did not get past the journal, torn or not, hands out nothing and is at most one extension of the chain |
| `BatchedPass.BatchCatchesUp` | src/chain/canonical-chain.coordinator.ts:1022-1061 | after a finished pass that was not stopped every pair listed up to the head has caught up |
| `ListenerPass.ProcessChunk` | src/listeners/swap.listener.ts:412-565 | one chunk of a pair's own pass: when its logs are refused, the table afterwards, and that it commits exactly when every event was accepted with the session still to be monitored and its checkpoint was written |
| `ListenerPass.AttemptIsStep` | src/listeners/swap.listener.ts:458-565 | an attempt right above the pair's checkpoint is a step of the event table's run, however far it gets |
| `ListenerPass.ListenerPassIsRun` | src/listeners/swap.listener.ts:316-354 | a pass of the pair's own listener is a run of the event table that ends where the pass leaves the chain and the checkpoints, also when its last checkpoint could not be written |
| `ListenerPass.ListenerCatchesUp` | src/chain/canonical-chain.coordinator.ts:1022-1061 | after such a pass that was finished and not stopped the pair has caught up |
| `CursorOrder.SortStrict` | src/utils/cursor.ts:3-11 | elements with different cursors are sorted strictly |
| `CursorOrder.OrderedUnique` | src/utils/cursor.ts:3-11 | there is only one way to put a collection in order |
| `SwapBatch.IdentifyAll` | src/monitoring/swap-log-batch-reconciler.ts:86-153 | fails exactly when an element fails a check or an identity has two contents; otherwise the distinct logs |
| `SwapBatch.Partition` | src/monitoring/swap-log-batch-reconciler.ts:70-76 | groups of at most the given size that together are the list |
| `SwapBatch.ProcessChunk` | src/monitoring/swap-log-batch-reconciler.ts:261-389 | all the checkpoints concerned move after the whole stream was delivered and accepted, or none does; whatever stops the chunk is one of the named failures |
| `BatchRefinement.SingleScan` | src/listeners/swap.listener.ts:458-565 | what a pair's own scan delivers: its logs in cursor order |
| `BatchRefinement.ChunkRefines` | src/monitoring/swap-log-batch-reconciler.ts:261-389 | in each chunk a pair's share of the merged stream is what its own scan would deliver |
| `BatchRefinement.SmoothChunkIsDone` | src/monitoring/swap-log-batch-reconciler.ts:261-389 | every log a truthful provider returns passes the checks, so only a failure outside stops a chunk |
| `BatchRefinement.RunBatch` | src/monitoring/swap-log-batch-reconciler.ts:203-389 | over a whole pass each pair has received exactly its own logs up to the last completed chunk, in order, and the checkpoints stand there; every chunk completes when nothing fails |
| `BatchRequest.SelectAggregate` | src/monitoring/swap-log-batch-reconciler.ts:155-178 | conflict exactly when two pairs are anchored differently right below the first block; otherwise a checkpoint there, an anchored one if any |
| `BatchRequest.SetUp` | src/monitoring/swap-log-batch-reconciler.ts:203-259 | which pairs take part, the request made for all of them, and that a refusal comes only from duplicates or from disagreeing anchors |
| `BatchRequest.StartsWhereTheyStart` | src/monitoring/swap-log-batch-reconciler.ts:228-250 | the shared pass begins for each pair where a pass of its own would |
| `BatchRequest.NoConflict` | src/monitoring/swap-log-batch-reconciler.ts:155-178 | checkpoints of a consistent state never conflict |
| `TradeExecution.TradeExecutor.Submit` | src/execution/trade-executor.ts:622-764 | the books stay sound at every await: row stored first, at most one new transaction sent, success means a recorded receipt; when nothing fails outside it is sent and its receipt decides |
| `TradeExecution.TradeExecutor.Purchase` | src/execution/trade-executor.ts:92-302 | one purchase under a new trade; an entry states exactly what its transaction cost; when nothing fails outside it is sent and measured, or reported |
| `TradeExecution.TradeExecutor.Approval` | src/execution/trade-executor.ts:561-620 | one approval, at most one transaction, its gas as mined |
| `TradeExecution.TradeExecutor.Sale` | src/execution/trade-executor.ts:304-559 | one sale; a recovered trade gets no second approval; an exit states exactly what the sale and its approval changed; when every check passes it is sent |
| `TradeExecution.RowKeeps` | src/execution/trade-executor.ts:622-631 | storing a new transaction keeps the books sound |
| `TradeExecution.UpdateKeeps` | src/execution/trade-executor.ts:668-733 | updating one does too, as long as an approval that was built on stays confirmed |
| `TradeBooks.AtMostOnce` | src/execution/trade-executor.ts:417-435 | each step of each trade is sent at most once |
| `TradeBooks.OneBuyPerSession` | src/recovery/session-reconciler.ts:192-229 | however often buying is retried, a session buys at most once |
| `TradeBooks.Conservation` | src/execution/trade-accounting.ts:21-54 | proceeds minus principal minus recorded gas is the wallet's change over the trades' transactions |
| `TradeRecovery.Desk.BuyNow` | src/strategy/session-engine.ts:495-535 | the session after a live purchase, whatever fails; a successful one ends rejected if and only if its write is refused and the next one takes effect |
| `TradeRecovery.LostPurchase` | src/strategy/session-engine.ts:495-535 | a purchase that is mined and paid for and ends as a rejected session |
| `TradeRecovery.Desk.LiveBuy` | src/strategy/session-engine.ts:411-535 | only a session waiting for its first buy buys, at most once; when nothing fails it ends as a purchase or was turned down by a check, of the risk, of the amount or of the executor |
| `TradeRecovery.Desk.LiveSell` | src/strategy/session-engine.ts:717-789 | only an open position is sold; the session after it, whatever fails, and when nothing does |
| `TradeRecovery.Desk.Select` | src/recovery/session-reconciler.ts:162-190 | the awaited transaction, else the latest of the latest trade of the right side; it may be resumed; none selected for a purchase means nothing was ever bought |
| `TradeRecovery.Desk.ResumeIntent` | src/recovery/session-reconciler.ts:192-229 | an intent without a transaction is started again, or put to review when that is not allowed |
| `TradeRecovery.Desk.SettleReverted` | src/recovery/session-reconciler.ts:92-110 | a reverted transaction is recorded with its gas, and the session falls back |
| `TradeRecovery.Desk.SettleApproval` | src/recovery/session-reconciler.ts:407-444 | after a confirmed approval at most one new transaction is sent, and it is a sale; when every check passes it is sent and its receipt decides |
| `TradeRecovery.Desk.SettleTrade` | src/recovery/session-reconciler.ts:285-405 | a confirmed purchase or sale is measured or left for review, nothing is sent; it is measured whenever its balances can be read and make sense |
| `TradeRecovery.Desk.Reconcile` | src/recovery/session-reconciler.ts:39-160 | which transaction is looked at, what may change for each observation, when something may be sent, and how each case ends when nothing fails |
| `TradeRecovery.Desk.Run` | src/recovery/recovery-coordinator.ts:207-266 | the books stay sound over any sequence of live and recovery work cut off anywhere |
| `RecoveryBarrier.RuntimeRecoveryBarrier.AcquireListener` | src/recovery/runtime-recovery-barrier.ts:14-45 | granted at once inside a running listener; otherwise the next state and whether it was granted |
| `RecoveryBarrier.RuntimeRecoveryBarrier.ReleaseRecovery` | src/recovery/runtime-recovery-barrier.ts:62-71 | hands over to the next recovery, else to all waiting listeners |
| `RecoveryBarrier.StepKeeps` | src/recovery/runtime-recovery-barrier.ts:14-79 | a recovery is alone, an idle barrier has nobody waiting, a listener waits only behind a recovery |
| `RecoveryBarrier.Turn` | src/recovery/runtime-recovery-barrier.ts:38-79 | until as many holders have left as were ahead of it a recovery waits, and no listener gets in |
| `RecoveryBarrier.TurnComes` | src/recovery/runtime-recovery-barrier.ts:38-79 | with the last of them it holds the barrier |
| `RecoveryBarrier.FirstComeFirstServed` | src/recovery/runtime-recovery-barrier.ts:53-79 | those let in meanwhile are the first of those queued before it, in order |
| `Orchestrator.StepKeeps` | src/monitoring/swap-reconcile-orchestrator.ts:79-282 | a waiter's pair is requested or taken up by the running pass, and nobody is answered early |
| `Orchestrator.RunKeeps` | src/monitoring/swap-reconcile-orchestrator.ts:79-282 | over every run a waiter is answered by the running pass if that had taken its pair up, otherwise by the next |
| `Orchestrator.WhoAnswered` | src/monitoring/swap-reconcile-orchestrator.ts:203-246 | which pass answered, and that it ran over the pair exactly when the pair was registered as it began |
| `Orchestrator.ResolvedUncovered` | src/monitoring/swap-reconcile-orchestrator.ts:234-246 | a run in which a waiter is told of the success of a pass that never ran over its pair |
| `Orchestrator.AnsweredOnce` | src/monitoring/swap-reconcile-orchestrator.ts:266-282 | an answer never changes and its waiter never waits again |
| `Orchestrator.OnePassAtATime` | src/monitoring/swap-reconcile-orchestrator.ts:143-201 | a pass begins only when none is running or as the running one ends |
| `Orchestrator.RequestsLeaveBySnapshot` | src/monitoring/swap-reconcile-orchestrator.ts:203-208 | a requested pair leaves only into a snapshot or by stopping |
| `Orchestrator.AwakeIff` | src/monitoring/swap-reconcile-orchestrator.ts:79-201 | event by event, exactly when nothing asked for starts being forgotten |
| `Orchestrator.NoLostWakeup` | src/monitoring/swap-reconcile-orchestrator.ts:127-201 | over every run of such events a pass that takes up everything requested is about to begin |
| `Orchestrator.FollowedIff` | src/monitoring/swap-reconcile-orchestrator.ts:127-161 | a request is followed by a pass that takes it up if and only if a pass is running, or nothing is and a start is scheduled or let through by the guard |
| `Orchestrator.LostWakeup` | src/monitoring/swap-reconcile-orchestrator.ts:143-161 | a run from the start in which a request in the gap leaves the orchestrator idle, with nothing scheduled and the pair still requested |
| `Orchestrator.AnsweredByRunningPass` | src/monitoring/swap-reconcile-orchestrator.ts:234-246 | a waiter is answered by a pass that began before it came |
| `MonitorScheduler.MonitorScheduler.Classify` | src/monitoring/monitor-scheduler.ts:122-190 | exactly which sessions are eligible, which monitors keep running, and when another pass is asked for |
| `MonitorScheduler.MonitorScheduler.RunUntilStable` | src/monitoring/monitor-scheduler.ts:103-114 | when nothing changes outside, at most one pass more than observations were monitored, even if starts are refused; at most two if none is; within the capacity |
| `MonitorScheduler.CapacityHolds` | src/monitoring/monitor-scheduler.ts:192-275 | monitors running plus slots reserved never exceed the capacity, at any step |
| `MonitorScheduler.HoldingNeverPreempted` | src/monitoring/monitor-scheduler.ts:214-232 | an open position that is monitored stays monitored |
| `MonitorScheduler.HoldingWaitsOnlyForHolding` | src/monitoring/monitor-scheduler.ts:214-222 | when an open position waits for capacity no observation is being monitored |
| `MonitorScheduler.LowestFacts` | src/monitoring/monitor-scheduler.ts:317-329 | the observation given up is the active one of lowest priority |
| `MonitorScheduler.PassSettles` | src/monitoring/monitor-scheduler.ts:116-305 | after a quiet pass there is a slot for every open position or nothing left to give up |
| `MonitorScheduler.SettledPassIsLast` | src/monitoring/monitor-scheduler.ts:116-305 | a quiet pass over such a state asks for no further one |
| `MonitorScheduler.AsksAgainIff` | src/monitoring/monitor-scheduler.ts:202-275 | exactly when an undisturbed pass asks for another one: an open position that can be started finds every slot taken while an observation is monitored; it then ends with fewer observations |
| `MonitorScheduler.ThirdPass` | src/monitoring/monitor-scheduler.ts:251-253 | two passes are not enough once a start is refused |
| `CoordinatorStatus.StepKeeps` | src/chain/canonical-chain.coordinator.ts:576-773 | state and last re-organisation agree, counters are exact, nothing runs beside the pass in service except during a replay |
| `CoordinatorStatus.CanonicalChainCoordinator.CancelQueuedRequest` | src/chain/canonical-chain.coordinator.ts:607-640 | an abort affects only a request that has neither started nor been cancelled, as its three flags tell; its place is given up at most once |
| `CoordinatorStatus.ReleasedOnce` | src/chain/canonical-chain.coordinator.ts:607-670 | over any run the place of a settled request is given up exactly once |
| `CoordinatorStatus.HealthyOnlyByCompletion` | src/chain/canonical-chain.coordinator.ts:1229-1276 | health is regained only by completing the re-organisation in progress |
| `CoordinatorStatus.ManualReviewLeft` | src/chain/canonical-chain.coordinator.ts:826-850 | a manual review can still be left if and only if a pass under way got past the guard and has not finished with a divergence of its own |
| `CoordinatorStatus.ManualReviewStays` | src/chain/canonical-chain.coordinator.ts:1164-1213 | one pass at a time never brings such a state about |
| `CoordinatorStatus.ManualReviewOverwritten` | src/chain/canonical-chain.coordinator.ts:1164-1213 | a run from the start in which it is left |
| `CoordinatorStatus.RecoverableIff` | src/chain/canonical-chain.coordinator.ts:1164-1276 | a re-organisation in progress can become healthy, or at least ready, without a manual review if and only if it is ready, or its replay or promotion is under way, or the pass in service may still find a divergence or return from its handler; a manual review leads out of the rest |
| `CoordinatorStatus.StuckReached` | src/chain/canonical-chain.coordinator.ts:1164-1213 | a run from the start into one that cannot: the handler of the first divergence throws |
| `CoordinatorStatus.QueuedThroughReplay` | src/chain/canonical-chain.coordinator.ts:642-692 | a run from the start in which a queued request waits through rollback, replay and promotion and then gets past the guard |
| `CoordinatorStatus.CanonicalChainCoordinator.EndReplay` | src/chain/canonical-chain.coordinator.ts:775-824 | once its passes have left a replay fails exactly when one of them or the handler has thrown |
| `CoordinatorStatus.CanonicalChainCoordinator.PromoteRecoveredReorg` | src/chain/canonical-chain.coordinator.ts:1229-1276 | accepts exactly the completion of the re-organisation in progress |
| `AdaptiveLogs.LogProvider.RecordSuccessfulLogRead` | src/rpc/clients.ts:265-279 | the range grows by one after three successes, never above the configured one |
| `AdaptiveLogs.LogProvider.Read` | src/rpc/clients.ts:826-860 | a result is what adjacent reads covering exactly the range returned, and it is complete exactly when the counting model ends |
| `AdaptiveLogs.NothingLostOrRepeated` | src/rpc/clients.ts:832-858 | a result holds every log of the range once and in order |
| `AdaptiveLogs.EndsIff` | src/rpc/clients.ts:258-279 | exactly when a read ends, from an accepted range |
| `AdaptiveLogs.EndsIffFromAbove` | src/rpc/clients.ts:258-279 | exactly when a read ends, from a refused range |
| `AdaptiveLogs.TerminatesIff` | src/rpc/clients.ts:826-860 | exactly when a read ends: the provider accepts the configured range, or the blocks fit into one cycle and the limit, or into the first climb and the limit |
| `AdaptiveLogs.LoopsForever` | src/rpc/clients.ts:832-858 | beyond one cycle and the limit no number of requests suffices |
| `PostEntryBuys.TokenSession.OnEvent` | src/strategy/session-engine.ts:538-556 | the engine's list after one more event |
| `PostEntryBuys.TokenSession.RebuildPostEntryBuys` | src/chain/reorg-session-reconciler.ts:69-100 | the list recounted from events in any order |
| `PostEntryBuys.CountedMeaning` | src/strategy/session-engine.ts:543-552 | the list holds each hash with a qualifying event once |
| `PostEntryBuys.RecountIsCount` | src/chain/reorg-session-reconciler.ts:69-100 | a recount over any permutation is what was counted event by event |
| `PostEntryBuys.RewindAndReplay` | src/chain/reorg-session-reconciler.ts:160-190 | a recount over the survivors restores the list before the first orphan, and replaying a fork gives what that fork alone would |
| `PostEntryBuys.TokenSession.RestoreObservations` | src/chain/reorg-session-reconciler.ts:48-67 | an observation survives a rollback exactly when its event is still canonical and the session is past its first buy |
| `PostEntryBuys.ObservationsKeptIff` | src/chain/reorg-session-reconciler.ts:48-67 | exactly when a rollback loses no observation that is still canonical |
| `PostEntryBuys.OneObservationLost` | src/chain/reorg-session-reconciler.ts:48-67 | a waiting session loses the one buy it observed although it is canonical |
| `PositionExit.CutsLoseLessThanTwoWei` | src/strategy/position-exit-evaluator.ts:15-24 | the two rounded cuts never overstate and lose less than two wei |
| `PositionExit.EvaluatePositionExit` | src/strategy/position-exit-evaluator.ts:40-171 | which rules apply and exactly when each action is ordered; a sale has a safe probe and gas within the ratio |
| `PositionExit.Remembered` | src/strategy/position-exit-evaluator.ts:87-107 | over a sequence the peak is the highest value seen and the stop is armed from the first gain on |
| `PositionExit.ArmedStaysArmed` | src/strategy/position-exit-evaluator.ts:87-107 | arming is a latch |
| `PositionExit.ArmedHasGained` | src/strategy/position-exit-evaluator.ts:87-107 | an armed stop has seen the activation gain: peak·10000 ≥ cost·(10000 + activation) |
| `PositionExit.TrailingStopFires` | src/strategy/position-exit-evaluator.ts:95-107 | exactly when the trailing stop fires: strictly after the arming evaluation |
| `EntrySizing.LargestAdmissible` | src/strategy/entry-sizing.ts:22-57 | the amount is the largest multiple of the step under the caps, none exactly when that is below the minimum |
| `EntrySizing.ReserveIsKept` | src/strategy/entry-sizing.ts:37-38 | the gas reserve is never touched |
| `EntrySizing.OrderDoesNotMatter` | src/strategy/entry-sizing.ts:1-20 | the order of the observed buys does not matter |
| `EntrySizing.SortMonotone` | src/strategy/entry-sizing.ts:6-19 | every order statistic rises with the values |
| `EntrySizing.NeverFalls` | src/strategy/entry-sizing.ts:22-57 | larger observed buys never lead to a smaller entry |
| `HeaderSpool.PrintParse` | src/chain/canonical-chain.coordinator.ts:255-258 | printing and parsing an unbounded block number |
| `HeaderSpool.TemporaryHeaderSpool.Append` | src/chain/canonical-chain.coordinator.ts:251-259 | one more line, refused once the file is finished |
| `HeaderSpool.TemporaryHeaderSpool.Headers` | src/chain/canonical-chain.coordinator.ts:267-304 | reading back gives exactly the appended headers |

## Left out

- AdaptiveLogs.LogProvider.Read: takes a bound on the number of requests, which the source does not have; that no bound suffices in some cases is what `LoopsForever` proves. A second reader sharing the provider's range at the same time is not modelled.
- MonitorScheduler.MonitorScheduler.RunUntilStable: takes a bound on the number of passes, because without quiet circumstances there may be any number.
- MonitorScheduler.MonitorScheduler.Admit: a start that throws leaves the monitor inactive; monitors that end by themselves while a pass runs are not modelled.
- TradeRecovery.Desk.Reconcile: dry-run trades, token amounts and the texts of reasons are not modelled; a balance read after a transaction is the balance before it plus its own effect, which is the premise of no other wallet activity.
- BatchRefinement.RunBatch: assumes that a provider that answers returns exactly the logs of the addresses asked, in any order and any number of times; a provider that omits a log cannot be recognised.
- ListenerTiling.TilingAcrossPasses: a listener without a checkpoint is taken to name the same first block each time; the one that starts at the confirmed head instead has a checkpoint from the fresh start on.
- ChainRuns.Chain.Run: passes come one after the other; those of one replay may overlap, which `OverlappingPasses` looks at for two passes whose writes do not interleave.
- BatchedPass.BatchedPassIsRun: the listener's answer to a log is taken to be the event table's; the session work behind that answer is not part of the run.
- ListenerPass.ProcessChunk: every log has its decoded arguments; the source skips one that lacks them.
- ReorgRepository.ChainDatabase.RewindToAncestor: discovered tokens, risk reports and the session snapshots of affected pairs are not modelled, nor are addresses and identities that are malformed.
- HeaderSpool.TemporaryHeaderSpool.Headers: only text written by the spool itself is read back; what a big-integer parser accepts besides decimal digits is not modelled.
- Runs without a cutoff, and hydrated cascades of persisted re-organisations, which the application does not use.
- Sales ordered by exit policy in the middle of a rollback; they have no source event.
- The per-pair lock of the session engine: each operation on a session is taken as one that runs alone.
- Session snapshots stored with each claimed event; only the table's rows, states and identities are modelled.
- SQL, advisory locks and leases: a transaction is one step, and only one process writes.
- Token risk checks, probes, dashboards, HTTP servers, loggers, heartbeat and provider health: single-branch checks or input and output.
- Retry delays, rate limits, timeouts and fail-over between providers.
- Signing, hashing, ABI coding and WebSocket subscriptions: foreign code, with hashing taken as injective.

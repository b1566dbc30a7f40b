# Coin safety of the wallet storage, in Dafny

This project models the part of the wallet storage that decides which transactions
may be broadcast, who holds which coin, and when a coin may return to the claimable
pool, together with the smaller protocols around it. The storage may run over two
databases that cannot share a transaction; one step of a model is then one committed
write to one store, and a crash may fall between any two.

`dafny verify dfyconfig.toml` checks everything. The files:

- `Domain`, `Inventory`: statuses, and the coin inventory with its guarded row transitions.
- `Protocol`: the send/abort protocol as a step machine. A run is any sequence of
  actions, so crashes, retries, replays and concurrent processes are all runs.
- `AbortFence`, `PinProtection`, `ClaimSpacing`, `AcceptOrder`: what every run keeps.
- `Provider`: the provider's methods, each proved equal to steps of that machine.
- `ReleaseReplay`, `Reconciler`, `LateReplay`, `ReleaseCascade`, `TwoPass`,
  `SpendConflict`: releasing the coins of a rejected transaction.
- `Cursor`, `CursorSafety`, `Wire`, `Sharding`: the status stream's replay cursor and
  its sharded apply.
- `CreateFlow`, `CreateValue`: reservation and value arithmetic of a new action.
- `Sync`, `Beef`, `Breaker`, `Sse`: storage-to-storage sync, the ancestry walk, the
  circuit breaker, the event-stream parser.

Thirteen promises of the code's own documentation do not hold on all inputs. Each is kept
as the code has it, shown failing on a concrete family of inputs, and given its exact
condition:

- An abort that read its row before the row was signed fences nothing
  (`FenceSafeIff`, `StaleSnapshotFreesSentCoins`).
- A sweep that read a reference as having no row releases it after the row was
  inserted, and the action goes on to sign and send (`SweepKeepsPromiseIff`,
  `SweepRaceFreesSentCoin`).
- The same sweep lets two actions in flight share a coin (`SweepKeepsInputsIff`,
  `SweepSharesCoin`).
- A persist that commits although its answer is lost leaves a live row whose coins the
  compensation frees; its caller has no reference to sign (`CompensateKeepsPromiseIff`,
  `LostAnswerFreesCoin`).
- A claim won before a transaction was finalised can still be used after its coins
  were given back (`LatePostIff`, `LatePostSpendsFreedCoin`).
- A replayed UNSPEND also lifts a live action's reservation of a coin that the dead
  transaction is recorded to have spent (`UnspendKeepsHolderIff`,
  `UnspendDropsForeignHold`).
- An abort can free change of a parent that died while the action held it
  (`AbortKeepsNoPhantomIff`, `AbortFreesPhantom`).
- A pass that loaded its suspect before it recovered and was suspected again releases
  on the first REJECTED of the new cycle (`FreshCycleIff`, `StaleLoadSkipsSecondPass`).
- A second REJECTED whose live record names no competitor releases every input,
  although the suspect's row remembers one (`PlainRejectSafeIff`,
  `StoredCompetitorIgnored`).
- A connection made without a position is served without terminal history, so the
  cursor can pass an un-applied event for good: after a load that failed, and after one
  that found no cursor because none was ever written (`SkipsIff`, `FailedLoadSkips`,
  `ColdRestartSkips`). The repair poll is then the only way to it.
- The funder's contention retry releases the whole token, the caller's named coins
  included, and does not reserve them again (`RetryKeepsNamedIff`, `RetryLosesNamedCoin`).
- A restart that could not load its cursor can also store an earlier one
  (`RestartInStepIff`, `MovesBackIff`, `FailedLoadMovesBack`).
- An unfinished frame at the end of a stream is dispatched, not dropped, when the stream
  is cut right after a lone CR (`PrintThenRead`).

Where the code and its comments differ the code is followed: change below the dust
floor gets no output although the result still reports it as change, and a blank line
dispatches a frame even when no field was read.

## Model

| member | source | states |
|---|---|---|
| `Protocol.NewStatuses` | pkg/storage/process.go:1257-1268 | a freshly signed transaction can be claimed, and can be aborted unless it is sent at once |
| `AbortFence.GivenBackNeverPosted` | pkg/storage/abort.go:138-231 | in every split-store run whose fences saw the row's txid, the bytes of an action whose coins an abort gave back were never handed to the network, and nobody holds or can win the right to |
| `AbortFence.RunAbortInv` | pkg/storage/abort.go:293-324 | over every such run: an aborted row's bytes are unsendable, nothing is posted without a claim, only fenced actions are freed |
| `AbortFence.StepAbortSafe` | pkg/storage/abort.go:206-231 | every single committed write keeps an aborted action's bytes unsendable |
| `AbortFence.UnsendableStays` | pkg/storage/internal/metastore/knowntx.go:105-113 | once nobody can send a transaction, no later write makes it sendable again |
| `AbortFence.FenceSafeIff` | pkg/storage/abort.go:206-231 | a fence keeps the promise exactly when its snapshot is the row's txid or the bytes were unsendable already |
| `AbortFence.StaleSnapshotFreesSentCoins` | pkg/storage/abort.go:505-510 | the promise fails without that: an abort that read the row before it was signed frees a coin whose transaction is then sent |
| `AbortFence.SigningRunSigns` | pkg/storage/process.go:159-252 | the state the failing abort starts from is reached by reserving, inserting, pinning and signing |
| `AbortFence.PostsNeverExceedClaims` | pkg/storage/process.go:627-704 | in every run a transaction is handed to the network at most as often as a claim on it was won |
| `AbortFence.LatePostIff` | pkg/storage/reconciler.go:649-674 | a finalised transaction, sent before or not, can be handed over once more in some continuation exactly when a claim on it was won and not used |
| `AbortFence.LatePostSpendsFreedCoin` | pkg/storage/process.go:552-602 | it happens: one sender claims and stalls, a second takes the claim over after the grace, sends and is rejected, the coin is given back, and then the first sender hands the bytes over |
| `PinProtection.HeldUntilFence` | pkg/storage/status_updates.go:1678-1701 | in every run in which neither a sweep nor a compensation releases behind a live row, a coin that an action held when its row was inserted stays reserved by it, pinned once signed, or spent on record, until the action is fenced, its own bytes are finally dead, a spender recorded under it is, or the coin is spent by a proven transaction or has a dead source |
| `PinProtection.SendableBytesKeepTheirCoins` | pkg/storage/process.go:160-203 | in every such run whose fences saw the row's txid, no coin that the action held when its row was inserted is claimable while the bytes bound to it can be sent, with the same exceptions and no fence among them |
| `PinProtection.StepHoldInv` | pkg/storage/process.go:160-203 | every single committed write keeps that promise for every coin at once |
| `PinProtection.SweepKeepsPromiseIff` | pkg/storage/status_updates.go:1803-1841 | a sweep's release keeps it exactly when its reference still has no row, is fenced, was pinned meanwhile, or holds nothing unsettled |
| `PinProtection.SweepRaceFreesSentCoin` | pkg/storage/status_updates.go:1803-1841 | the failing case: the row is inserted between the sweep's read and its release, and the action is then signed and sent over a claimable coin |
| `PinProtection.CompensateKeepsPromiseIff` | pkg/storage/create.go:218-221 | the compensation of a failed persist keeps it exactly when there is no row after all, or the row is fenced, pinned or holds nothing unsettled |
| `PinProtection.LostAnswerFreesCoin` | pkg/storage/create.go:218-221 | the failing case: the persist commits and its answer is lost, and the compensation frees the coins of a live, unsigned row |
| `ClaimSpacing.OwnedVerdictsAreSpaced` | pkg/storage/process.go:552-602 | in every run the plain claim of a txid is won at most once and any two owned verdicts lie at least the resend grace apart |
| `ClaimSpacing.StepClaimOk` | pkg/storage/internal/metastore/knowntx.go:658-760 | every committed write keeps the claim bookkeeping of every txid |
| `AcceptOrder.AcceptedInputsAreSpent` | pkg/storage/process.go:809-867 | in every run, whatever an accept moved on and no reconciler finalised has every inventory-held input recorded spent by it, unless a coin is minted that an accept took for external |
| `AcceptOrder.InputsSpentIff` | pkg/storage/reconciler.go:649-694 | over every action of the machine, exactly two writes end it: a mint of an input, and the UNSPEND of a finalised transaction |
| `AcceptOrder.AcceptOutcome` | pkg/storage/process.go:809-867 | an uninterrupted accept spends exactly the inputs, moves the rows and ends at a broadcast status |
| `AcceptOrder.ReDriveConverges` | pkg/storage/process.go:794-808 | re-driving an accept after any interruption ends with the inventory, rows and status of the uninterrupted one |
| `AcceptOrder.ReDriveCompletes` | pkg/storage/process.go:794-808 | after any run in which no other transaction is recorded as spender of an input, the re-drive completes: every inventory-held input is spent by the transaction, which is at a broadcast status |
| `ProviderModel.Provider.ClaimForSend` | pkg/storage/internal/metastore/knowntx.go:658-680 | the claim succeeds exactly from a pre-broadcast status that was never broadcast; effect as in the step machine |
| `ProviderModel.Provider.ReclaimStaleSend` | pkg/storage/internal/metastore/knowntx.go:691-731 | for any grace, a stranded send is taken over exactly when it is at sending, never broadcast and past the grace |
| `ProviderModel.Provider.ClaimForBroadcast` | pkg/storage/process.go:552-602 | who owns the right to POST, in both directions, and what each refusal says about the row |
| `ProviderModel.Provider.QueueDelayed` | pkg/storage/process.go:430-449 | re-queues exactly what is not in the never-requeue set; a refusal names the status |
| `ProviderModel.Provider.StoreSigned` | pkg/storage/process.go:204-251 | the signer's metadata commit happens exactly when the known tx may still be queued |
| `ProviderModel.Provider.MintChange` | pkg/storage/process.go:364-428 | mints exactly the change that is not there yet; a coin of another identity at its place stops it |
| `ProviderModel.MintRowsIsRun` | pkg/storage/process.go:364-428 | minting the change of a signed transaction is a run of the step machine |
| `ProviderModel.Provider.ProcessNewTx` | pkg/storage/process.go:91-253 | success exactly when the row is signable after the pin and the change can be minted; pin, metadata commit and mints as steps of the machine; a refused unit of work leaves what its separate commits left |
| `ProviderModel.Provider.FenceAborted` | pkg/storage/abort.go:206-231 | both gates in one commit: succeeds exactly when the row is abortable and the known tx pre-broadcast |
| `ProviderModel.Provider.AbortViaOutbox` | pkg/storage/abort.go:325-405 | refused aborts change nothing; others stop after any number of store calls in the stated order |
| `ProviderModel.AbortResidue` | pkg/storage/abort.go:290-306 | wherever an abort stopped, its bytes are fenced and its coins still held, or free after the release |
| `ProviderModel.Provider.FindSweptRow` | pkg/storage/status_updates.go:1803-1808 | the sweep's lookup, as the machine's read step |
| `ProviderModel.Provider.ReleaseOrphan` | pkg/storage/status_updates.go:1810-1841 | the sweep's release of an orphan after anything may have happened since the lookup: refused exactly when the reservation is pinned, otherwise the machine's release step |
| `ProviderModel.Provider.SweepStaleReservation` | pkg/storage/status_updates.go:1803-1941 | undisturbed: which of release, abort, heal and skip a stale reservation gets, and the machine's steps of each; with a row, nothing is freed unfenced |
| `ProviderModel.SpendEach` | pkg/utxostore/memstore/memstore.go:484-533 | per-item verdicts of a fact-mode spend batch and the rows it leaves |
| `ProviderModel.Provider.Spend` | pkg/utxostore/memstore/memstore.go:484-533 | verdicts, top-level error and rows of the batch, with roll-back of a broken call |
| `ProviderModel.Provider.SpendReservedInputs` | pkg/storage/process.go:985-1085 | succeeds exactly when nothing failed below and no other transaction spent an input; missing rows are the only tolerated verdict |
| `ProviderModel.Provider.RecordSpends` | pkg/storage/process.go:838-841 | the spends of an accepted broadcast as a run of the step machine; on error only spends by this txid are left |
| `ProviderModel.Provider.CommitAccepted` | pkg/storage/process.go:842-857 | the status half of an accept, only behind recorded spends |
| `ProviderModel.Provider.ApplyAcceptedBroadcast` | pkg/storage/process.go:809-867 | equals the uninterrupted accept on success, leaves the metadata untouched on error, and succeeds exactly when a row exists and every input can be recorded |
| `ProviderModel.Provider.CommitRejected` | pkg/storage/process.go:877-931 | a final rejection moves the rows to failed and the known tx to suspect, frees no input and removes the unreserved, unspent change |
| `ProviderModel.Provider.CommitOutcome` | pkg/storage/process.go:704-731 | what each answer of the oracle does to the stores |
| `ProviderModel.Provider.ClaimAndPost` | pkg/storage/process.go:655-704 | bytes are posted exactly behind an owned claim |
| `ProviderModel.Provider.BroadcastOne` | pkg/storage/process.go:627-732 | refused exactly when no claim can be won; left at sending, failed with its change removed, or applied otherwise, with the inventory of each case |
| `ReleaseReplay.ReplayIsFinal` | pkg/storage/reconciler.go:597-674 | the writes of a plan in any order, each at least once and repeated at will, give the final stores of the release; a row removal without its cascade counts as a write of its own, so torn executions are runs |
| `ReleaseReplay.StepKeepsFinal` | pkg/storage/reconciler.go:659-674 | no operation of a plan changes what the release will finally come to |
| `ReleaseReplay.SettledStays` | pkg/storage/reconciler.go:676-734 | an operation that has nothing left to do stays that way under the others |
| `ReleaseReplay.OutboxOpsOfPlan` | pkg/storage/reconciler.go:782-808 | the enqueued operations are exactly the plan's operations that have work to do |
| `ReleaseReplay.KeysAreDistinct` | pkg/storage/internal/metastore/outbox.go:43-52 | no two operations of a plan share a key, so the enqueue's deduplication drops none |
| `Reconciler.Store.BuildReleasePlan` | pkg/storage/reconciler.go:530-565 | partitions the inputs by whether their source is finally dead; own outputs and inputs stay apart |
| `Reconciler.Store.Cascade` | pkg/storage/reconciler.go:743-769 | queues exactly the children that are not proven, queued or finally dead |
| `Reconciler.Store.SpendersOf` | pkg/storage/reconciler.go:724-733 | the spenders of the outputs a removal had to keep |
| `Reconciler.Store.ExecuteOp` | pkg/storage/reconciler.go:899-968 | the writes of one operation, as executed directly and from the outbox: inventory first, then the cascade |
| `Reconciler.Store.ReleaseDirect` | pkg/storage/reconciler.go:579-674 | the shared-database release reaches the final stores exactly when the suspect gate is won, and changes nothing otherwise |
| `Reconciler.Store.EnqueueAll` | pkg/storage/internal/metastore/outbox.go:43-58 | older rows keep their payload; with none of this transaction every operation gets a row of its own |
| `Reconciler.Store.ReleaseViaOutbox` | pkg/storage/reconciler.go:600-644 | whatever else is in the outbox: gate and intent commit together, rows of other transactions are untouched, and every operation is done or still owed, also when the inline attempt's commit fails |
| `Reconciler.Store.RunRows` | pkg/storage/reconciler.go:622-643 | a failed commit puts metadata and outbox back and keeps the inventory writes; every row is still there or was run |
| `Reconciler.Store.DrainOutbox` | pkg/storage/reconciler.go:846-892 | one attempt at each pending row of any plan in one commit that may fail; whatever is not done stays owed |
| `Reconciler.DrainedIsDirect` | pkg/storage/reconciler.go:597-644 | with nothing owed any more the split-store release, torn attempts included, equals the direct one |
| `LateReplay.LateReplayKeepsHolders` | pkg/storage/abort.go:293-306 | through any interleaving of late UNSPEND, RELEASE and ABORT_RELEASE replays with live claims, spends and pins, a coin that belongs to somebody else keeps holder, pin and spender |
| `LateReplay.UnspendKeepsHolderIff` | pkg/storage/reconciler.go:678-694 | UNSPEND keeps a coin's holder exactly when the dead transaction is not its recorded spender or nobody holds it |
| `LateReplay.UnspendDropsForeignHold` | pkg/utxostore/memstore/memstore.go:537-557 | the failing family: a live action's coin, spent on record by the dead transaction, is freed by the replay |
| `ReleaseCascade.NoFreePhantomEver` | pkg/storage/reconciler.go:498-565 | after any run of releases, suspicions, recoveries, claims, spends and mints, no free coin has an invalidTx or doubleSpend source |
| `ReleaseCascade.ReleaseKeeps` | pkg/storage/reconciler.go:649-734 | one release frees only inputs with a living source and leaves no free change of its own |
| `ReleaseCascade.AbortKeepsNoPhantomIff` | pkg/storage/abort.go:445-467 | an abort keeps that exactly when it holds no coin of a finally dead source |
| `ReleaseCascade.AbortFreesPhantom` | pkg/storage/abort.go:435-443 | the failing case, for every plan and terminal status: change claimed by an unsigned action survives its parent's release and is freed by the abort |
| `ReleaseCascade.ReleaseQueuesChildren` | pkg/storage/reconciler.go:721-769 | a release leaves every child that spent its change proven, queued or finally dead |
| `TwoPass.RejectedReleaseHasTwoPasses` | pkg/storage/reconciler.go:200-245 | in every run under changing verdicts, a release on REJECTED was preceded by a REJECTED pass at least the grace earlier |
| `TwoPass.ReleasesAreVerified` | pkg/storage/reconciler.go:139-388 | in every run, each release rests on a second REJECTED or a double spend; outside the conflict class it frees all inputs, and inside it exactly those that no confirmed and no locally readable spender names |
| `TwoPass.PlainRejectSafeIff` | pkg/storage/reconciler.go:207-245 | the release that a pass makes on a second REJECTED outside the conflict class frees no input proven spent, whatever the network and the ledger say, exactly when the row has no inputs, or the stored competitors and the text name no spender and the text no own input |
| `TwoPass.StoredCompetitorIgnored` | pkg/storage/reconciler.go:225-245 | the failing case: the live record names no competitor, one that row or text remembers is mined over the first input, and the pass frees that input |
| `TwoPass.ReleasedOncePerCycle` | pkg/storage/internal/metastore/knowntx.go:570-600 | in every run two releases of a suspect lie in different suspect cycles |
| `TwoPass.FreshCycleIff` | pkg/storage/internal/metastore/monitor.go:160-206 | a release rests on a REJECTED pass of the present suspect cycle exactly when the row was not suspected again between load and act |
| `TwoPass.StaleLoadSkipsSecondPass` | pkg/storage/reconciler.go:116-134 | the failing case: recovered and suspected again after the load, released on the first REJECTED of the new cycle |
| `TwoPass.Suspect.StampVerifiedRejected` | pkg/storage/internal/metastore/knowntx.go:554-568 | stamps once, and only while suspect |
| `TwoPass.Suspect.LeaveOrEscalate` | pkg/storage/reconciler.go:459-496 | leaves the suspect or makes it stuck past its quarantine; touches no input |
| `TwoPass.Suspect.ReleaseVerifiedDead` | pkg/storage/reconciler.go:570-595 | frees exactly the given inputs, once, behind the gate |
| `TwoPass.Suspect.ReleaseConflict` | pkg/storage/reconciler.go:268-388 | runs the conflict rule on the record and the stored competitors, and frees what it decides or leaves the suspect |
| `TwoPass.Suspect.HandleRejected` | pkg/storage/reconciler.go:207-245 | first pass stamps, second pass releases, in between waits |
| `TwoPass.Suspect.ReconcileSuspect` | pkg/storage/reconciler.go:139-169 | row and releases after a pass, for every verdict and every loaded snapshot |
| `SpendConflict.ReleaseSpendConflict` | pkg/storage/reconciler.go:268-388 | releases exactly when every confirmed spender is readable, an own input is proven spent, and a spender is resolved or nothing is left; frees exactly the inputs not proven spent; defers as unreadable exactly when a confirmed spender is |
| `SpendConflict.DecideIff` | pkg/storage/reconciler.go:268-388 | the decision in terms of the network and the ledger, without the order in which the code asks |
| `SpendConflict.MergeSpenders` | pkg/storage/spend_conflict.go:143-162 | canonical, non-empty, without repetition, nothing lost |
| `SpendConflict.HasConfirmedUnreadableWinner` | pkg/storage/reconciler.go:434-454 | found exactly when some confirmed spender is unreadable |
| `SpendConflict.FindWinnerInputs` | pkg/storage/reconciler.go:990-1026 | the union over every confirmed winner, or none when one is unreadable |
| `SpendConflict.LocalWinnerInputs` | pkg/storage/reconciler.go:406-432 | the union over every locally readable spender |
| `SpendConflict.FilterReleaseInputs` | pkg/storage/spend_conflict.go:166-179 | keeps order, drops exactly the spent inputs and counts them |
| `CursorSafety.SkippedWasLeftOut` | pkg/monitor/status_events.go:262-291 | over every run of deliveries, failed batches, failed writes, reconnects and restarts, with or without a position, an emitted event at or before the stored cursor was applied, its hold was given up, or a connection made without a position left it out while the process did not have it |
| `CursorSafety.NothingSkipped` | pkg/monitor/status_events.go:118-136 | in every such run whose connections after the first resume from a position, an emitted event at or before the stored cursor that the first connection did not leave out was applied or its hold was given up |
| `CursorSafety.SkipsIff` | pkg/arcade/doc.go:35-41 | after a reconnect or restart, some gap-free continuation of some stream lets the cursor pass an event for good exactly when the connection was made without a position and leaves out an event that is neither applied, given up nor with the process |
| `CursorSafety.FailedLoadSkips` | pkg/monitor/status_events.go:139-147 | the failing family of a failed load: any event above the stored cursor is passed for good by any later one |
| `CursorSafety.ColdRestartSkips` | pkg/monitor/status_events.go:139-147 | the failing family without a fault in the load: the first batch fails, no cursor was ever written, and the restart passes its event for good |
| `CursorSafety.NothingLostBelowBound` | pkg/monitor/status_events.go:455-472 | below the hold bound every such event was applied or left out by a connection without a position; applied, when the connections after the first resume from one |
| `CursorSafety.CursorNeverMovesBack` | pkg/monitor/status_events.go:397-431 | while restarts load their cursor, the stored cursor never decreases and never becomes empty |
| `CursorSafety.RestartInStepIff` | pkg/monitor/status_events.go:139-147 | a restart keeps the process in step with the stored cursor exactly when it loaded it or there was none |
| `CursorSafety.MovesBackIff` | pkg/monitor/status_events.go:139-147 | after a restart, some gap-free run without another restart moves the stored cursor back exactly when the load failed and a cursor was stored |
| `CursorSafety.FailedLoadMovesBack` | pkg/monitor/status_events.go:139-147 | the failing case, for every stored position: any earlier event delivered after a failed load becomes the stored cursor |
| `CursorSafety.ApplyKeepsPositions` | pkg/monitor/status_events.go:367-431 | a recorded batch moves the position only over applied or given-up events |
| `Cursor.CursorTracker.constructor` | pkg/monitor/status_events.go:139-147 | the tracker a process starts with |
| `Cursor.CursorTracker.Hold` | pkg/monitor/status_events.go:333-360 | a failed batch is remembered and freezes the cursor, up to the bound |
| `Cursor.CursorTracker.Record` | pkg/monitor/status_events.go:367-431 | clears applied events, thaws when none is left, advances to the newest id and flushes when due |
| `Cursor.CursorTracker.ReleaseIfPastBound` | pkg/monitor/status_events.go:462-472 | gives a hold up at its bound |
| `Cursor.CursorTracker.NewestEventId` | pkg/monitor/status_events.go:498-505 | the last id in arrival order |
| `Cursor.CursorTracker.Flush` | pkg/monitor/status_events.go:509-527 | durable moves only with a successful write |
| `Cursor.CursorTracker.Resume` | pkg/monitor/status_events.go:533-539 | the position a reconnect asks for is durable |
| `Sharding.ShardedIsSequential` | pkg/monitor/status_events.go:676-717 | for every batch, routing, per-transaction update rule, set of failed shards and interleaving, each transaction ends as in arrival order, or as it began |
| `Sharding.SplitRecords` | pkg/monitor/status_events.go:689-704 | one piece for a small batch, else one piece per shard in arrival order |
| `Sharding.MinedInBatchEndsConfirmed` | pkg/arcade/wire.go:203-211 | with known statuses, a MINED record in a shard that succeeded ends its transaction MINED or IMMUTABLE |
| `Wire.EndsConfirmedIff` | pkg/arcade/wire.go:143-242 | exactly when a batch leaves a transaction confirmed, statuses outside the enumeration included |
| `Wire.MinedBatchEndsConfirmed` | pkg/arcade/wire.go:143-242 | a MINED record among known statuses ends MINED or IMMUTABLE |
| `Wire.WindowReplayDiffers` | pkg/arcade/wire.go:155-162 | replaying a window is not idempotent on the recorded status |
| `CreateFlow.InputsAreDisjoint` | pkg/storage/create.go:165-170 | in every interleaving of actions, compensations and reservation sweeps in which no sweep takes an action's coins and no action with named coins retries its funding, actions in flight share no wallet-owned input and no funder claims a named coin |
| `CreateFlow.AllocationsAreDisjoint` | pkg/storage/internal/funder/funder.go:399-433 | in every interleaving in which no sweep takes an action's coins, funder allocations of actions in flight are disjoint |
| `CreateFlow.SweepKeepsInputsIff` | pkg/storage/status_updates.go:1803-1841 | a sweep's release keeps the inputs of every action held exactly when the reference it read has no action in flight with inputs |
| `CreateFlow.SweepSharesCoin` | pkg/storage/status_updates.go:1803-1841 | the failing case: the sweep looks during the funding and releases after the persist, and a second action in flight takes the same coin |
| `CreateFlow.DeadHoldsNothing` | pkg/storage/create.go:198-224 | in every interleaving, sweeps included, a failed action whose release succeeded holds nothing |
| `CreateFlow.RetryKeepsNamedIff` | pkg/storage/internal/funder/funder.go:204-237 | a contention retry keeps the named coins held exactly when there are none |
| `CreateFlow.RetryLosesNamedCoin` | pkg/storage/internal/funder/funder.go:213-228 | the failing case: after a retry the funder may claim the caller's own coin again, or another action may take it |
| `CreateFlow.Coins.ReserveOutpoints` | pkg/utxostore/memstore/memstore.go:323-372 | all or nothing: succeeds exactly when every named coin is reservable, and then reserves them all |
| `CreateFlow.Coins.DrainBatch` | pkg/storage/internal/funder/funder.go:451-487 | reserves a batch, keeps its head and gives the unconsumed tail back as it was |
| `CreateFlow.Coins.FundOnce` | pkg/storage/internal/funder/funder.go:242-276 | a pass that does not break holds, beyond what was held before, exactly the claimable coins it allocated |
| `CreateFlow.Coins.Fund` | pkg/storage/internal/funder/funder.go:204-237 | what the token holds after a first-pass success, a retried success and a failure |
| `CreateValue.PlanAction` | pkg/storage/create.go:85-158 | funded exactly when the collected coins suffice; the outputs at positions 0..n-1 are exactly the caller's, the commission, the fuel and the even change shares; provided plus allocated value equals planned outputs plus fee plus donated change, with nothing donated exactly when change is zero or reaches the dust floor |
| `CreateValue.FundAction` | pkg/storage/create.go:85-158 | target, count and settings lead to a funding result exactly when the coins suffice, and the books balance against provided and outgoing value |
| `CreateValue.FundingPromise` | pkg/storage/internal/funder/collector.go:208-224 | whatever coins are handed out: coins cover target, fee and change, change outputs exist exactly above the dust floor, the fee covers the counted size |
| `CreateValue.SmallChangeIsDonated` | pkg/storage/internal/funder/collector.go:208-215 | the failing case of plain conservation: a change of 10 gets no output |
| `CreateValue.TargetAndCount` | pkg/storage/create.go:85-124 | target and output count cover caller outputs, commission and fuel |
| `CreateValue.CountDownIs` | pkg/storage/internal/funder/collector.go:255-259 | the largest count whose shares reach the dust floor, else one |
| `CreateValue.Collector.constructor` | pkg/storage/internal/funder/collector.go:47-86 | the books of a fresh collector |
| `CreateValue.Collector.CalculateChangeOutputs` | pkg/storage/internal/funder/collector.go:226-240 | plans change outputs and prices them |
| `CreateValue.Collector.CalculateChangeCount` | pkg/storage/internal/funder/collector.go:242-260 | the capped, dust-aware number of change outputs |
| `CreateValue.Collector.Allocate` | pkg/storage/internal/funder/collector.go:150-176 | books after one more coin |
| `CreateValue.Collector.Collect` | pkg/storage/internal/funder/funder.go:380-396 | allocates until funded and returns the funding result |
| `CreateValue.DistributeChange` | pkg/storage/create.go:455-468 | the shares sum to the change, are even, and the last takes the rest |
| `CreateValue.CallerPlans` | pkg/storage/create.go:366-386 | one plan per caller output, same value |
| `CreateValue.AddFuel` | pkg/storage/create.go:407-431 | the fuel outputs, appended |
| `CreateValue.AddChange` | pkg/storage/create.go:433-449 | the change outputs, appended |
| `CreateValue.FixedPlans` | pkg/storage/create.go:366-431 | each caller, commission and fuel output, and that they match the count and the value the funder was given |
| `CreateValue.BuildOutputPlans` | pkg/storage/create.go:361-451 | every planned output in order, with the value and basket of each, and their total |
| `CreateValue.Shuffle` | pkg/storage/create.go:263-265 | a permutation |
| `CreateValue.PlaceOutputs` | pkg/storage/create.go:263-268 | the same outputs at positions 0..n-1 |
| `CreateValue.NoSendChangeVouts` | pkg/storage/create.go:697-708 | exactly the positions of change in the change basket, ascending |
| `Sync.SyncRoundTrip` | pkg/storage/sync.go:56-158 | a full chunk processed into a fresh target yields exactly the source's live change coins, same value and basket name |
| `Sync.FreshTarget` | pkg/storage/sync.go:170-289 | inventory and counts of a fresh target |
| `Sync.NewChunkApplied` | pkg/storage/sync.go:170-289 | on any inventory a chunk of new transactions goes through exactly when the coins already there agree with it; they stay as they are, the missing ones are minted, and the counts do not depend on which were there |
| `Sync.ConflictLeaves` | pkg/storage/sync.go:343-420 | a mint conflict leaves exactly the coins of the outputs before it |
| `Sync.AgainChangesNothing` | pkg/storage/sync.go:240-262 | the same chunk again inserts and mints nothing |
| `Sync.RetryReportsTheSame` | pkg/storage/sync.go:205-215 | a retry after a rolled-back attempt that had minted part of the chunk, with those coins claimed, pinned, spent, frozen or removed since, goes through, keeps them as they are and counts what an undisturbed attempt counts |
| `Sync.BasketRoundTrip` | pkg/storage/sync.go:84-92 | a basket keeps its name through the synthetic ids |
| `Sync.IndexBaskets` | pkg/storage/sync.go:84-95 | the chunk's basket list and the index over it |
| `Sync.TakeTxs` | pkg/storage/sync.go:97-107 | the transactions since the given time |
| `Sync.ShipOutputs` | pkg/storage/sync.go:109-155 | the outputs with basket id and live spend state |
| `Sync.GetSyncChunk` | pkg/storage/sync.go:67-158 | the chunk of a source |
| `Sync.Target.ProcessSyncChunk` | pkg/storage/sync.go:170-420 | stores and report after one attempt; a mint conflict rolls the metadata back and keeps the mints before it |
| `Beef.GetBEEF` | pkg/services/services.go:131-154 | closed under sources of unproven transactions, only ancestors within the depth bound, only known txids as stubs; assembled whenever all it can need is available |
| `Beef.Bundle.Walk` | pkg/services/services.go:156-217 | terminates, only grows the set, and adds complete ancestors of the walked transaction |
| `Beef.Bundle.WalkInputs` | pkg/services/services.go:197-214 | every source of the transaction is in the set afterwards |
| `Breaker.OpenExactlyBehindStreak` | pkg/arcade/circuit_breaker.go:52-112 | in every interleaving the breaker is open exactly when the non-zero threshold of failures passed since the last success or healthy probe |
| `Breaker.ProbesAreSpaced` | pkg/arcade/circuit_breaker.go:61-72 | in every interleaving with a monotone clock, any two probes start at least the interval apart |
| `Breaker.CircuitBreaker.Check` | pkg/arcade/circuit_breaker.go:52-72 | first critical section: permission and probe slot |
| `Breaker.CircuitBreaker.ProbeReturned` | pkg/arcade/circuit_breaker.go:74-82 | second critical section: a healthy probe closes the breaker |
| `Breaker.CircuitBreaker.RecordFailure` | pkg/arcade/circuit_breaker.go:87-100 | counts and opens at the threshold |
| `Breaker.CircuitBreaker.RecordSuccess` | pkg/arcade/circuit_breaker.go:104-112 | resets and closes |
| `Sse.PrintThenRead` | internal/sse/sse.go:272-314 | printed frames with comment lines anywhere, an unfinished frame at the end and a cut inside its last line read back as the same frames in order, exactly unless the cut leaves a lone CR |
| `Sse.RoundTrip` | internal/sse/sse.go:272-314 | the same from the frames' own fields: no LF in id or event, no CR at the end of a line, no line of the maximum length |
| `Sse.DataSurvivesIff` | internal/sse/sse.go:344-348 | data comes back exactly when it does not start with LF |
| `Sse.ReadStream` | internal/sse/sse.go:268-314 | the frame loop computes the dispatched frames and the last server retry, and fails exactly on a run of the maximum line length without a LF |
| `Sse.ScanFailsIff` | internal/sse/sse.go:42-44 | the scan of a text fails exactly when that many characters in a row hold no LF |
| `Sse.AccumulatePrinted` | internal/sse/sse.go:337-366 | each printed field lands in its own place |

## Left out

- InternalizeAction, the repair of written-off transactions that are mined after all, the demotion of proofs after a reorganisation, and the orphan sweeps: separate writers of the same rows with guards of their own.
- Freezing and unfreezing of suspect change, apart from the unfreeze inside UNSPEND: best effort, errors swallowed.
- HTTP, SQL, retries and back-off, logging, cryptography, script and byte formats: a unit of work is atomic, txids, parsed inputs, proofs and the outpoints parsed out of a rejection text are given values.
- Database read errors in the reconciler: a failed read takes the branch the code gives it only where a missing record does the same; a suspect whose stored bytes do not parse is not modelled.
- Clocks, randomness, oracle answers and store faults are parameters; integers are unbounded except where a width decides something.
- AbortFence.GivenBackNeverPosted: assumes that each fence's snapshot carries the row's txid, which FenceSafeIff shows to be the exact condition.
- PinProtection.HeldUntilFence: assumes that no sweep and no compensation releases a reference whose row is live, which SweepKeepsPromiseIff and CompensateKeepsPromiseIff show to be the exact conditions.
- PinProtection.SendableBytesKeepTheirCoins: assumes this and the fences' snapshots; is about the coins the action held when its row was inserted, to which the inputs of the signed bytes are not tied; and says nothing of a coin whose own transaction is finally dead: LatePostIff says exactly when such bytes can still be sent.
- AcceptOrder.AcceptedInputsAreSpent: assumes that no coin is minted that an accept was told is external, and is about transactions no reconciler finalised; InputsSpentIff shows these to be the only two ways to lose it.
- AcceptOrder.ReDriveConverges: states full equality of the outcome, so between the crash and the re-drive only spends of the same transaction, re-claims, posts and time pass; ReDriveCompletes covers everything else.
- CreateFlow.InputsAreDisjoint: assumes that no sweep takes an action's coins and no action with named coins retries its funding, which SweepKeepsInputsIff and RetryKeepsNamedIff show to be the exact conditions.
- CreateFlow.AllocationsAreDisjoint: assumes the first of these.
- ReleaseCascade.NoFreePhantomEver: assumes that no abort holds a coin of a dead source, which AbortKeepsNoPhantomIff shows to be the exact condition, and that every inventory coin of a transaction is among its recorded change.
- CursorSafety.NothingSkipped: assumes that connections after the first resume from a position, which SkipsIff shows to be the condition; event ids are time stamps, and the stream leaves no gap above a position it resumes from, so the frame cap of a long catch-up and frames that do not parse are not modelled.
- AbortFence.PostsNeverExceedClaims: a hand-over with its back-pressure retries counts as one.
- Reconciler.Store.ReleaseViaOutbox: says that every operation is done or owed only when no older row of the same transaction is in the outbox, because the enqueue keeps an older row's payload.
- Reconciler.DrainedIsDirect: is about the writes of one plan; LateReplay has the other actors.
- SpendConflict.MergeSpenders: trims and lowers ASCII only.
- TwoPass.Suspect.ReconcileSuspect: a recovered suspect is handed to the status lifecycle, which appears in runs as any other writer of the row.
- CreateValue.FundingPromise: the counted size does not include the growth of the input-count prefix beyond 252 inputs, which the code does not count either; the fee rate is a whole number of satoshis per kilobyte and the fee is computed without floating-point rounding; the amount bounds of the satoshi type are not modelled.
- CreateValue.Collector.Collect: takes the coins in the order the store hands them out; the choice of coins by tier and best fit is not modelled.
- Sse.ReadStream: the read watchdog and the reconnect back-off are not modelled, and a character stands for a byte.
- Beef.GetBEEF: txid parsing and the merge of proofs are not modelled.
- In the step machine a release or a prune may name any inputs of its transaction, and phantom removal any whose source was ever finalised or given up; the plan's own lists are in ReleaseReplay.
- The shared-database abort is the same steps as the split-store one with nothing in between.

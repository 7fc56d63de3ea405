# CrashWave kernel: a verified model

This Dafny project models the money and concurrency kernel of CrashWave and proves what it
guarantees. Where the code does not keep a promise, the project gives an input that shows it and
the exact condition under which the promise holds.

Methods on classes follow the source's imperative code; each is tied to a function of the old state.
The theorems are about those functions and about all runs of the steps they describe. Clocks,
random draws, faults and the order of events are parameters, so every statement holds for all of
them.

| files | what they cover |
|---|---|
| `Journal`, `Settlement`, `SettlementSafety`, `SettlementRuns`, `SettlementRetries`, `SettlementEngine` | double-entry settlement, retried and interleaved transactions, the reconciler and the boot pass |
| `DriftGuard` | the drift guard over the reported balance |
| `InstanceLock`, `DistributedMutex`, `MutexMetrics`, `Async` | leased locks, the FIFO mutex, the semaphore and the promise pool |
| `Executor`, `IdempotencyExpiry`, `DailyLedger`, `DailySlots` | bet placement with its idempotency stores, the daily entry ledgers |
| `CashOut` | the race between ticks, crash, cash-out result, abort and timeout |
| `Notifications`, `Throttle`, `ThrottleLimits`, `ThrottleIntervals` | the notification throttle and what its limits promise |
| `Velocity`, `CommandLimit` | the action limiter and the per-user command limit |
| `Bets`, `UnknownRecovery`, `Balance`, `Recovery` | the recovery sweep, balance reconciliation, resuming |
| `Sorting`, `Ranker`, `Pnl`, `Latency`, `DayBoundary` | fast forms against their definitions |

`dafny verify dfyconfig.toml` checks the whole project.

## Reading notes

- Amounts in the settlement modules are integers of 1e-8; elsewhere money is `real`.
- An order's id is its position in the table, and `created_at` order is insertion order.
- `guarded` says whether the transition trigger of migration 017 is installed. It forbids settling an
  order that was never dispatched and marking it RECONCILING; the engine itself allows both.
- `assertBalanced` tolerates one unit; the model proves exact balance, so it never fires.
- The boot pass counts a VOID verdict as settled, and its `voided` counter is always zero.
- The executor promises one physical bet per round. A clean refusal of the confirmation, or its
  timeout, clears the side-effect flag, and the same call may submit again; the promise holds within
  one call against every adapter if and only if no retries are configured.
- Releasing a CONFIRMED daily entry subtracts from both counters, and the in-memory twin confirms
  released entries without a test of the cap; `DailyLedger` says exactly which runs keep counters
  and cap, and shows the others.
- `getAccountBalance` reads a cache that nothing but its migration writes, so it reports zero, and the
  drift guard compares the operator's balance with zero.
- `Settlement` and `SettlementEngine` run the attempts of one retried call directly after each other;
  `SettlementRetries` lets any run of events, single attempts of other calls included, happen in
  between, and `SettlementRuns` has single attempts as events of their own.
- The Redis idempotency store forgets: a placed round blocks for the TTL only, counted from its own
  last write, and a call slower than the TTL does not block at all. Nor does the store compare owners:
  a slow call can rewrite the record of its successor and shorten its life. `IdempotencyExpiry` says
  which writes do so; without one each record lives its time. `Executor` has the in-memory form.
- No migration creates the table daily_entries; its slot numbers are taken as not constrained.
- `InstanceLock` splits every command from its reply: an instance is held until the reply to its
  release is processed, and active while it is held and not being released. Replies may be late.
- The mutex falls back on memory when Redis fails, if it may; then two objects can hold one resource.
- The command limit admits 59 commands in 60 s, not 60 and not 30.
- `isComplete` of the cash-out controller stays false for lost and timed-out bets.
- The throttle's counters do not see sends in flight, and its per-minute check is an average over the
  age of the hour window: either limit can be passed. `ThrottleLimits` and `ThrottleIntervals` say
  exactly which acceptances keep a window's count, or any interval, within a limit, under every policy;
  a pending repetition that its flush will discard does not count.
- The balance check rounds to cents first, so a default tolerance of 0.01 accepts almost 0.015. The
  paging loop takes its baseline from the first listed state with a known balance, not from the
  earliest bet; the aggregate without a snapshot takes it from the newest bet and still adds
  everything ever settled; with one it never sees a bet that was open when the snapshot was taken. A
  failed count of unknown bets reads as zero.
- The aggregate reads a column captured_at that migrations/006_balance_snapshots.sql does not create;
  on that schema its query fails, which the model has as a failed query.
- Both repositories of the source page, so the loop over one that ignores the offset is a guard.
- In `Recovery` the unknown bets of a sweep are the oldest ones, as the in-memory repository returns
  them; the SQL repository returns the newest. No statement depends on that order.
- `Pnl.PnlCalculator.ComputeSummary` splits the source's one loop into two, and `Balance` has one
  method for each kind of repository where the source has one loop with a test inside.

## Model

| member | source | states |
|---|---|---|
| `Journal.BalanceBySlices` | src/settlement/authoritative-settlement-engine.ts:214-228 | the balance of the lines written to an account splits over the orders: every journal line belongs to exactly one order's slice |
| `Journal.SlicesFollowTable` | src/settlement/authoritative-settlement-engine.ts:214-228 | per-order sums of the lines written that agree with the order table row by row add up to the sum over the table |
| `Settlement.OrderContribution` | src/settlement/authoritative-settlement-engine.ts:150-179 | in every branch (open, WIN above, at or below the wager, LOSS, VOID) the lines of one order balance exactly: an open order locks its wager, a settled one moves wallet and realized result by the payout less the wager, a void one by nothing |
| `Settlement.AccountsMatchOrders` | src/settlement/authoritative-settlement-engine.ts:82-86 | UNSETTLED is the sum of open wagers, REALIZED_PNL is the sum of G-W over wins minus W over losses, HOT_WALLET plus UNSETTLED is realized PnL, and every order balances to the unit |
| `SettlementSafety.SettlementWritesClosing` | src/settlement/authoritative-settlement-engine.ts:150-179 | the settlement branches, in particular WIN with gross payout below, at and above the wager, write exactly the closing lines of the final status and are never refused by the CHECKs |
| `SettlementSafety.IntentResult` | src/settlement/authoritative-settlement-engine.ts:50-96 | createOrderIntent in every case: a known id is returned untouched, a negative wager is refused, anything else gets one row and one balanced pair |
| `SettlementSafety.SettleResult` | src/settlement/authoritative-settlement-engine.ts:121-212 | settleOrder in every case; assertBalanced never fires; final orders are left alone; the trigger refuses undispatched orders where it is installed |
| `SettlementSafety.SettleAccepts` | migrations/_deprecated/017_double_entry_settlement.sql:87-120 | a settlement goes through if and only if the client order id is not empty, the payout is not negative, the multiplier is at least 1.0, the order is known and, with the trigger installed, its status is neither ORDER_INTENT nor FAILED |
| `SettlementSafety.SettleIdempotent` | src/settlement/authoritative-settlement-engine.ts:139-142 | settling again changes nothing and reports the order as already final |
| `SettlementSafety.IntentIdempotent` | src/settlement/authoritative-settlement-engine.ts:50-66 | repeating an intent returns the same order id and changes nothing |
| `SettlementSafety.RetryAtMostOnce` | src/utils/retry.ts:113-138 | on tables that nobody else touches, a retried transaction whose repetition is a no-op takes effect once or not at all, whatever aborts, lost acknowledgements and other errors strike; success means once |
| `SettlementSafety.RetriesAbsorbAborts` | src/utils/retry.ts:113-138 | up to four serialization aborts followed by a clean attempt give exactly what the clean attempt gives |
| `SettlementSafety.FiveAbortsFail` | src/utils/retry.ts:113-138 | the fifth aborted attempt is the last: the call fails with that error and changes nothing |
| `SettlementSafety.SettleOrderAtMostOnce` | src/settlement/authoritative-settlement-engine.ts:117-119 | with no other call between its attempts, settleOrder settles at most once under any faults, and a reported success settled |
| `SettlementSafety.CreateOrderIntentAtMostOnce` | src/settlement/authoritative-settlement-engine.ts:46-48 | with no other call between its attempts, at most one intent is recorded under any faults, and a reported success returns the id of that one row |
| `SettlementSafety.SettleFollows` | src/settlement/authoritative-settlement-engine.ts:121-212 | a settlement only moves forward: identities and wagers stay, status ranks never fall, final rows and their lines are frozen, the journal is append-only |
| `SettlementSafety.MarkFollows` | src/settlement/authoritative-settlement-engine.ts:98-112 | both marks only move status ranks forward and leave the journal alone |
| `SettlementSafety.MarkResult` | src/settlement/authoritative-settlement-engine.ts:98-112 | order by order which one a mark moves: only an ORDER_INTENT one becomes DISPATCHED, an open one RECONCILING, and under the trigger one that was never dispatched cannot |
| `SettlementRuns.RunKeeps` | src/settlement/authoritative-settlement-engine.ts:46-241 | over every run of intents, dispatches, marks, settlements and worker items, whole calls and single attempts of interleaved ones, the invariant holds and history only moves forward |
| `SettlementRuns.ReachableAccounts` | src/settlement/authoritative-settlement-engine.ts:46-241 | in every reachable state the account identities hold and each order has exactly one intent pair and, if final, the lines of exactly one settlement, which move each account by the amount its status calls for |
| `SettlementRuns.StepNeedsEvidence` | src/background-workers/settlement-reconciler.ts:76-131 | a step of a worker that makes an order final carries the evidence provider's verdict for that order, and the payout is the reply's, or without one the wager for WIN and VOID and nothing for LOSS |
| `SettlementRuns.FinalOnlyByEvidence` | src/background-workers/settlement-reconciler.ts:58-138 | over any run of workers, intents and marks, an open order that ends final was proved so by decisive evidence with that very status and that very payout |
| `SettlementRuns.BornFinalOnlyByEvidence` | src/settlement/boot-reconcile.ts:27-91 | the same for orders created during the run |
| `SettlementRuns.NoEvidenceNoEntries` | src/background-workers/settlement-reconciler.ts:109-131 | without decisive evidence the workers leave the journal unchanged |
| `SettlementRuns.WinWithoutPayoutIsEven` | src/background-workers/settlement-reconciler.ts:93-95 | a WIN without a payout, for a row with the table's wager, leaves REALIZED_PNL as it was |
| `SettlementRuns.DecisiveItemSettles` | src/background-workers/settlement-reconciler.ts:86-108 | with a verdict, whatever its multiplier, and a payout that is missing or not negative, an item without a fault settles exactly the known orders that the trigger lets become final |
| `SettlementRuns.UndecidedItem` | src/background-workers/settlement-reconciler.ts:109-131 | an item without a verdict changes nothing if the provider threw or the reconciler is still waiting, and otherwise makes an open order RECONCILING, as far as the trigger lets it |
| `SettlementRuns.ReportedBalanceIff` | src/settlement/authoritative-settlement-engine.ts:249-255 | in every reachable state getAccountBalance reports zero, and it reports the journal's balance if and only if that is zero: it reads a cache that nothing writes |
| `SettlementRuns.IntentNotReported` | migrations/_deprecated/017_double_entry_settlement.sql:64-72 | a single intent already moves two accounts while both reported balances stay zero |
| `SettlementRetries.QuietGaps` | src/utils/retry.ts:113-138 | the interleaved retry loop with nothing in between is the retry loop |
| `SettlementRetries.RetryAmongAtMostOnce` | src/utils/retry.ts:113-138 | with any run of other events between the attempts, single attempts of other calls included, a call whose transaction stays done changes the tables at most once; history only moves forward; success is the answer of a transaction on the tables of its moment |
| `SettlementRetries.SettleAmongOthers` | src/settlement/authoritative-settlement-engine.ts:117-119 | among any other calls at most one attempt of settleOrder settles, a reported success leaves the order final, and `settled` means with the call's own verdict and payout |
| `SettlementRetries.IntentAmongOthers` | src/settlement/authoritative-settlement-engine.ts:46-48 | among any other calls at most one attempt of createOrderIntent records an intent, and a reported success returns the id of the one row |
| `SettlementRetries.SettleAmongIsRun` | src/settlement/authoritative-settlement-engine.ts:117-119 | a settlement among other calls is a run of its attempts and of what lies between them, so every run property holds of it |
| `SettlementRetries.IntentAmongIsRun` | src/settlement/authoritative-settlement-engine.ts:46-48 | so is an intent among other calls |
| `DriftGuard.BalanceDriftGuard.BeginCheck` | src/settlement/drift-guard.ts:50-51 | a tripped guard returns at once |
| `DriftGuard.BalanceDriftGuard.EndCheck` | src/settlement/drift-guard.ts:53-82 | the verdict, its delta, the trip and the halt; a failed reading rejects and changes nothing |
| `DriftGuard.BalanceDriftGuard.Evaluate` | src/settlement/drift-guard.ts:86-95 | the direct comparison trips and halts on a tripped guard too |
| `DriftGuard.HaltsOnRemoteAlone` | src/settlement/drift-guard.ts:50-95 | over every run of ledger events, checks and direct comparisons the guard halts exactly as often as a check compared a remote balance further than the threshold from zero, or a caller two balances further apart, whatever the journal says |
| `DriftGuard.GuardAgreesIff` | src/settlement/drift-guard.ts:50-82 | on any reachable tables the guard decides as one that reads the journal would, for every remote balance, if and only if the journal's hot wallet is at zero |
| `DriftGuard.HaltsOnce` | src/settlement/drift-guard.ts:50-95 | where checks do not overlap they halt at most once, beside the alarming direct comparisons, which halt each time |
| `DriftGuard.OverlappingChecksHaltTwice` | src/settlement/drift-guard.ts:50-80 | two overlapping checks can both halt |
| `SettlementEngine.Engine.CreateOrderIntentOnce` | src/settlement/authoritative-settlement-engine.ts:50-96 | one transaction under one fault leaves the tables and the result that the specification gives, rollback included |
| `SettlementEngine.Engine.CreateOrderIntent` | src/settlement/authoritative-settlement-engine.ts:46-48 | the retry loop refines the retrying specification |
| `SettlementEngine.Engine.InsertSettlementLines` | src/settlement/authoritative-settlement-engine.ts:150-179 | the branch that writes the journal lines, insert by insert |
| `SettlementEngine.Engine.Insert` | src/settlement/authoritative-settlement-engine.ts:214-228 | empty lines are skipped, negative and two-sided ones refused, anything else appended |
| `SettlementEngine.Engine.SettleOrderOnce` | src/settlement/authoritative-settlement-engine.ts:121-212 | one settlement transaction, with rollback on every refusal and abort, refines the specification |
| `SettlementEngine.Engine.SettleOrder` | src/settlement/authoritative-settlement-engine.ts:117-119 | the retry loop refines the retrying specification |
| `SettlementEngine.Engine.MarkOrderDispatched` | src/settlement/authoritative-settlement-engine.ts:98-104 | the conditional update to DISPATCHED |
| `SettlementEngine.Engine.MarkOrderReconciling` | src/settlement/authoritative-settlement-engine.ts:106-112 | the conditional update to RECONCILING |
| `SettlementEngine.Engine.Handle` | src/background-workers/settlement-reconciler.ts:76-131 | one row of a worker's batch is the specified item on the tables; what that item does is said by UndecidedItem and DecisiveItemSettles |
| `SettlementEngine.Tick` | src/background-workers/settlement-reconciler.ts:58-138 | a tick processes the selected rows, a batch at most, each by its item, and its counters count exactly the items that ended so |
| `SettlementEngine.BootReconcileOpenOrders` | src/settlement/boot-reconcile.ts:27-91 | open = settled + stillOpen + errors, each the count of the items that ended so; the voided counter stays zero |
| `SettlementEngine.BatchIsRun` | src/background-workers/settlement-reconciler.ts:76-131 | a batch is a run of worker events, so every run property holds of ticks and boot passes |
| `SettlementEngine.OpenRowsSelect` | src/background-workers/settlement-reconciler.ts:68-77 | the SELECT returns, in the order of the table, exactly the orders with the asked statuses that were created before the cutoff |
| `SettlementEngine.BootPassAdvances` | src/settlement/boot-reconcile.ts:46-90 | after a boot pass every selected order is RECONCILING or final unless its item failed |
| `SettlementEngine.BootItemLasts` | src/settlement/boot-reconcile.ts:46-90 | with any run of other calls before and after it, a boot item that did not fail leaves its order RECONCILING or final for good |
| `SettlementEngine.SettledIsFinal` | src/settlement/authoritative-settlement-engine.ts:117-119 | a settle call that reports success leaves its order final |
| `InstanceLock.Lock.SendAcquire` | src/core/instance-lock.ts:55-63 | SET NX PX: granted exactly when no live key exists, and then the key carries the token for a TTL; the reply may come at any later time, or never |
| `InstanceLock.Lock.FinishAcquire` | src/core/instance-lock.ts:64-77 | a granted reply, however late, makes the instance held and starts the heartbeat timer; a refusal changes nothing |
| `InstanceLock.Lock.SendBeat` | src/core/instance-lock.ts:90-103 | renews a key that still carries the token, for a TTL from now, and no other |
| `InstanceLock.Lock.FinishBeat` | src/core/instance-lock.ts:103-113 | a refusal, however late, gives the lock up |
| `InstanceLock.Lock.SendRelease` | src/core/instance-lock.ts:116-134 | stops the timer and deletes the key only if it still carries the token |
| `InstanceLock.OneFreshHolder` | src/core/instance-lock.ts:48-138 | with no timing assumption, and late or lost replies: of two held instances that both renewed within the last TTL one is being released, and one that is not being released owns the live key; unless an instance deleted its key while a granted SET of its own was unanswered |
| `InstanceLock.LateReplyRevives` | src/core/instance-lock.ts:63-70 | that exception is exact: after any such release the late reply makes the instance held again beside another, both renewed and neither being released |
| `InstanceLock.HastyHappens` | src/core/instance-lock.ts:55-70 | such a release is reachable: an instance asks again before its first answer has come |
| `InstanceLock.TimelyMeansExclusive` | src/core/instance-lock.ts:48-138 | if renewals and late replies come in less than the TTL and no release is so hasty, of two held instances one is being released, and the one that is not keeps the key at its next heartbeat |
| `InstanceLock.BeatHoldsForTtl` | src/core/instance-lock.ts:90-103 | after a heartbeat with the key owned, heard or not, the key stays with the instance for a whole TTL, whatever happens, unless it releases it |
| `InstanceLock.AcquireHoldsForTtl` | src/core/instance-lock.ts:55-63 | the same after an acquisition |
| `InstanceLock.BeatsMeanExclusive` | src/core/instance-lock.ts:48-138 | with the timing on the events alone: if every active instance sends a heartbeat, or has acquired, within every interval shorter than the TTL, of two held instances one is being released, and the one that is not owns the live key |
| `InstanceLock.RefusalEndsTheLock` | src/core/instance-lock.ts:103-113 | a heartbeat that finds the key gone or taken, once heard, ends the lock until a SET of the instance is granted |
| `InstanceLock.ReleaseEndsTheLock` | src/core/instance-lock.ts:116-138 | a release that reaches Redis frees the lock for any other instance at once, and once heard ends it for its own |
| `InstanceLock.ReleaseOverlaps` | src/core/instance-lock.ts:116-138 | the exception is real: between the deletion of the key and the end of the release two instances are held, both just renewed |
| `InstanceLock.SlowHeartbeatAllowsTwo` | src/core/instance-lock.ts:80-88 | with heartbeats as slow as the TTL two instances, neither being released, can be held at once, so the bound is exact |
| `InstanceLock.ForeignKeyUntouched` | src/core/instance-lock.ts:90-138 | no event of another instance changes a live key or its owner |
| `InstanceLock.RefreshAndReleaseOwnOnly` | src/core/instance-lock.ts:90-138 | refresh and release leave even a dead key of another token alone |
| `InstanceLock.TakeoverAfterTtl` | src/core/instance-lock.ts:55-78 | after any run, a TTL without renewal lets any instance take over |
| `Executor.KeysCanCollide` | src/betting/idempotency.ts:31-33 | two different session and round pairs can share an idempotency key |
| `Executor.KeysCollideIff` | src/betting/idempotency.ts:31-33 | two different session ids share a key for some rounds if and only if one of them followed by a colon begins the other |
| `Executor.KeysSeparate` | src/betting/idempotency.ts:31-33 | in particular session ids without a colon are told apart whatever the rounds |
| `Executor.RoundsSeparate` | src/betting/idempotency.ts:31-33 | with one session id, keys are equal exactly when the rounds are |
| `Executor.InMemoryIdempotencyStore.Reserve` | src/betting/idempotency.ts:329-344 | a key is reserved exactly when it is not recorded yet |
| `Executor.InMemoryIdempotencyStore.SetStatus` | src/betting/idempotency.ts:346-375 | complete, fail and markUnknown set the status of an existing record and nothing else |
| `Executor.OwnTimeoutRecognised` | src/betting/executor.ts:222-241 | the executor's own timeout message is recognised as one |
| `Executor.MentionsTimeoutIff` | src/betting/executor.ts:239 | a message counts as a timeout exactly if a part of it of nine characters lowers, letter by letter, to "timed out" |
| `Executor.BetExecutor.PlaceBet` | src/betting/executor.ts:59-309 | the retry loop with its side-effect flag computes the specified store, state and counters; a first attempt that is accepted and whose confirmation then throws without the words "timed out" is the only one, and the state is UNKNOWN |
| `Executor.AttemptsStopAtFirst` | src/betting/executor.ts:124-246 | attempts stop at the first reply that is not retryable, or when they run out |
| `Executor.PlacementMeaning` | src/betting/executor.ts:59-309 | in a non-dry call submits = retryCount + 1 <= maxPlacementRetries + 1, and none for a negative limit; UNKNOWN exactly when the last submission was accepted and its confirmation threw a message without the words "timed out"; the record agrees with the result |
| `Executor.SocketHangUpStaysOpen` | src/betting/executor.ts:239-244 | an accepted bet whose confirmation throws "socket hang up" is UNKNOWN after one submission |
| `Executor.NoSubmission` | src/betting/executor.ts:59-110 | a recorded key is refused and a dry run confirmed, both without a submission |
| `Executor.OneAcceptedSubmissionIffNoRetries` | src/betting/executor.ts:205-241 | a call has at most one accepted submission against every adapter if and only if no retries are configured |
| `Executor.RecordedKeysBlock` | src/betting/idempotency.ts:329-344 | in memory, until a cleanup, a recorded key blocks every later call and its record never changes |
| `Executor.AtMostOneCallSubmits` | src/betting/executor.ts:59-309 | of any two calls with one key the later submits nothing |
| `Executor.RecordsAgreeWithResults` | src/betting/executor.ts:59-309 | at the end of any run the record of every admitted call agrees with the state it returned |
| `IdempotencyExpiry.RedisIdempotencyStore.Reserve` | src/betting/idempotency.ts:40-89 | SET NX with the TTL: reserved exactly when no live record exists, and a failure blocks the bet |
| `IdempotencyExpiry.RedisIdempotencyStore.Read` | src/betting/idempotency.ts:108-115 | the record, if it still lives |
| `IdempotencyExpiry.RedisIdempotencyStore.Write` | src/betting/idempotency.ts:117-123 | the record is written back with its status and that status's own expiry, whatever is there by then |
| `IdempotencyExpiry.StepKeepsIff` | src/betting/idempotency.ts:98-219 | from a state in which every record is that of the call it names and every call whose record should live has it, a step keeps this if and only if it is not a foreign write: one that writes back, or over, another call's record |
| `IdempotencyExpiry.StaysHeldIff` | src/betting/idempotency.ts:98-219 | the same over every run: the records stay with their calls in each state if and only if no write is foreign |
| `IdempotencyExpiry.AdmittedIff` | src/betting/idempotency.ts:40-205 | over every run of interleaved calls without a foreign write, however late they write, a call is let through if and only if the record of every earlier call with its key has lapsed: the TTL after a placed bet, the TTL but at most a minute after a failed one, the TTL but at least half an hour after an unknown one |
| `IdempotencyExpiry.AdmittedAreApart` | src/betting/idempotency.ts:40-205 | in such a run the last records of two calls that both submitted for one round never live at the same time, and what the first had written before the second began had lapsed by then |
| `IdempotencyExpiry.OneWritePerCall` | src/betting/idempotency.ts:98-219 | a call's write, or a read that finds nothing, is the last thing it does to the store |
| `IdempotencyExpiry.PromptIsNeverForeign` | src/betting/idempotency.ts:98-205 | a run in which every call writes within the life of its reservation has no foreign write |
| `IdempotencyExpiry.ForeignWriteReopens` | src/betting/idempotency.ts:108-165 | a concrete foreign write: a slow call writes back as FAILED the record of the bet that a second call has placed, and a minute later the placed round is let through again with the rest of its TTL to go |
| `IdempotencyExpiry.PlacedAgainAfterTtl` | src/betting/idempotency.ts:45-58 | one bet per round is not for ever: a TTL after a placed bet the same round is let through again |
| `IdempotencyExpiry.SlowCallOverlaps` | src/betting/idempotency.ts:45-58 | a call slower than the TTL does not block while it is placing: two are placing at once |
| `DailyLedger.InMemoryDailyEntryLedger.ReserveSlot` | src/ledger/in-memory-daily-ledger.ts:62-105 | a reservation succeeds exactly below the cap of its day, and then appends a RESERVED slot numbered after the active ones |
| `DailyLedger.InMemoryDailyEntryLedger.ConfirmSlot` | src/ledger/in-memory-daily-ledger.ts:107-118 | confirms only a RESERVED slot |
| `DailyLedger.InMemoryDailyEntryLedger.ReleaseSlot` | src/ledger/in-memory-daily-ledger.ts:120-130 | releases only a RESERVED slot |
| `DailyLedger.ReferenceLedgerIsExact` | src/ledger/in-memory-daily-ledger.ts:46-130 | in every interleaving the counters equal the slot counts and their sum never exceeds the cap |
| `DailyLedger.StrictKeeps` | src/ledger/in-memory-daily-ledger.ts:107-130 | every operation keeps that, and the clamp at zero never bites |
| `DailyLedger.StrictMeans` | src/ledger/in-memory-daily-ledger.ts:62-130 | slot by slot what an operation does: only the first RESERVED slot of the bet is confirmed or released, and a reservation adds one below the cap |
| `DailyLedger.TransactionalSimulatesReference` | src/ledger/daily-entries.ts:56-241 | on runs with distinct bets whose releases meet reserved or released entries, the transactional ledger is step for step the reference ledger |
| `DailyLedger.TransactionalStepAccuracy` | src/ledger/daily-entries.ts:185-241 | from right counters, a step of the transactional ledger keeps them right if and only if it does not release a CONFIRMED entry while others are reserved |
| `DailyLedger.TransactionalStepIsExactIff` | src/ledger/daily-entries.ts:56-241 | from right counters under the cap, a step keeps both the counters and the cap if and only if it does not drift so |
| `DailyLedger.TransactionalRunIsExactIff` | src/ledger/daily-entries.ts:56-241 | over any run, repeated bet ids included, counters and cap are right in every state if and only if no step drifts |
| `DailyLedger.EveryDriftOverfills` | src/ledger/daily-entries.ts:209-229 | after any drift, reservations alone fill the day to one entry beyond its cap |
| `DailyLedger.LooseStepAccuracy` | src/ledger/daily-entries.ts:538-574 | from right counters, a step of the in-memory twin keeps them right if and only if it neither drifts nor confirms a released entry while others are reserved |
| `DailyLedger.LooseStepIsExactIff` | src/ledger/daily-entries.ts:484-574 | from right counters under the cap, it keeps both if and only if it does not drift and does not confirm a released entry while others are reserved or the cap is confirmed |
| `DailyLedger.LooseRunIsExactIff` | src/ledger/daily-entries.ts:484-574 | the same over any run of the twin |
| `DailyLedger.RevivingHappens` | src/ledger/daily-entries.ts:538-553 | a concrete run in which a released entry is confirmed while another is reserved, and the counter misses that one |
| `DailyLedger.TwinExceedsTheCap` | src/ledger/daily-entries.ts:543-550 | a concrete run that ends with two confirmed entries under a cap of one, every counter right: confirm has no test of the cap |
| `DailyLedger.DriftBreaksTheCap` | src/ledger/daily-entries.ts:209-229 | a concrete run whose drift puts three slots under a cap of two |
| `DailySlots.NumbersIff` | src/ledger/daily-entries.ts:79 | over any run the active entries are numbered from one to their count, each number once, in every state if and only if each release of an active entry meets the highest one and does not drift |
| `DailySlots.EveryGapRepeats` | src/ledger/daily-entries.ts:79 | after any other release that does not drift, the very next reservation repeats the number of an active entry |
| `DailySlots.GapHappens` | src/ledger/daily-entries.ts:79 | such a release is reachable after two reservations |
| `DailyLedger.DailyEntryLedger.Once` | src/ledger/daily-entries.ts:327-353 | one attempt takes effect exactly if it commits |
| `DailyLedger.DailyEntryLedger.Perform` | src/ledger/daily-entries.ts:327-353 | with nothing between its attempts an operation takes effect at most once under any faults, and succeeds exactly if one of the three attempts is clean, every one before it was aborted, and it is not a confirm of a missing or released entry |
| `DailyLedger.RefusedIff` | src/ledger/daily-entries.ts:132-153 | only a confirm is ever refused, and exactly if the bet has no entry or its first one was released |
| `DailyLedger.PerformAmongIsRun` | src/ledger/daily-entries.ts:327-353 | with any operations of others between its attempts, three at most, an operation is a run: theirs before its last attempt, and then its own effect once or not at all; success means once, and no confirm of a missing or released entry |
| `DailyLedger.InMemoryTwin.ConfirmEntry` | src/ledger/daily-entries.ts:538-553 | confirms any entry that is not already CONFIRMED |
| `DailyLedger.InMemoryTwin.ReleaseEntry` | src/ledger/daily-entries.ts:555-574 | releases, subtracting from both counters for a CONFIRMED entry |
| `Async.Mutex.Acquire` | src/utils/async.ts:5-13 | takes a free lock, otherwise queues last: one step of the mutex with its history |
| `Async.Mutex.Release` | src/utils/async.ts:15-22 | hands the lock to the first waiter without opening it: one step of the mutex with its history |
| `Async.MutexIsFifo` | src/utils/async.ts:1-27 | along every run exactly one holder while locked, and grants are a prefix of arrivals |
| `Async.Semaphore.Acquire` | src/utils/async.ts:37-45 | takes a permit or queues |
| `Async.Semaphore.Release` | src/utils/async.ts:47-54 | hands the permit to the first waiter or returns it |
| `Async.PoolIsBounded` | src/utils/async.ts:79-99 | under every schedule, rejections included: permits + holders = concurrency, a waiting body means no free permit, at most `concurrency` bodies run, each done body has its own result |
| `Async.PoolStepKeeps` | src/utils/async.ts:79-99 | every enabled event keeps the invariant and uses up a finite measure |
| `Async.PoolNeverStuck` | src/utils/async.ts:79-99 | with a permit or more some body can always move until all have settled |
| `Async.LaunchProgressesIff` | src/utils/async.ts:79-99 | a launched pool can move if and only if concurrency is at least one |
| `Async.QuietMeansDone` | src/utils/async.ts:79-99 | when nothing can move and nothing rejected, every result is in place |
| `Async.PromisePool` | src/utils/async.ts:79-99 | under any scheduler the pool ends with results[i] = fn(items[i], i) for every item |
| `Sorting.SortSorts` | src/opportunity/ranker.ts:54 | the sort returns a sorted permutation |
| `Sorting.SortStable` | src/opportunity/ranker.ts:54 | elements of equal quality keep their order |
| `Sorting.TakeInsert` | src/opportunity/ranker.ts:54-57 | cutting to the window before an insert loses nothing that would be in the window after it |
| `Ranker.OpportunityRanker.Upsert` | src/opportunity/ranker.ts:40-76 | the in-place upsert computes the specified window and returns the opportunity exactly if it survived |
| `Ranker.OpportunityRanker.EvictExpired` | src/opportunity/ranker.ts:104-112 | the backward splice loop removes exactly the expired entries |
| `Ranker.LiveMembers` | src/opportunity/ranker.ts:104-112 | the entries that stay are exactly those that expire now or later |
| `Ranker.OpportunityRanker.IsApproved` | src/opportunity/ranker.ts:87-93 | approval after eviction, by rank against the cutoff |
| `Ranker.UpsertShape` | src/opportunity/ranker.ts:40-76 | after an accepted upsert: distinct ids, sorted by quality, ranks exactly 1..n, at most windowSize |
| `Ranker.ApprovedIsTopPrefix` | src/opportunity/ranker.ts:87-112 | after any run, stale ranks included, the approved entries are a prefix of the window, best first, whose last one is the best or lies within the top fraction |
| `Ranker.FreshlyApproved` | src/opportunity/ranker.ts:87-93 | with ranks as an accepted insert leaves them, entry i is approved exactly if it is the first or i < n * topFraction |
| `Ranker.WindowIsTopK` | src/opportunity/ranker.ts:40-76 | over distinct unexpired inserts the window is the windowSize best of all qualifying ones |
| `Ranker.TopKBeatsRest` | src/opportunity/ranker.ts:40-76 | those kept and those left out are all the qualifying inserts, and none left out is better |
| `Velocity.VelocityController.Acquire` | src/risk/velocity-controller.ts:43-85 | the method's verdict is the decision on the pruned history |
| `Velocity.VelocityController.Prune` | src/risk/velocity-controller.ts:112-115 | the filter keeps exactly the timestamps of the last hour |
| `Velocity.PruningIsInvisible` | src/risk/velocity-controller.ts:112-115 | the pruned history decides exactly as the full log, down to the wait |
| `Velocity.LimitsHold` | src/risk/velocity-controller.ts:43-105 | over any proper run every minute and every hour hold at most the caps and gaps are at least the minimum interval |
| `Velocity.AllowedIff` | src/risk/velocity-controller.ts:43-85 | on any reachable history an acquire is allowed if and only if fewer than the caps were recorded in the last 60 s and in the last hour, the drawn interval has passed since the last action, and no idle period is inserted |
| `Velocity.DenialMeans` | src/risk/velocity-controller.ts:54-85 | each denial names its cause and its wait: until the first action of the last minute leaves it, a second at least; half a minute; the rest of the interval; the idle period |
| `Velocity.WaitingClearsMinuteDenial` | src/risk/velocity-controller.ts:54-62 | an acquire that waits the time returned by a per-minute denial is not denied for that reason again, for caps of at least one |
| `Velocity.NoCapNoAction` | src/risk/velocity-controller.ts:54-65 | with either cap at zero or less no run ever records an action, however long one waits |
| `Velocity.ActsIffBothCaps` | src/risk/velocity-controller.ts:43-105 | some run acts if and only if both caps are at least one |
| `CommandLimit.RateLimiter.CheckRateLimit` | src/telegram/router.ts:200-216 | one command of one user updates only that user's counter |
| `CommandLimit.AtMostFiftyNine` | src/telegram/router.ts:200-216 | no interval of 60 s contains more than 59 accepted commands |
| `CommandLimit.FiftyNineHappens` | src/telegram/router.ts:200-216 | 59 is reached, within a millisecond, so the bound is exact |
| `CommandLimit.RefusedAfterThirty` | src/telegram/router.ts:200-216 | a command is refused only if 30 were accepted within the 60 s before it |
| `Pnl.PnlCalculator.ComputeSummary` | src/ledger/pnl-calculator.ts:57-138 | the summary: counts partition the bets, netPnl is the final equity, drawdown and streak values as specified |
| `Pnl.PnlCalculator.ComputeStreaks` | src/ledger/pnl-calculator.ts:74-101 | the streak maxima are the longest contiguous runs and the current streaks the trailing ones |
| `Pnl.ComputeDrawdown` | src/ledger/pnl-calculator.ts:171-187 | the one-pass loop computes the running peak and the running largest fall |
| `Pnl.FallToIsMaxDrawdown` | src/ledger/pnl-calculator.ts:171-187 | that value is the maximum of E_i - E_j over all i <= j, with E_0 = 0 |
| `Pnl.PeakToIsPeak` | src/ledger/pnl-calculator.ts:171-187 | the running peak is the highest equity so far, the start included |
| `Pnl.BuildEquityCurve` | src/ledger/pnl-calculator.ts:142-166 | each point carries the equity, the peak so far and the fall from it |
| `Pnl.ComputeDrawdownFromCurve` | src/ledger/pnl-calculator.ts:192-197 | the largest drawdown on the curve and the last one |
| `Pnl.CurveDrawdownIsMaxDrawdown` | src/ledger/pnl-calculator.ts:192-197 | the largest drawdown on the curve is the all-pairs maximum |
| `Pnl.DrawdownBothWays` | src/ledger/pnl-calculator.ts:171-197 | the value from the entries and the value from their curve are equal |
| `Pnl.EquitySplits` | src/ledger/pnl-calculator.ts:74-105 | gross profit plus gross loss is the final equity, and every bet is counted once |
| `Pnl.PnlCalculator.SimulateDryRun` | src/ledger/pnl-calculator.ts:204-221 | a non-empty dry run nets exactly n times the expected value at its hit rate |
| `Pnl.PnlCalculator.MixedIsExpected` | src/ledger/pnl-calculator.ts:50-52 | wins at the win profit and losses at the stake add up to n times the expected value |
| `CashOut.CashOutController.HandleTick` | src/betting/cashout.ts:161-183 | a tick triggers once, at or over the target, unless resolved or aborted |
| `CashOut.CashOutController.HandleCrash` | src/betting/cashout.ts:226-262 | a crash loses the bet unless it is resolved or a cash-out is in flight |
| `CashOut.CashOutController.HandleReply` | src/betting/cashout.ts:293-306 | the reply to the request continues or fails the execution |
| `CashOut.CashOutController.HandleConfirmation` | src/betting/cashout.ts:184-221 | the outcome is delivered once; late outcomes are ignored |
| `CashOut.CashOutController.HandleSafetyTimeout` | src/betting/cashout.ts:266-281 | the timeout resolves what is still open as unknown |
| `CashOut.EveryRun` | src/betting/cashout.ts:150-282 | for every interleaving: at most one request and one verdict, a cash-out was triggered at or over the target, a lost bet sent no request, and isComplete holds exactly for CASHED_OUT and FAILED verdicts |
| `CashOut.VerdictsStand` | src/betting/cashout.ts:154-158 | a delivered verdict never changes |
| `CashOut.TimeoutResolves` | src/betting/cashout.ts:266-281 | any run with the timeout has exactly one verdict |
| `CashOut.RequestedIff` | src/betting/cashout.ts:161-183 | a request leaves if and only if some tick reaches the target before any abort, crash or timeout, and that tick's multiplier is recorded |
| `CashOut.LostIff` | src/betting/cashout.ts:226-262 | the bet is lost if and only if a crash comes with no timeout and no request before it |
| `CashOut.CashedOutIff` | src/betting/cashout.ts:184-207 | the bet is cashed out if and only if the request was accepted and the first confirmation after that is a success before the timeout, whatever crashes and aborts come between |
| `CashOut.CashesOut` | src/betting/cashout.ts:187-200 | such a confirmation delivers its own multiplier and profit, zero if absent |
| `CashOut.FailedIff` | src/betting/cashout.ts:201-224 | the bet fails if and only if the request was refused or threw, or the first confirmation of its acceptance was no success or threw, before the timeout |
| `CashOut.Fails` | src/betting/cashout.ts:201-224 | such an event delivers its own error |
| `CashOut.UnknownIff` | src/betting/cashout.ts:266-282 | the verdict is unknown if and only if the first timeout finds the bet unsettled |
| `CashOut.VerdictsPartition` | src/betting/cashout.ts:161-283 | the four conditions exclude each other, and one of them holds exactly when the bet is resolved |
| `Notifications.Deduplicate` | src/telegram/throttle.ts:236-249 | the loop with its seen set computes the specified result |
| `Notifications.DedupKeepsFirsts` | src/telegram/throttle.ts:236-249 | what stays is exactly the first of each key, in order of arrival |
| `Notifications.DedupIdempotent` | src/telegram/throttle.ts:236-249 | removing duplicates twice is removing them once |
| `Notifications.DedupCoversKeys` | src/telegram/throttle.ts:236-249 | every submitted key is still represented |
| `Notifications.KeysCanCollide` | src/telegram/throttle.ts:241 | two different messages can share a key, and then the second is discarded |
| `Notifications.TitlesCollideIff` | src/telegram/throttle.ts:241 | within one category two different titles share a key for some messages if and only if one of them followed by a colon begins the other |
| `Notifications.CategoriesSeparate` | src/telegram/throttle.ts:241 | different categories, and different messages under one title, never share a key |
| `Notifications.KeysSeparate` | src/telegram/throttle.ts:241 | in particular, with titles free of colons, keys agree exactly when category, title and message do |
| `Throttle.MinuteLimitIsAnAverage` | src/telegram/throttle.ts:200-234 | the per-minute check passes if and only if there is room beside what is pending and, after a recent send, the count is within that room for every minute of the hour window's age |
| `Throttle.SubmitMeans` | src/telegram/throttle.ts:57-97 | a submission is dropped exactly if the engine is stopped, has no policy for it, or it is not critical and a limit leaves no room; else it is sent at once with what is pending, or waits behind a timer |
| `Throttle.ThrottleEngine.CheckRateLimit` | src/telegram/throttle.ts:200-224 | resets a lapsed window and tests both limits |
| `Throttle.ThrottleEngine.SubmitNotification` | src/telegram/throttle.ts:57-97 | one submission up to its first await computes the specified state |
| `Throttle.ThrottleEngine.BeginFlush` | src/telegram/throttle.ts:172-185 | one flush up to its await takes everything pending into one batch |
| `Throttle.ThrottleEngine.FinishSend` | src/telegram/throttle.ts:136-198 | the transport's answer: delivered, raised to the submitter, or dropped |
| `Throttle.ThrottleEngine.TimerFires` | src/telegram/throttle.ts:152-170 | a live timer clears itself and flushes |
| `Throttle.ThrottleEngine.StopEngine` | src/telegram/throttle.ts:111-123 | stop clears every timer and drops everything pending |
| `Throttle.ReachableAccounts` | src/telegram/throttle.ts:57-198 | in every reachable state, sends in flight and stop included, every copy is in exactly one of delivered, dropped, raised, duplicate, pending or in flight; pending non-immediate notifications have a live timer; batches stay within both limits |
| `Throttle.FinishMeans` | src/telegram/throttle.ts:136-198 | a successful batch is delivered and counted in its window, a failed critical one raised, any other failed one dropped |
| `Throttle.StoppedStaysQuiet` | src/telegram/throttle.ts:111-123 | after a stop nothing starts, whatever follows: all later deliveries were in flight |
| `Throttle.NothingStartsAfterStop` | src/telegram/throttle.ts:111-123 | whatever follows a stop, what is delivered later was in flight when it came |
| `ThrottleLimits.StepMoves` | src/telegram/throttle.ts:57-198 | what each event does to a window's count and to what a flush would send or is in flight |
| `ThrottleLimits.HourlyLimitHolds` | src/telegram/throttle.ts:200-224 | if with every accepted submission the load (count, what a flush would send, and in flight) fits the limit, no window ever counts more deliveries than it, overlapping sends included |
| `ThrottleLimits.LoadStaysIff` | src/telegram/throttle.ts:200-224 | the load stays within the limit in every state of a run if and only if it does so with every accepted submission |
| `ThrottleLimits.HourlyLimitIff` | src/telegram/throttle.ts:200-224 | for every policy, with or without duplicate removal, what is already accepted can push a window's count over a limit if and only if the load is over it |
| `ThrottleLimits.LoadIsCounted` | src/telegram/throttle.ts:172-198 | a flush and successful sends count the whole load within the same window |
| `ThrottleLimits.NoOverlapIsUnderLoad` | src/telegram/throttle.ts:209-222 | the engine's own check suffices where no submission overlaps a send of its severity |
| `ThrottleLimits.OverlapPassesHourLimit` | src/telegram/throttle.ts:209-222 | with an overlap a limit of one lets two through |
| `ThrottleIntervals.IntervalsBounded` | src/telegram/throttle.ts:211-234 | if with every accepted submission the recent deliveries, what a flush would send and in flight fit the limit, no interval of the width, a minute or any other, holds more deliveries than it |
| `ThrottleIntervals.RecentStaysIff` | src/telegram/throttle.ts:211-234 | that recent load stays within the limit along a run if and only if it does so with every accepted submission |
| `ThrottleIntervals.IntervalLimitIff` | src/telegram/throttle.ts:211-234 | for every policy, what is already accepted can push some interval over the limit if and only if the recent load is over it |
| `ThrottleIntervals.BurstPassesMinuteLimit` | src/telegram/throttle.ts:226-234 | a concrete run without any overlap delivers three within one millisecond under a limit of two a minute |
| `DistributedMutex.Mutex.Send` | src/core/distributed-mutex.ts:140-149 | the SET of an attempt, granted exactly for a free or expired resource; without Redis the whole attempt in memory |
| `DistributedMutex.Mutex.Hear` | src/core/distributed-mutex.ts:149-172 | its reply, however late: a handle, a refusal, or after a failure the fallback where it is allowed |
| `DistributedMutex.Mutex.TryAcquireLocal` | src/core/distributed-mutex.ts:175-202 | the local table grants exactly a free or expired resource |
| `DistributedMutex.Mutex.Contend` | src/core/distributed-mutex.ts:125-134 | a contended attempt with its metrics: another try or the failure of the call |
| `DistributedMutex.Mutex.Release` | src/core/distributed-mutex.ts:194-228 | compare and delete, with the metric of each backend |
| `DistributedMutex.AtMostOnePerTable` | src/core/distributed-mutex.ts:113-229 | in every reachable state, late and lost replies and fallbacks included, at most one handle of a resource is unexpired and unreleased in the Redis table and in each object's own |
| `DistributedMutex.ExclusiveIff` | src/core/distributed-mutex.ts:113-202 | at most one handle of each resource is active in every run if and only if the fallback is off, or no lease lasts or no attempt is made |
| `DistributedMutex.FallBacksOverlap` | src/core/distributed-mutex.ts:154-172 | the run that shows it: two objects whose Redis does not answer both grant the resource |
| `DistributedMutex.ReleaseSparesOthers` | src/core/distributed-mutex.ts:194-228 | releasing any handle, lapsed or not, leaves every other active handle and its lease in place |
| `DistributedMutex.ReleaseFrees` | src/core/distributed-mutex.ts:194-228 | releasing an active handle frees the resource: the next attempt in the same table gets it at once, for a whole lock timeout |
| `MutexMetrics.MetricsAddUp` | src/core/distributed-mutex.ts:113-134 | acquisitions + failures = completed calls, each failure saw retryCount + 1 contended attempts, local releases never exceed acquisitions |
| `MutexMetrics.RedisCountsRepeatedReleases` | src/core/distributed-mutex.ts:208-227 | the Redis form counts a repeated release again though it frees nothing |
| `UnknownRecovery.UnknownStateRecovery.RecoverBet` | src/ledger/unknown-state-recovery.ts:124-168 | a bet is settled exactly when its round is on record and the provider gives a status, and then as the provider says |
| `UnknownRecovery.UnknownStateRecovery.RecoverEach` | src/ledger/unknown-state-recovery.ts:102-106 | the loop settles the listed bets one after the other and counts those it settled |
| `UnknownRecovery.UnknownStateRecovery.RecoverAll` | src/ledger/unknown-state-recovery.ts:102-106 | the loop changes exactly the confirmed bets and the unknown count falls by the number resolved |
| `UnknownRecovery.UnknownStateRecovery.RunRecoverySweep` | src/ledger/unknown-state-recovery.ts:92-122 | resolved + stillUnknown = total for each completed, non-reentrant sweep; a reentrant one reports nothing and changes nothing |
| `UnknownRecovery.UnknownStateRecovery.ManualResolve` | src/ledger/unknown-state-recovery.ts:178-219 | an operator can settle exactly the unknown bets |
| `UnknownRecovery.OnlyEvidenceSettles` | src/ledger/unknown-state-recovery.ts:124-168 | a bet leaves the unknown state only with the status the provider gave for it; a lost one then books its stake, a failed one nothing, a cash-out the stake times the multiplier less the stake to half a cent |
| `UnknownRecovery.EvidenceSettlesIff` | src/ledger/unknown-state-recovery.ts:124-168 | a swept unknown bet is settled if and only if its round is on record, the provider answers with a status and the update goes through |
| `Balance.AddPagedState` | src/ledger/balance-reconciliation.ts:205-230 | the paging loop reads each row of a state once, up to the safety stop |
| `Balance.AddUnpagedState` | src/ledger/balance-reconciliation.ts:205-230 | over a repository that ignores the offset a full first page is added 1001 times |
| `Balance.PagesSumEverything` | src/ledger/balance-reconciliation.ts:168-245 | with paging the total is the profit and loss of every settled bet, up to 1,001,000 bets per state |
| `Balance.UnpagedTotal` | src/ledger/balance-reconciliation.ts:205-230 | without paging the total is right below a page, and from a page on the rest of the state does not matter |
| `Balance.PagesStop` | src/ledger/balance-reconciliation.ts:221-228 | beyond 1,001,000 bets of one state the paging loop stops, and the rest is not counted |
| `Balance.ComputeExpectedBalance` | src/ledger/balance-reconciliation.ts:168-245 | the expected balance is within half a cent of the snapshot plus the profit and loss settled since, of the newest known balance plus all of it, or with paging of the first listed known balance plus all of it; without any known balance it is the observed one |
| `Balance.NothingKnownExpects` | src/ledger/balance-reconciliation.ts:195-198 | without any known balance the expected balance is the observed one, or zero |
| `Balance.SnapshotIsExactIff` | src/ledger/balance-reconciliation.ts:173-199 | with a snapshot of the true balance the aggregate misses exactly the bets that were open at the capture and have been settled since, and it is right if and only if those net to nothing |
| `Balance.SnapshotMissesOpenBet` | src/ledger/balance-reconciliation.ts:188-197 | a bet open at a snapshot of 100 that then wins 5: the aggregate gives 100, the account holds 105 |
| `Balance.NoSnapshotIsExactIff` | src/ledger/balance-reconciliation.ts:173-199 | without a snapshot the aggregate is right if and only if what was settled by the time of the newest bet with a known balance nets to nothing: it is counted twice |
| `Balance.NoSnapshotCountsTwice` | src/ledger/balance-reconciliation.ts:178-191 | a concrete history of which the aggregate expects 110 where the account holds 105 |
| `Balance.PagingIsExactIff` | src/ledger/balance-reconciliation.ts:201-245 | the paged loop is right if and only if what was settled by the time of the bet it starts from nets to nothing |
| `Balance.BaselineIsEarliestIff` | src/ledger/balance-reconciliation.ts:217-219 | the baseline is the earliest settled bet's exactly when no bet of an earlier listed state has a known balance |
| `Balance.BaselineCanBeLater` | src/ledger/balance-reconciliation.ts:160-168 | a concrete history whose baseline is not the earliest |
| `Balance.MatchesIff` | src/ledger/balance-reconciliation.ts:113-114 | the default tolerance of 0.01 after rounding accepts differences from -0.015 up to but excluding 0.015 |
| `Balance.MatchesTruth` | src/ledger/balance-reconciliation.ts:113-114 | against the sum the expected balance stands for, anything within 0.01 matches and anything further than 0.02 does not |
| `Balance.BalanceReconciliation.Reconcile` | src/ledger/balance-reconciliation.ts:84-159 | an observed balance within 0.01 of that sum matches and one further than 0.02 does not, at the default tolerance; reconciled exactly when it matches and the count query reported no unknown bet; mismatches in a row are counted |
| `Recovery.RecoveryManager.RunRecovery` | src/core/recovery-manager.ts:114-227 | for every configuration the halt clears if and only if no step failed and, where it is asked for, every bet swept was confirmed, the balance is within tolerance and the count reported zero; by default zero bets are then unknown if and only if the count query succeeded or the sweep could take them all, which is none while another sweep is running |
| `Recovery.ResumesWithUnknownLeft` | src/ledger/balance-reconciliation.ts:250-256 | a concrete case: a failed count query lets betting resume with one bet unknown |
| `Recovery.ResumesDuringAnotherSweep` | src/ledger/unknown-state-recovery.ts:92-95 | a concrete case with another sweep running: one unknown bet is left |
| `Recovery.RecoveryManager.ForceResume` | src/core/recovery-manager.ts:231-247 | resumes exactly with operator, a reason that is not blank, a successful count and zero unknown bets; a failed event does not undo it |
| `Latency.LatencyTracker.Record` | src/observability/latency-tracker.ts:36-41 | the window is always the last windowSize samples |
| `Latency.LatencyTracker.GetStats` | src/observability/latency-tracker.ts:43-79 | p50 <= p95 <= p99 <= max, all from the window; each percentile exceeds a threshold exactly when more than the complementary share of the samples does; min <= mean <= max |
| `Latency.LatencyTracker.ShouldSkipBet` | src/observability/latency-tracker.ts:81-83 | true exactly when there are samples and more than one in a hundred exceeds the critical threshold |
| `Latency.PercentileExceeds` | src/observability/latency-tracker.ts:60-63 | the p-th nearest-rank percentile exceeds a threshold exactly when more than (100 - p) percent of the samples do |
| `DayBoundary.Refine` | src/utils/day-boundary.ts:45-55 | the refinement ends within 1000 ms after exactly ten halvings |
| `DayBoundary.GetNextDayBoundaryMs` | src/utils/day-boundary.ts:33-65 | the result is later than the input; if the key changes at one of the hundred quarter hours after it, the result has another key, lies within the first changed quarter hour, after its start and not after its end, and within 1000 ms of an instant with the input's key; a single change at b gives b <= result < b + 1000; with no change it is the next UTC midnight |
| `DayBoundary.MsUntilDayBoundary` | src/utils/day-boundary.ts:81-86 | the remaining time is positive and ends within a second after a single boundary |

## Left out

- Browser automation, Telegram transport and formatting, wiring, metrics export: no provable core.
- Postgres and Redis internals: transactions are atomic and serializable, SET NX PX and the scripts
  are atomic with expiry. A Redis command is executed before its failure is reported, or never.
- DistributedMutex: its average latency.
- DriftGuard: the poll timer and the bus event; the halt callback is counted.
- IEEE rounding: money is exact, and percentile ranks and rate estimates use exact ceilings.
- Executor: the timeout pattern matches a fixed text without regard to case, and delays between
  attempts are not modelled; release, clear and the cleanup of the in-memory store, which drops
  records five minutes old, are not part of the run.
- Velocity.VelocityController.Acquire: waitUntilAllowed, which only repeats it, is not modelled.
- Ranker: top and size only read the window.
- Pnl.PnlCalculator.ComputeSummary: averages of wins and losses and the break-even rate are divisions of values it states.
- CashOut: native auto cash-out before the round and the buffer setting that the code never reads.
- Throttle: the policy list is a map by severity, in which a later policy of one severity replaces
  an earlier one; flushAll is a sequence of single flushes; the wording of drop reasons.
- Balance: creation times are positions in the list of bets, for the aggregate's snapshot too.
- Recovery.RecoveryManager.ForceResume: blank reasons are recognised over ASCII white space.
- Recovery: bets that change between the steps of one recovery, and an overlapping second recovery.
- DayBoundary: the rendering of day keys by time zone; any function from instants to keys is covered.
- CircuitBreaker and calculateDelay in src/utils/retry.ts: small bodies that state themselves.
- Prediction, analytics, risk configuration, histograms: floating-point statistics or flat conditions.

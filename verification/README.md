# Gateway money path: a verified model

This project models, in Dafny, the parts of the LLM gateway that decide who may spend what, and proves what they keep.

* **Budget ledger.** `Ledger.dfy` is the abstract ledger of one organization: rows, running totals, and four effects
  (hold, book, return, expire). `SqlLedger.dfy` is the PostgreSQL ledger with each operation as one transaction, as
  functions and as a class that does it in place; `SqlConcurrency.dfy`, `SqlInterleavings.dfy`, `SqlSerial.dfy` and
  `SqlSolo.dfy` are the same ledger statement by statement, with row, key and budget locks, aborts and process death
  anywhere; `SqlReplay.dfy` and `SqlOvertaking.dfy` say exactly which schedules are their operations one after the other,
  `SqlLateSettlement.dfy` and `SqlDeadlock.dfy` what a late settlement and a re-hold do to each other.
  `InMemoryLedger.dfy` is the single-process ledger, and `LedgerParity.dfy` says exactly how far the two agree.
* **Requests.** `SharedLedger.dfy` puts one request's transactions among everybody else's; `ReservationService.dfy`,
  `OwnTransactions.dfy`, `InferenceCoordinator.dfy`, `Reflection.dfy` and `Streaming.dfy` are the budget gate, the unary
  request, the retry loop and the streamed request, over `ResponseCache.dfy`, `Accounting.dfy` and `InMemoryClient.dfy`;
  `RequestOutcomes.dfy` says what the gate, a whole request and the opening of a stream are answered, told from the
  tables, the prices and the provider's own words.
  `Deduplicator.dfy` is the event loop of one process in which duplicates of a request share one execution.
* **Rate limits.** `TokenBucket.dfy` and `SharedBuckets.dfy`: the in-process bucket, the shared bucket with key expiry,
  and the degraded fallback that combines them.
* **SQL scripts.** `SqlLexer.dfy`, `SqlSplitter.dfy`, `SqlRoundTrip.dfy`, `SqlComments.dfy` and `SqlQuoting.dfy`: the
  five lexical states, the splitter loop, printing and splitting again, the comment-only filter, and what each kind of
  quote and comment is read as.
* **Routing.** `CircuitBreaker.dfy` and `Routing.dfy`: the breaker, the agent chain as wired, and the engine.
* **Audit.** `AuditChain.dfy` and `AuditConcurrency.dfy`: the hash chain and its concurrent appenders.

Money is counted in units of 10^-8 of a currency, time in whole clock units for the ledger, cache and breaker and in
real seconds for the buckets. Clocks, prices, provider answers, outages, cancellations and the transactions of other
requests are parameters: every statement holds for all of them. An exception of the program is a result value.

Where the code and what is written about it part, the model follows the code:

* A half-open circuit is not limited to one probe: every look reports it until a success or a transient fault is
  observed (`CircuitBreaker.HalfOpenUntilAnOutcome`).
* Re-activating a released or expired row keeps its first `created_at`, so the age of a re-held row is not the age of
  its hold (`LedgerParity.ReholdAge`).
* `reserve` reads the existing row without locking it, so a late settlement can commit and be overwritten by the
  re-hold; the running total of holds survives that, the agreement of spending with the cost ledger does not
  (`SqlLateSettlement.LateSettlementCanBeOverwritten`). It happens exactly when a settlement commits between the read
  and the commit of a reserve of its id (`SqlOvertaking.CleanExactlyUnlessOvertaken`).
* A re-hold of an expired id locks the budget row and then the reservation, a late settlement of it locks them in the
  other order: the two can wait for each other until one is aborted, and no other wait is circular
  (`SqlDeadlock.DeadlockIsExactlyAClash`).
* The two ledgers disagree on settling a released id, on a sweep that finds a stale row locked or falls between the two
  ages of a re-hold, and an organization without a budget drifts in memory
  (`LedgerParity.ParityExactlyWithoutDivergence`, `InMemoryLedger.UnbudgetedDrift`).
* A request repeated under an id that already paid calls the provider again; it reports a cost but is not charged
  (`InferenceCoordinator.AloneARequestSpendsWhatItReturns`).
* The comment-only filter is not a lexer: it can drop code (`SqlComments.CodeBetweenCommentedMarkersIsDropped`,
  `SqlComments.CodeSplicedIntoACommentIsDropped`), exactly when code stands where it does not look
  (`SqlComments.NothingExecutableIsDropped`).
* The separator of the audit digest is said to appear in no field. The sink takes any action, and
  `AuditChain.MisreadExactly` says which actions can be read in two ways; every caller passes a literal without a
  separator, so no row the program writes is one of them. The precise rejection reason is stored beside the chain, not
  in it (`AuditChain.RejectionReasonIsNotChained`).
* A stream cancelled while it is being opened runs no safeguard: a hold already granted waits for the sweep
  (`Streaming.InterruptedOpeningsLeaveAHold`).

## Model

| member | source | states |
|---|---|---|
| Ledger.ReservedIsSumOfLiveHolds | backend/src/gateway/adapters/ledger/sql_budget_ledger.py:130-488 | over every run of holds, settlements, releases and sweeps, `reserved` is the sum of the estimates of the live holds |
| Ledger.HoldsReturnedOnce | backend/src/gateway/adapters/ledger/sql_budget_ledger.py:310-400 | every hold ever taken on an id is either still live or was given back exactly once |
| Ledger.LimitPlusOverrun | backend/src/gateway/adapters/ledger/in_memory_budget_ledger.py:119-158 | spending plus holds never pass the limit by more than the sum of what settlements cost beyond their live hold |
| Ledger.CoveredRunsKeepTheLimit | backend/src/gateway/adapters/ledger/in_memory_budget_ledger.py:119-158 | when every settlement finds its hold live and costs no more than it, spending plus holds never pass the limit |
| Ledger.SettledOnce | backend/src/gateway/adapters/ledger/sql_budget_ledger.py:300-356 | a settled id stays settled and is booked at most once, exactly once if it ends settled without having begun so |
| Ledger.SpentIsRecordedPlusUnrecorded | backend/src/gateway/adapters/ledger/sql_budget_ledger.py:315-356 | over any run at all, spending grows by the cost rows added plus exactly the bookings the cost ledger refused |
| Ledger.SpentIsTheCostLedger | backend/src/gateway/adapters/ledger/sql_budget_ledger.py:315-356 | when no hold lands on a settled row, spending grows by exactly the cost rows, one per settled id |
| SqlLedger.RunsAreLedgerRuns | backend/src/gateway/adapters/ledger/sql_budget_ledger.py:130-488 | every run of whole transactions is a legal, clean, non-negative run of the abstract ledger with the same tables |
| SqlLedger.StepKeepsConsistent | backend/src/gateway/adapters/ledger/sql_budget_ledger.py:130-488 | each transaction keeps `reserved` the sum of live holds, estimates non-negative, and one cost row per settled id |
| SqlLedger.FloorNeverFires | backend/migrations/sql/0006_budget_ledger.sql:25 | the table's floor of zero on `reserved` never aborts a transaction, however late a settlement comes |
| SqlLedger.SpendingIsBookedOnce | backend/src/gateway/adapters/ledger/sql_budget_ledger.py:300-356 | through replay, expiry, re-hold and late settlement, spending is its start plus the new cost rows, and old cost rows stay |
| SqlLedger.RunStaysWithinLimitPlusOverrun | backend/src/gateway/adapters/ledger/sql_budget_ledger.py:223-234 | the guarded update keeps every run within the limit plus the recorded overrun, and within the limit if all is covered |
| SqlLedger.ReserveIsIdempotent | backend/src/gateway/adapters/ledger/sql_budget_ledger.py:168-183 | a repeated reserve of a held id answers as before and holds nothing more |
| SqlLedger.RowsMoveOnlySo | backend/src/gateway/adapters/ledger/sql_budget_ledger.py:130-488 | the whole life of a row: it becomes held, settled, released or expired exactly by a reserve that fits, a settlement in its currency, a release of a live hold, or a sweep that finds it old enough and not locked |
| SqlLedger.RowsKeepTheirTerms | backend/src/gateway/adapters/ledger/sql_budget_ledger.py:118-128 | a row keeps its first stamp for ever and its estimate until it is held again |
| SqlLedger.AnswersTellTheTables | backend/src/gateway/adapters/ledger/sql_budget_ledger.py:90-488 | each answer told from the tables it leaves: granted exactly if the id is then live or settled, at that estimate; refused with the very room that is left; a currency refused exactly where amounts could not be added; a sweep counts the rows it changed |
| SqlLedger.AmountsStayInOneCurrency | backend/src/gateway/adapters/ledger/sql_budget_ledger.py:214-218 | after any run the rows of a budgeted organization are in its currency, and nothing is settled in another |
| SqlLedger.SqlBudgetLedger.Reserve | backend/src/gateway/adapters/ledger/sql_budget_ledger.py:90-266 | the method leaves the tables the transaction specification leaves and gives its answer; an outage changes nothing |
| SqlLedger.SqlBudgetLedger.Settle | backend/src/gateway/adapters/ledger/sql_budget_ledger.py:268-366 | the same for settlement, late or not |
| SqlLedger.SqlBudgetLedger.Release | backend/src/gateway/adapters/ledger/sql_budget_ledger.py:368-418 | the same for release |
| SqlLedger.SqlBudgetLedger.ReconcileExpired | backend/src/gateway/adapters/ledger/sql_budget_ledger.py:420-488 | the same for the sweep |
| SqlLedger.TotalEstimate | backend/src/gateway/adapters/ledger/sql_budget_ledger.py:460-488 | the amount a sweep gives back is the sum of its rows' estimates, whatever their order |
| SqlInterleavings.CommitIsOneEffect | backend/src/gateway/adapters/ledger/sql_budget_ledger.py:130-488 | at commit, what a transaction's statements staged is nothing or one legal effect on the tables as they are then |
| SqlInterleavings.NoInterleavingReturnsAHoldTwice | backend/src/gateway/adapters/ledger/sql_budget_ledger.py:420-488 | under every schedule of statements, locks, aborts and lost processes, `reserved` stays the sum of live holds and no hold is returned twice |
| SqlInterleavings.NoInterleavingPassesTheLimitUnrecorded | backend/src/gateway/adapters/ledger/sql_budget_ledger.py:223-234 | under every schedule, spending plus holds stay within the limit plus the recorded overrun |
| SqlInterleavings.SpendingUnderEveryInterleaving | backend/src/gateway/adapters/ledger/sql_budget_ledger.py:300-356 | under every schedule, spending is the cost rows plus what they refused; nothing is refused if no hold lands on a settled row |
| SqlSerial.CommitsSerially | backend/src/gateway/adapters/ledger/sql_budget_ledger.py:130-488 | a commit does what the whole operation would decide at that moment; a reserve exactly when its row was not settled meanwhile |
| SqlReplay.SchedulesReplayExactly | backend/src/gateway/adapters/ledger/sql_budget_ledger.py:130-488 | a schedule's committed operations, run whole one after the other in commit order, leave its tables, effects and answers exactly if no hold landed on a settled row; a sweep is one that skipped what it did not take |
| SqlReplay.StretchesReplay | backend/src/gateway/adapters/ledger/sql_budget_ledger.py:130-488 | the same of any stretch of a schedule, whoever is still open at its ends: it is a run of whole transactions between two moments of a request |
| SqlOvertaking.CleanExactlyUnlessOvertaken | backend/src/gateway/adapters/ledger/sql_budget_ledger.py:151-366 | no hold lands on a settled row, and the schedule replays, exactly if no settlement commits between the read and the commit of a reserve of the same id |
| SqlSolo.AloneEveryOperationEndsAsDecided | backend/src/gateway/adapters/ledger/sql_budget_ledger.py:90-488 | any operation whose locks are free, granted, replayed or refused, has a run of its own statements that ends with the effect and answer of the one-transaction specification and every lock as it was |
| SqlDeadlock.DeadlockIsExactlyAClash | backend/src/gateway/adapters/ledger/sql_budget_ledger.py:130-366 | in every reachable state transactions wait in a circle exactly if a re-hold of an expired id has charged the budget while a late settlement of that id has its row |
| SqlDeadlock.ClashLastsForEver | backend/src/gateway/adapters/ledger/sql_budget_ledger.py:130-366 | whatever others do, both stay blocked until one of the two is aborted |
| SqlDeadlock.ClashCanHappen | backend/src/gateway/adapters/ledger/sql_budget_ledger.py:130-366 | a schedule that gets there from the table of one expired hold |
| SqlLateSettlement.LateSettlementCanBeOverwritten | backend/src/gateway/adapters/ledger/sql_budget_ledger.py:151-183 | one schedule in which a settlement between the unlocked read and the re-hold makes spending 16 and the cost ledger 7 |
| InMemoryLedger.MemRunsKeepTheBooks | backend/src/gateway/adapters/ledger/in_memory_budget_ledger.py:87-193 | for a budgeted organization every run keeps `reserved` the sum of live holds and the limit up to the overrun |
| InMemoryLedger.FreshLedgersBalance | backend/src/gateway/adapters/ledger/in_memory_budget_ledger.py:55-87 | an organization never seen starts with books that balance, nothing held and nothing spent |
| InMemoryLedger.ReservationsMoveOnlySo | backend/src/gateway/adapters/ledger/in_memory_budget_ledger.py:87-193 | the whole life of a reservation, with or without a budget: held, settled, released and expired exactly by these operations, anything but a settled id being settled; spending moves by settlements alone |
| InMemoryLedger.UnbudgetedDrift | backend/src/gateway/adapters/ledger/in_memory_budget_ledger.py:108-117 | without a budget `reserved` falls behind the live holds by all the run held, and equals them exactly if that is nothing |
| InMemoryLedger.InMemoryBudgetLedger.Reserve | backend/src/gateway/adapters/ledger/in_memory_budget_ledger.py:87-138 | the method moves one organization's ledger as specified and nobody else's |
| InMemoryLedger.InMemoryBudgetLedger.Settle | backend/src/gateway/adapters/ledger/in_memory_budget_ledger.py:140-158 | the same for settlement |
| InMemoryLedger.InMemoryBudgetLedger.Release | backend/src/gateway/adapters/ledger/in_memory_budget_ledger.py:160-172 | the same for release |
| InMemoryLedger.InMemoryBudgetLedger.ReconcileExpired | backend/src/gateway/adapters/ledger/in_memory_budget_ledger.py:174-193 | the same for the sweep |
| InMemoryLedger.ExpireAll | backend/src/gateway/adapters/ledger/in_memory_budget_ledger.py:184-193 | expiring holds one by one, in any order, gives back the sum of their estimates and touches no other row |
| LedgerParity.ParityExactlyWithoutDivergence | backend/src/gateway/adapters/ledger/in_memory_budget_ledger.py:140-158 | the two ledgers answer alike and stay alike on an operation exactly when it is not a settlement of a released id or a sweep that takes different rows: between two ages, or past a locked one |
| LedgerParity.SettlingAReleasedId | backend/src/gateway/adapters/ledger/in_memory_budget_ledger.py:140-158 | where they part over a settlement: in memory a released id is settled and its cost spent, the tables do not know it any more and stay as they are |
| LedgerParity.LedgersSimulateEachOther | backend/src/gateway/adapters/ledger/in_memory_budget_ledger.py:87-193 | ledgers that start alike answer alike on every run that meets neither exception |
| LedgerParity.ReclaimIsExact | backend/src/gateway/adapters/ledger/in_memory_budget_ledger.py:174-193 | a sweep expires exactly the live holds older than the lifetime, returns each once, leaves the rest, and finds nothing again |
| LedgerParity.SqlReclaimIsExact | backend/src/gateway/adapters/ledger/sql_budget_ledger.py:420-488 | the same of the tables but for the rows found locked, spending and cost rows unchanged |
| LedgerParity.CrashedHoldsAreBackInTime | backend/src/gateway/application/accounting/reservation_service.py:86-99 | a settled id, or one whose hold the sweep leaves, is answered as before, whatever the budget; every other id, new, released, expired or just swept, is granted exactly if it fits the limit less spending and the holds left, those within the lifetime and those found locked |
| LedgerParity.ReholdAge | backend/src/gateway/adapters/ledger/sql_budget_ledger.py:118-128 | a re-hold is young in memory; in the tables a sweep takes it exactly when its id was known before the cutoff |
| SharedLedger.OthersLeaveTheRow | backend/src/gateway/adapters/ledger/sql_budget_ledger.py:420-488 | transactions of other requests leave a request's row as it was, or expire its live hold |
| SharedLedger.HoldReturnedOnceOrStillLive | backend/src/gateway/adapters/ledger/sql_budget_ledger.py:268-488 | whatever transactions follow a hold, it is returned exactly once if it is gone at the end, else not at all |
| ReservationService.ReservationReconciler.ReclaimExpired | backend/src/gateway/application/accounting/reservation_reconciler.py:85-112 | the sweep runs with the cutoff one lifetime ago; an outage counts as nothing reclaimed |
| RequestOutcomes.GateSweepsByTheLifetime | backend/src/gateway/application/accounting/reservation_reconciler.py:85-112 | after the gate every other row is expired if it was live, unlocked and older than one lifetime, and else as it was |
| RequestOutcomes.GateGrantsExactly | backend/src/gateway/application/accounting/reservation_service.py:86-111 | with nobody in the way the gate answers as before under a settled id or one whose hold its sweep leaves, grants the estimate exactly if it fits the limit less spending and the holds left, and else tells what is left |
| ReservationService.ReservationService.Reserve | backend/src/gateway/application/accounting/reservation_service.py:64-111 | sweep, price, estimate and hold in that order; an unpriced model holds nothing; an outage is an answer; `RequestOutcomes.GateSweepsByTheLifetime` and `RequestOutcomes.GateGrantsExactly` tell that sweep and that answer from the tables |
| ReservationService.ReservationService.Settle | backend/src/gateway/application/accounting/reservation_service.py:113-143 | what cannot be costed never reaches the ledger; what can is settled at its actual cost |
| ReservationService.ReservationService.Release | backend/src/gateway/application/accounting/reservation_service.py:145-147 | the ledger is released, its error passed on |
| OwnTransactions.GateTakesTheRow | backend/src/gateway/application/accounting/reservation_service.py:86-111 | a granted gate leaves the id held, or settled as before; any other answer leaves its row as it was, give or take a sweep |
| OwnTransactions.SettleEndsTheHold | backend/src/gateway/adapters/ledger/sql_budget_ledger.py:300-356 | a settlement that answers leaves the id settled at this cost, or at the old one if it was settled before |
| OwnTransactions.ReleaseFailsOnlyInAnOutage | backend/src/gateway/adapters/ledger/sql_budget_ledger.py:368-418 | a release of a known id is refused only by an outage |
| InferenceCoordinator.Coordinator.Execute | backend/src/gateway/application/execution/inference_coordinator.py:139-169 | of a call that starts its own execution: unrouted and cached requests touch nothing; all others leave ledger, breaker and cache as the specification of the miss path says, which the `RequestOutcomes` members, `RepeatsAreServedFromTheCache` and `HitsAreForTheSameQuestion` tell without it |
| InferenceCoordinator.Coordinator.ExecuteAndSettle | backend/src/gateway/application/execution/inference_coordinator.py:171-207 | the provider is called and the breaker told only after a granted hold; `RequestOutcomes.RequestsAreAnsweredExactly` tells the answer and the news |
| InferenceCoordinator.Coordinator.Conclude | backend/src/gateway/application/execution/inference_coordinator.py:208-240 | release on failure or an accounting defect, else settle and only then cache the response's own content, as the next request finds it (`InferenceCoordinator.RepeatsAreServedFromTheCache`) |
| InferenceCoordinator.UnaryRequestsEndTheirHold | backend/src/gateway/application/execution/inference_coordinator.py:139-240 | whatever others run in between, an answered request holds nothing, is settled exactly if it returned a cost, at that cost and once per id; no call is made without a hold; the cache is written exactly for a settled answer |
| InferenceCoordinator.RaisedOnlyInAnOutageOrCurrency | backend/src/gateway/application/execution/inference_coordinator.py:179-229 | an error is raised only for a currency mismatch or for an outage after the call |
| InferenceCoordinator.AloneARequestSpendsWhatItReturns | backend/src/gateway/application/execution/inference_coordinator.py:171-240 | with no other transaction about, spending grows by exactly the returned cost, and by nothing under an id that already paid |
| InferenceCoordinator.RepeatsAreServedFromTheCache | backend/src/gateway/application/execution/inference_coordinator.py:155-169 | two executions end to end: after an answer with a cost, as long as that entry stands and has not lapsed, the same provider, model and payload of the same tenant is answered from the cache with the very content and provider, no transaction and no news to the breaker |
| InferenceCoordinator.HitsAreForTheSameQuestion | backend/src/gateway/application/execution/inference_coordinator.py:148-163 | a request is served from the cache exactly if a fresh entry stands under its own tenant, provider name, model and payload, and is served what that entry holds |
| RequestOutcomes.RequestsAreAnsweredExactly | backend/src/gateway/application/execution/inference_coordinator.py:171-240 | with nobody else about, the answer of a request that misses the cache and what the breaker hears, told from the tables, the prices and the response alone: unpriced, denied, failed, unaccountable, or answered at its exact cost |
| RequestOutcomes.OutagesAreToldApart | backend/src/gateway/application/execution/inference_coordinator.py:186-195 | a store that cannot be reached at the hold is answered as unavailable, not as a denial, and nothing is called |
| Deduplicator.RequestDeduplicator.Coalesce | backend/src/gateway/application/execution/deduplicator.py:62-66 | a call joins the task in flight under its tenant and id, or enters a new one |
| Deduplicator.RequestDeduplicator.Forget | backend/src/gateway/application/execution/deduplicator.py:68-72 | the callback removes its own task's entry and no other's |
| Deduplicator.OneExecutionAtATime | backend/src/gateway/application/execution/deduplicator.py:48-73 | after any run of calls, results, callbacks and cancellations at most one execution per tenant and id is running, and every caller's answer is that of the execution of its own tenant and id it waited for |
| Deduplicator.SharedExactlyUntilForgotten | backend/src/gateway/application/execution/deduplicator.py:62-73 | a later duplicate shares an execution exactly if its callback has not run in between |
| Deduplicator.EveryCallIsTaken | backend/src/gateway/application/execution/deduplicator.py:62-66 | no call is turned away: it waits, for one more execution exactly if none of its tenant and id is pending |
| Deduplicator.LeavingChangesNothingElse | backend/src/gateway/application/execution/deduplicator.py:73 | had the cancelled callers stayed, the same executions would have run and everybody else been answered the same |
| Deduplicator.RequestsIssueTheirOwn | backend/src/gateway/application/accounting/reservation_service.py:64-147 | a request issues no transaction but sweeps and those on its own id, which is what the loop lets an execution issue |
| Deduplicator.OthersLeaveARunningRequestAlone | backend/src/gateway/application/execution/deduplicator.py:48-73 | while an execution runs, no other execution of the process issues a transaction on its id |
| Deduplicator.RequestsOfOneProcessEndTheirHold | backend/src/gateway/application/execution/inference_coordinator.py:165-240 | in one process, whatever ids and repeats come in, each execution ends its hold and is charged exactly the cost it returns |
| Reflection.AttemptIdsAreDistinct | backend/src/gateway/application/reflection/reflective_executor.py:69-71 | two attempts share an id exactly if request id and attempt number are the same, whatever the id contains |
| Reflection.AttemptIdsAreNumbered | backend/src/gateway/application/reflection/reflective_executor.py:69-71 | an attempt's id is the request's, a hash sign and the attempt's number in decimal |
| Reflection.TotalBackoffIsOneMoreDoubling | backend/src/gateway/application/reflection/retry_policy.py:89-98 | all the waiting of n attempts is one base short of one more doubling of the last delay |
| Reflection.ReflectiveExecutor.Execute | backend/src/gateway/application/reflection/reflective_executor.py:134-169 | the loop makes exactly the specified attempts and records each in order, and has slept exactly the total back-off of the attempts made, whatever other requests write to the cache before each; every attempt but the last was a call that timed out, was rate limited or met a server error, and the last was not, or was the last allowed |
| Reflection.RetriesExactlyWhatPasses | backend/src/gateway/application/reflection/retry_policy.py:101-114 | every attempt but the last returned executed, not ok, with a timeout, a rate limit or a server error; the last did not, or all allowed attempts were made |
| Reflection.RecordsInPlainTerms | backend/src/gateway/application/reflection/reflective_executor.py:142-165 | a record names the attempt, its id and its result, and calls it a retry exactly for those failures and a success exactly for a cached answer or a call that went well |
| Reflection.EveryAttemptAsksTheSame | backend/src/gateway/application/reflection/reflective_executor.py:142-150 | every attempt is one execution of the request's own payload under that attempt's id |
| Reflection.ReflectRunsItsTransactions | backend/src/gateway/application/reflection/reflective_executor.py:142-165 | the tables the loop leaves are those its attempts' transactions, run in order, leave |
| Reflection.ReflectionClosesEveryHold | backend/src/gateway/application/reflection/reflective_executor.py:142-169 | when it returns, and no attempt id was held or paid under before, none is held, only the last can be settled, exactly if a cost is returned and at that cost, and ids not attempted are as they were |
| Reflection.ReflectionSpendsWhatItReturns | backend/src/gateway/application/reflection/reflective_executor.py:142-169 | with no other transaction about and no attempt id held or paid under before, spending grows by exactly the returned cost or by nothing: failed attempts are free |
| Streaming.StreamingCoordinator.Open | backend/src/gateway/application/streaming/streaming_coordinator.py:154-233 | before the first byte: refusals, a replayable hit, a provider that fails first released and observed, or an opened stream; cancelled inside any await, an interrupted opening |
| RequestOutcomes.OpeningsAreAnsweredExactly | backend/src/gateway/application/streaming/streaming_coordinator.py:154-233 | with nobody else about and nobody cancelling, what an opening answers and what the breaker hears, told from the cache, the tables, the price and the provider's first event alone |
| Streaming.InterruptedExactlyWhereItWaits | backend/src/gateway/application/streaming/streaming_coordinator.py:154-233 | an opening is interrupted exactly if its cancellation strikes at an await it came to |
| Streaming.StreamingCoordinator.RelayEvents | backend/src/gateway/application/streaming/streaming_coordinator.py:253-283 | the relay loop hands on and buffers what its specification says, up to the terminal event, the silence or the cut |
| Streaming.StreamingCoordinator.Deliver | backend/src/gateway/application/streaming/streaming_coordinator.py:235-296 | what the client, the ledger, the breaker and the cache have seen when a stream ends, for every provider and every interruption; the client has been handed the provider's own chunks in order and then at most the one complaint there is cause for, and the breaker told how the provider itself ended |
| Streaming.StreamingCoordinator.Complete | backend/src/gateway/application/streaming/streaming_coordinator.py:298-339 | a completed stream is settled and cached, or its hold given back and the client told |
| Streaming.RelayIsFaithful | backend/src/gateway/application/streaming/streaming_coordinator.py:257-291 | the pieces handed on are the provider's own, in order, none lost or repeated, up to the event or cut it stops at |
| Streaming.ClientSeesTheProvidersChunks | backend/src/gateway/application/streaming/streaming_coordinator.py:257-339 | what is handed out, piece by piece: the content of each chunk in order, none added, up to where the client leaves or the provider says something else or stops; after them one failure exactly if there is cause, with the provider's own error or one of the three fixed texts |
| Streaming.BreakerHearsHowItEnded | backend/src/gateway/application/streaming/streaming_coordinator.py:263-290 | the breaker hears that the provider completed, or that it failed in its own category, or that it stopped short, and nothing of a client that left |
| Streaming.RaisesOnlyOverCurrency | backend/src/gateway/application/streaming/streaming_coordinator.py:318-330 | an error leaves the generator exactly if the settlement of a completed stream's usage is refused its currency |
| Streaming.CachedStreamsAreReplayed | backend/src/gateway/application/streaming/streaming_coordinator.py:166-173 | a stream that was cached is what the next opening for the same provider, model and payload of the same tenant replays while its entry lasts: all its chunks' text, for no transaction |
| Streaming.StreamsEndTheirHold | backend/src/gateway/application/streaming/streaming_coordinator.py:235-339 | outages aside, every ending leaves no live hold; at most one charge, exactly the reported usage's cost, never handed back; no breaker news of a client that left; cached only after a settlement, with all that was handed on; a client told of a failure is not charged |
| Streaming.InterruptedSettlementsStand | backend/src/gateway/application/streaming/streaming_coordinator.py:291-330 | a settlement that lands although its caller was cancelled stands, whatever the safeguard does next; one that does not land settles nothing |
| Streaming.StreamsReturnTheirHoldOnce | backend/src/gateway/application/streaming/streaming_coordinator.py:291-296 | a stream's hold is returned exactly once, or is still live because the store could not be reached |
| Streaming.StreamedRequestsEndTheirHold | backend/src/gateway/application/streaming/streaming_coordinator.py:154-339 | from opening to end under an id nobody has paid under: held while open, outages aside not held afterwards, and charged nothing or exactly the reported usage's cost |
| Streaming.OpenedStreamsOwnTheirHold | backend/src/gateway/application/streaming/streaming_coordinator.py:175-233 | an opened stream owns a live hold unless its id already paid; a refused one whose id was not held before holds nothing; no opening settles or charges |
| Streaming.InterruptedOpeningsLeaveAHold | backend/src/gateway/application/streaming/streaming_coordinator.py:175-225 | an opening cancelled under an id neither held nor settled leaves its hold, live or already swept by others on the way to a release that did not land, if the hold was granted and no release landed after it; else no live hold |
| RequestOutcomes.CancelledGatesHaveSwept | backend/src/gateway/application/streaming/streaming_coordinator.py:175-178 | an opening cancelled in its gate has swept exactly the holds older than one lifetime if its sweep was through or landed, and else none |
| InMemoryClient.Stream | backend/src/gateway/adapters/providers/in_memory_client.py:62-70 | at most three non-empty pieces that join to the text, then the usage |
| InMemoryClient.InMemoryCallsNeverOverrun | backend/src/gateway/adapters/providers/in_memory_client.py:40-60 | with this provider and an unchanged price a settled call costs no more than the estimate of its payload, and its row holds that estimate, under every id but one that was settled or held when the request came, which is replayed and may still hold what it did |
| ResponseCache.InMemoryResponseCache.Get | backend/src/gateway/adapters/cache/in_memory_response_cache.py:50-58 | a hit only for an entry under that tenant and key that has not lapsed |
| ResponseCache.InMemoryResponseCache.Put | backend/src/gateway/adapters/cache/in_memory_response_cache.py:60-65 | one entry is replaced, unless the store is down |
| ResponseCache.HitIsTheLastWrite | backend/src/gateway/adapters/cache/in_memory_response_cache.py:50-65 | a lookup hits exactly when the tenant's own last write under the key is younger than the lifetime, and returns what it wrote |
| Accounting.HalfEvenIsTheNearestEven | backend/src/gateway/application/ports/money.py:54-57 | rounding picks exactly the unit at most half a unit away, the even one of two |
| Accounting.HalfEvenIsMonotone | backend/src/gateway/application/ports/money.py:54-57 | rounding keeps order |
| Accounting.TotalIsTheSumOfTheParts | backend/src/gateway/application/accounting/cost_accountant.py:36-51 | the total is exactly the sum of the two rounded parts, each within half a unit of its exact cost |
| Accounting.CostsArePricesPerThousand | backend/src/gateway/application/accounting/cost_accountant.py:36-51 | a thousand times each part is within half a thousand of its tokens times its price, ties to even; prompt at the input price, completion at the output price, all in the price's currency |
| Accounting.AccountedExactly | backend/src/gateway/application/accounting/cost_accountant.py:102-133 | a response is costed exactly if it reports usage, none of it negative, and its model has a price; which of the three is missing is told apart |
| Accounting.MoreUsageNeverCostsLess | backend/src/gateway/application/accounting/cost_accountant.py:36-51 | componentwise larger usage never costs less, in either part or in total |
| Accounting.EstimateCoversTheSynthesizedCall | backend/src/gateway/application/accounting/estimator.py:23-30 | the estimate of a payload covers the cost of the usage the in-memory provider reports for it |
| Accounting.UsageOfAPayload | backend/src/gateway/application/accounting/estimator.py:23-30 | a quarter of the characters, rounded down but at least one, for the prompt and again for the answer; the synthesized answer has half its prompt's, at least one |
| TokenBucket.InMemoryTokenBucketRateLimiter.Acquire | backend/src/gateway/adapters/ratelimit/in_memory_token_bucket.py:70-97 | one key's bucket is refilled and spent from as specified, every field of the answer with it; no other key moves |
| TokenBucket.SegmentBound | backend/src/gateway/adapters/ratelimit/in_memory_token_bucket.py:70-106 | in any segment a key is allowed at most burst plus rate times the forward clock steps between its own calls, whatever other keys or the clock do |
| TokenBucket.DenialsAreOneRefill | backend/src/gateway/adapters/ratelimit/in_memory_token_bucket.py:99-106 | any number of denied attempts on a monotone clock refill as one |
| TokenBucket.RetryAfterIsSoundAndTight | backend/src/gateway/adapters/ratelimit/in_memory_token_bucket.py:108-116 | after a denial and any further denials, an attempt at the advertised wait is allowed, and a second earlier is not if the wait exceeds one |
| TokenBucket.AnswersTellTheBucket | backend/src/gateway/adapters/ratelimit/in_memory_token_bucket.py:82-123 | what an answer says: allowed exactly with a whole token there, the whole tokens left, the least whole seconds to a full bucket, and, when denied, the least to a whole token, never none |
| TokenBucket.FreshKeysGetTheirBurst | backend/src/gateway/adapters/ratelimit/in_memory_token_bucket.py:70-88 | a key never seen is allowed exactly its burst at one instant |
| SharedBuckets.RedisTokenBucketRateLimiter.Acquire | backend/src/gateway/adapters/ratelimit/redis_token_bucket.py:145-166 | the stored hash and its expiry move as the script says, for one key |
| SharedBuckets.ExpiryChangesNoAnswer | backend/src/gateway/adapters/ratelimit/redis_token_bucket.py:80-122 | whatever keys the store drops after their expiry, every field of every answer equals the never-expiring limiter's |
| SharedBuckets.DegradedRateLimiter.Acquire | backend/src/gateway/adapters/ratelimit/degraded.py:77-87 | the shared script's answer when it answers, the replica's own bucket otherwise, the mode flag with it, and no other tenant's bucket moved |
| SharedBuckets.DegradedBound | backend/src/gateway/adapters/ratelimit/degraded.py:77-87 | with n replicas and any outages a tenant is admitted at most n plus one shares of burst plus accrual, and at most one share without outage |
| SharedBuckets.FleetBound | backend/src/gateway/adapters/ratelimit/degraded.py:77-87 | the same of any stretch of calls, after any calls since a cold start, of replicas that run the script against a store that drops expired keys and fall back to buckets of their own |
| SqlLexer.FragmentsLoseNothing | backend/migrations/sql_script.py:26-117 | the raw pieces rejoined with semicolons are the script |
| SqlLexer.FragmentsAreCut | backend/migrations/sql_script.py:102-117 | cuts fall exactly at semicolons read in the default state |
| SqlLexer.CutIsUnique | backend/migrations/sql_script.py:26-117 | no other way to cut a script into such pieces exists |
| SqlLexer.ReadInTwoParts | backend/migrations/sql_script.py:37-111 | reading up to a separator and on from the state reached is reading it all |
| SqlSplitter.ReadToken | backend/migrations/sql_script.py:41-101 | the flag updates of one turn are one step of the five-state lexer, whose quotes and comments `SqlQuoting` tells in the text itself |
| SqlSplitter.SplitSqlStatements | backend/migrations/sql_script.py:26-117 | the index loop over flags and buffer returns exactly the lexer's pieces, stripped, with empty and comment-only ones dropped; `SqlQuoting.SpelledStatementsComeBack` tells them without the lexer |
| SqlQuoting.DollarQuotesPass | backend/migrations/sql_script.py:58-101 | `$$` or any `$name$`, any text in which the tag does not come again, and the tag are read as one, whatever follows |
| SqlQuoting.LiteralsPass | backend/migrations/sql_script.py:68-95 | a quoted literal with its quotes doubled is read as one |
| SqlQuoting.LineCommentsPass | backend/migrations/sql_script.py:41-85 | two dashes and all up to the end of the line are read as one |
| SqlQuoting.BlockCommentsPass | backend/migrations/sql_script.py:48-90 | a block comment up to its first close is read as one |
| SqlQuoting.TokensAreOnePiece | backend/migrations/sql_script.py:26-117 | plain text, lone dashes, slashes and dollars, literals, dollar quotes and comments, in any order, are one piece that leaves nothing open, whatever semicolons they hold |
| SqlQuoting.SpelledStatementsComeBack | backend/migrations/sql_script.py:26-117 | statements spelled out of such tokens, with any margins and a semicolon after each, come back exactly, if each begins with code |
| SqlRoundTrip.SplitUndoesPrint | backend/migrations/sql_script.py:26-117 | printable statements joined by newline, semicolon, newline split back into themselves |
| SqlRoundTrip.SplittingIsStable | backend/migrations/sql_script.py:26-117 | the statements of every script are printable, so printing and splitting them again changes nothing |
| SqlComments.NothingExecutableIsDropped | backend/migrations/sql_script.py:120-123 | a dropped statement holds no code exactly if nothing is read as code where the filter does not look: in a removed block, on a line begun with dashes, or at a dash before a removed block |
| SqlQuoting.CodeIsInTheTokens | backend/migrations/sql_script.py:37-111 | a piece holds code exactly if one of its tokens is a literal, a dollar quote, a lone dash, slash or dollar, or text that is not all blank |
| SqlQuoting.BlockNotesAreDropped | backend/migrations/sql_script.py:116-123 | a block comment alone is dropped |
| SqlQuoting.LinesDecide | backend/migrations/sql_script.py:120-123 | without block comments a piece is dropped exactly if each of its lines is blank or, after its blanks, a comment |
| SqlQuoting.LinesEndAt | backend/migrations/sql_script.py:122 | a line ends at the first of the ten line ends, whichever it is |
| SqlComments.ClearBlocksHideNothing | backend/migrations/sql_script.py:120-123 | nothing is, where the removed blocks stand clear of line comments and of a lone dash |
| SqlComments.CodeBetweenCommentedMarkersIsDropped | backend/migrations/sql_script.py:120-123 | a block opener inside a line comment makes the filter drop code |
| SqlComments.CodeSplicedIntoACommentIsDropped | backend/migrations/sql_script.py:120-123 | a removed block between two dashes makes the filter drop code |
| CircuitBreaker.InMemoryCircuitBreaker.Observe | backend/src/gateway/adapters/health/in_memory_circuit_breaker.py:103-140 | one outcome moves one key's circuit as specified and no other |
| CircuitBreaker.InMemoryCircuitBreaker.Assess | backend/src/gateway/adapters/health/in_memory_circuit_breaker.py:142-160 | each provider's state is reported, open circuits past their cooldown moved to half-open |
| CircuitBreaker.StateIsReadOffHistory | backend/src/gateway/adapters/health/in_memory_circuit_breaker.py:103-160 | closed exactly with fewer faults than the threshold since the last success; half-open exactly if not closed and some look fell a cooldown after the last trip |
| CircuitBreaker.HalfOpenUntilAnOutcome | backend/src/gateway/adapters/health/in_memory_circuit_breaker.py:103-160 | a half-open circuit is half-open at every further look until a success closes it or a transient fault opens it |
| CircuitBreaker.CircuitsAreIndependent | backend/src/gateway/adapters/health/in_memory_circuit_breaker.py:103-160 | a key's circuit is a function of the events of that tenant and provider alone |
| CircuitBreaker.WhatCounts | backend/src/gateway/adapters/health/in_memory_circuit_breaker.py:103-140 | a call that went well is a success, one that timed out, was rate limited or met a server error a fault, and no other counts |
| Routing.Best | backend/src/gateway/application/routing/health_tiered_strategy.py:38-44 | the choice is a candidate that no other ranks before: healthy first, then by name |
| Routing.Partition | backend/src/gateway/application/agents/health.py:88-105 | one pass sorts the assessments into closed, half-open and open, in the order `Routing.ListsKeepTheOrder` states |
| Routing.ListsKeepTheOrder | backend/src/gateway/application/agents/health.py:88-105 | each list holds exactly the providers assessed in its state, in the order of the assessments |
| Routing.NamesAreInDictionaryOrder | backend/src/gateway/application/routing/health_tiered_strategy.py:38-44 | names rank as a dictionary has them: a prefix first, else by the first character that differs |
| Routing.AgentRuntime.Contribute | backend/src/gateway/application/agents/provider.py:40-66 | each agent writes its own fields of the context as specified, and only the health agent moves the breaker |
| Routing.AgentRuntime.Decide | backend/src/gateway/application/agents/runtime.py:62-130 | the loop over the agents returns the specified decision and leaves the breaker as the looks leave it |
| Routing.DecisionsAreExplained | backend/src/gateway/application/agents/runtime.py:81-93 | every decision records a non-empty prefix of its chain, all of it unless a terminal outcome stopped it |
| Routing.RefusingAgentsSettleIt | backend/src/gateway/application/agents/runtime.py:95-113 | the first agent that refuses settles the decision, blocked by policy or over budget; no circuit has been looked at, nobody after it is asked and nothing is selected |
| Routing.RoutingTakesTheBestUsable | backend/src/gateway/config/container.py:328-336 | as wired: selected exactly if some candidate is not open, and then the least name among the closed, else among the half-open; all-unhealthy exactly if there are candidates and all are open; no-candidate exactly if there are none |
| Routing.DecisionsReportTheCircuits | backend/src/gateway/application/agents/health.py:88-105 | the decision lists each candidate as healthy, degraded or excluded exactly as its circuit is seen |
| Routing.ConfidenceIsOneInSoMany | backend/src/gateway/application/agents/provider.py:40-66 | with a choice the confidence is one over the number of candidates that are up |
| Routing.CatalogOrderDoesNotMatter | backend/src/gateway/application/routing/health_tiered_strategy.py:38-44 | the same candidates in any order, with any repeats, give the same outcome and choice |
| Routing.Engine | backend/src/gateway/application/routing/engine.py:41-74 | the engine passes decisions on and resolves a selection in a second reading of the catalog |
| Routing.IntegrityErrorMeansTheCatalogMoved | backend/src/gateway/application/routing/engine.py:66-74 | the integrity error means exactly that the selected name left the catalog in between; it is unreachable if the catalog stays; a routed request gets a descriptor of the later reading under the selected name, and is declined exactly if every candidate is down |
| AuditChain.CanonicalIsInjective | backend/src/gateway/adapters/audit/sql_sink.py:101-112 | the canonical form names one predecessor and one value of every hashed field, whatever separators the detail holds, and the action too unless one stands before a result |
| AuditChain.CanonicalJoinsEightParts | backend/src/gateway/adapters/audit/sql_sink.py:60-112 | the digest is taken over eight parts in the order of the source with the unit separator between them, absent ones empty, and every decision but success a failure |
| AuditChain.MisreadExactly | backend/src/gateway/adapters/audit/sql_sink.py:64-112 | an event shares its canonical form with a different, readable one exactly if what follows some separator of its action, up to the next, is a result |
| AuditChain.SeparatorInActionMovesABoundary | backend/src/gateway/adapters/audit/sql_sink.py:64-66 | an instance: two events with one canonical form whose action and detail differ |
| AuditChain.HeadDeterminesHistory | backend/src/gateway/adapters/audit/sql_sink.py:81-113 | with an injective digest, two readable chains with equal heads agree row by row on every hashed field |
| AuditChain.HeadTellsExactly | backend/src/gateway/adapters/audit/sql_sink.py:81-113 | a chain's head tells it from every other readable chain exactly if its own actions are readable |
| AuditChain.EditsGoUnseenExactly | backend/src/gateway/adapters/audit/sql_sink.py:130-181 | rewriting events in place leaves every link intact exactly if no row's hashed fields change |
| AuditChain.RejectionReasonIsNotChained | backend/src/gateway/adapters/audit/sql_sink.py:130-181 | rewriting one failure's precise reason into another's leaves every link intact |
| AuditChain.SqlAuthAuditSink.Record | backend/src/gateway/adapters/audit/sql_sink.py:123-199 | an attributed event is appended to its tenant's chain alone; an unattributed one, or an outage, writes nothing |
| AuditConcurrency.CommitAppendsItsEvent | backend/src/gateway/adapters/audit/sql_sink.py:145-195 | only a commit touches a log, and it appends exactly its own event |
| AuditConcurrency.EveryInterleavingIsOneChain | backend/src/gateway/adapters/audit/sql_sink.py:145-195 | under every interleaving and abort, a tenant's log is the single chain of its committed events in commit order and the stored head is its end |
| AuditConcurrency.FreeAppendersGetThrough | backend/src/gateway/adapters/audit/sql_sink.py:145-195 | an appender whose lock is free has a run of its own statements that appends its event and frees the lock |

## Left out

- HTTP delivery, middleware, server-sent-event framing, settings, the container and the health endpoints: wiring and I/O.
- Metrics, logs and spans: no effect on outcomes.
- InferenceCoordinator.Coordinator.Execute: the call that starts its execution; one that joins an execution in flight runs nothing and gets that one's answer, which `Deduplicator.OneExecutionAtATime` states.
- RequestsAreAnsweredExactly: told for moments nobody else gets into, a store that answers and one currency; with others in between the ledger theorems say what is kept, and `OutagesAreToldApart`, `RaisedOnlyInAnOutageOrCurrency` the rest.
- RequestsOfOneProcessEndTheirHold: unary requests of one process; streams and other processes do not share the table, and for them the members above it assume that nobody else uses the id.
- The text of `not_routed` errors names the routing outcome in the program; here it is one constant.
- Tenants of the request models are one organization at a time; other requests act on the ledger between transactions, on the cache between attempts, and on the breaker only before or after a request.
- Decimal's 28-digit context, `numeric(18,8)` overflow, and binary floating-point error in the buckets: integers and reals are exact here.
- Currency code validation, the 32-byte cache digest (read as the request it identifies) and the encoding of payloads.
- The columns `actual_cost` and `settled_at`, and the token and part costs of a cost row: no operation reads them back.
- Collisions of advisory lock numbers between reservation keys: they only make unrelated transactions wait. (Between tenants' audit locks they are modelled.)
- A sweep's statement locks its rows one by one, in any order, and may stop early, and a whole sweep may skip any rows: a superset of what `SKIP LOCKED` does.
- The planner's intent and complexity, the static unhealthy set and the strategy-less provider agent: nothing wired reads or uses them.
- The SQL resolver, catalog, price and response-cache adapters, row-level security and migrations.
- PostgreSQL's lexical rules that the splitter does not have: nested block comments, quoted identifiers, escape strings.
- SHA-256 enters only as an injective digest; token signing, key sets and login flows are library calls.
- HeadDeterminesHistory: the fields besides action and detail are free of the separator, which their types ensure in the program (identifiers, actor kinds and timestamps) and the model assumes.
- SegmentBound: counts the forward steps between a key's own calls, the only moments the program reads the clock for it.

# PayFlow: verified models of the payment protocols

PayFlow takes a payment request, records it, charges a bank, credits the merchant, writes an
audit trail, and announces every outcome through an outbox that background workers deliver.
Around that sit a retry loop, a circuit breaker, a worker pool, rate limiters and a Redis
idempotency layer. Each of these is a small stateful protocol, and they must agree with each
other while statements fail, requests die half-way and everything interleaves. This project
models them in Dafny and proves what they promise.

`dafny verify dfyconfig.toml` checks the whole project.

| file | what it models |
|---|---|
| `Domain.dfy` | statuses, the status graph, records, and the sum the books are checked against |
| `CircuitBreaker.dfy`, `Retry.dfy` | the breaker as a clocked state machine and as a class; the retry loop and its backoff arithmetic |
| `Database.dfy` | the PostgreSQL tables, the statements on them, and the blocks that commit whole or roll back |
| `Ledger.dfy` | the payment service on the database path: one step per statement, bank call or critical section, any number of interleaved requests, any failure, death after any step |
| `LedgerSafety.dfy` | the invariant over all those runs: what every row and every request in flight may be, credit follows approval |
| `LedgerBooks.dfy` | the books over all those runs: the exact law of the balances, what breaks it, cover for refunds |
| `LedgerProgress.dfy` | what one request achieves when nothing stands in its way, and what two overlapping refunds do |
| `Answers.dfy` | what a successful answer is worth, for as long as the system runs |
| `BankStage.dfy` | the bank stage on all runs: the ledger's breaker as a clocked breaker, who is charged and how often, and why a payment is given up |
| `Requests.dfy` | what each request is told and what that says about the tables: replays, refusals, failures, and that an answer comes |
| `AuditLog.dfy` | the audit trail and the outbox counts as a second account of the ledger |
| `OutboxDelivery.dfy` | lease-based delivery by any number of workers over one table and one clock |
| `EndToEnd.dfy` | the ledger and the workers' batches together over one outbox table |
| `WorkerPool.dfy`, `OutboxBatch.dfy` | the pool's channel protocol, and one worker batch running on it |
| `OutboxFleet.dfy` | many workers' batches over one table, as a history of the delivery protocol |
| `OutboxDrain.dfy` | the claim statement itself, an error-free batch, and how many rounds empty the table |
| `OnePayment.dfy` | many HTTP requests with one idempotency key, a Redis that may lose anything and whose calls may fail before or after taking effect, and the ledger behind it |
| `KeyMixing.dfy` | exactly which requests keep the promise of one transaction per key, with the runs that break it |
| `IdempotencyStore.dfy` | the Redis coordination with its two TTLs, and its key encoding |
| `TokenBucket.dfy`, `RedisRateLimit.dfy` | the three token buckets against one closed form over the call history |
| `Compensation.dfy` | the payment service without a database: in-memory repositories and undo writes |

Objects that the program updates in place are classes whose methods are proved against functions
of their fields (breaker, pool, buckets, repositories, service, store). Goroutines, requests and
workers that interleave are step systems: a datatype of the whole state and a step relation, with
theorems over every run. Cents and nanoseconds are unbounded integers; tokens and seconds are reals.

## Where the code does not keep a promise

Each of these is a result about the code as written, with the condition under which the promise holds.

- **Worker pool.** `Shutdown` returns with accepted jobs never run when the pool has no workers but
  has a queue (`NoWorkersLoseJobs`). With at least one worker, or with no queue, every accepted job has run
  exactly once (`ShutdownRanEverything`).
- **One transaction per key.** A request can be answered with what another request stored under the same
  Redis key, although the handler uses a different key for the two. That happens when a request sends
  both idempotency headers with different values (the middleware prefers `Idempotency-Key`, the handler reads
  `X-Idempotency-Key`), and also when the Redis keys of two merchants collide. The promise is kept on every run of
  a set of requests if and only if no two requests of one key can be fed by payable requests of different keys
  (`PromiseKeptIffKeysDoNotMix`); both ways to break it end in real runs (`DisagreeingHeadersSplitAKey`,
  `CollidingMerchantsSplitAKey`). Headers that agree and merchant IDs without `}` are enough
  (`PlainRequestsKeepPromise`). One row, one bank stage and one credit per key hold whatever the
  headers say and whatever collides: the unique index decides.
- **One handler run at a time.** An in-progress entry lives for 60 s and a handler may run for longer. The runs of
  one Redis key are never two at once if and only if no request for it arrives while a run of it is older than
  60 s (`OverlapIffLateArrival`, and `SlowRunOverlaps` is such a schedule); slow runs under other keys do not matter. A pair with an empty merchant ID or an
  empty key bypasses Redis, and while the run in flight is younger than 60 s only such a pair can have a second one
  (`SecondRunIffNoIdentity`).
- **Redis keys.** The encoding is injective for merchant IDs without `}`. In general two merchants can share
  an entry exactly when one ID, followed by `}:`, starts the other (`CollideIffPrefix`).
- **Rate limit in Lua.** Forgetting after 60 s is invisible on every sequence of calls if and only if
  60 times the rate reaches the burst (`InvisibleIffRefilledInTime`, for whole bursts of at least 1), whether the
  key is still there at exactly 60 s or not.
- **Refunds of one transaction.** The status check is outside the database transaction and the status write is
  unconditional. Two refunds that both check before either commits are both answered with success and pay back
  twice (`OverlappingRefundsBreakBooks`, a run from a fresh system). On every run a balance is its opening balance
  plus its merchant's COMPLETED amounts, less the amounts of the refunds that committed on a row no longer COMPLETED
  (`BooksOnRuns`); so the books balance if and only if no refund committed that late (`LedgerConserved`). Serialising
  the refunds of one transaction is one way to be safe (`SerialRefundsConserve`). Everything else about the ledger
  holds however refunds overlap.
- **Audit trail.** `rollbackTransition` restores the status but leaves an audit row already written. On every run a
  transaction whose creation is over has a right trail if and only if its creation neither died inside a transition,
  nor failed to undo one, nor failed to announce FAILED, and no refund of it committed late (`AuditReplaysToState`). The damage is for good. Failing
  reads, failing database blocks, failing status writes and failing audit rows do no harm.
- **Compensation.** For every set of failing calls, the books balance unless the bank approved, the credit was made,
  the completion failed after it, and exactly one of the undo writes it needed failed; a returned status is the
  stored one unless a transition failed after its status write and so did the write that takes it back. Without a
  failing undo write both always hold. A refund on this path has no undo: the books balance afterwards unless
  REFUNDED was written and the debit failed.

## Model

| member | source | states |
|---|---|---|
| Domain.ReachesIsClosure | internal/domain/models.go:23-43 | the reachability used everywhere below is exactly the reflexive, transitive closure of the allowed transitions |
| Domain.WalkStaysReachable | internal/domain/models.go:23-43 | no chain of allowed transitions leaves the reachable statuses |
| Domain.TransitionsSkipNothing | internal/domain/models.go:23-43 | an allowed transition leads from one status to another with none between: no status can be skipped, and every such step is allowed |
| Domain.TerminalHasNoExit | internal/domain/models.go:23-48 | IsTerminal holds of exactly the statuses with no allowed transition out |
| Money.TotalAfterWrite | internal/repository/postgres/transaction.go:111-131 | rewriting or adding one row moves a merchant's COMPLETED total by exactly the change in what that row is worth |
| LedgerSafety.CreateShape | internal/service/payment.go:231-273 | a committed creation needed a new ID, a free key, a known merchant and a positive amount, and adds one row, one CREATED audit row and one announcement, nothing else |
| LedgerSafety.CreateCommitsIff | internal/service/payment.go:231-273 | the creation block commits if and only if none of its statements fails, the merchant exists, amount and currency are acceptable and neither ID nor key is taken; a taken one is a unique violation |
| LedgerSafety.SettleShape | internal/service/payment.go:378-413 | a committed completion or refund changes one status and one balance, adds one audit row and one announcement, and never leaves a balance below zero |
| LedgerSafety.SettleCommitsIff | internal/service/payment.go:378-413 | the completion or refund block commits if and only if none of its statements fails, row and merchant exist and the balance does not go negative; a balance that would is insufficient funds |
| LedgerSafety.StepFrames | internal/service/payment.go:294-337 | a step of one request leaves every other transaction's row, charge log, stage, credit and rejection as they were |
| LedgerBooks.WriteKeepsBooks | internal/repository/postgres/merchant.go:70-99 | a status write with a balance change keeps the books if and only if the change is what the row gained or lost |
| LedgerBooks.RefundBalancedIffStillCompleted | internal/service/payment.go:492-527 | a refund's commit on balanced books keeps them if and only if the stored row is still COMPLETED |
| LedgerBooks.StepMovesNet | internal/service/payment.go:357-421 | one step of any request moves what a balance holds beyond its COMPLETED amounts by exactly minus the amount of a refund committing on a row no longer COMPLETED, and by nothing otherwise |
| LedgerBooks.BooksOnRuns | internal/service/payment.go:357-421 | in every state of every run a balance is its opening balance plus its COMPLETED amounts less all the amounts such refunds paid out |
| LedgerSafety.TakenIdRefused | internal/service/payment.go:189-219 | creating a transaction under an existing ID fails and changes nothing |
| LedgerSafety.StepKeepsInv | internal/service/payment.go:294-421 | every step of every request, failing or not, dying or not, beside overlapping refunds or not, keeps the ledger invariant: every row, charge log and request in flight is one the protocol allows, only refunds share a transaction, keys and merchants are found, no balance is negative |
| LedgerSafety.InvOnRuns | internal/service/payment.go:112-560 | that invariant holds in every state of every interleaved run |
| LedgerBooks.LedgerConserved | internal/service/payment.go:357-421 | in every reachable state a balance is its opening balance plus the amounts of the merchant's COMPLETED transactions if and only if no refund of that merchant committed on a row no longer COMPLETED |
| LedgerBooks.SerialRefundsConserve | internal/service/payment.go:492-527 | while no two refunds of one transaction are between check and commit, no refund is late and the books balance |
| LedgerSafety.NoNegativeBalance | internal/repository/postgres/merchant.go:70-99 | no balance is ever negative, on any run |
| LedgerBooks.BalancesCover | internal/service/payment.go:512-527 | a balance falls short of the amount of a COMPLETED transaction it holds by no more than late refunds of the same merchant paid out again; without any it covers each |
| LedgerBooks.RefundsCovered | internal/service/payment.go:512-560 | refunding a COMPLETED transaction can fail only by a failing statement, or for lack of funds when late refunds of the same merchant paid some out again |
| LedgerBooks.RefundInFlightCovered | internal/service/payment.go:486-527 | the same for a refund that checked the status long ago and is only now committing, while the row is still COMPLETED |
| LedgerSafety.CreditFollowsApproval | internal/service/payment.go:294-337 | on every run: COMPLETED or REFUNDED only after an approving last charge, approved is never FAILED; at most MaxAttempts charges, or one when that is not positive, and all before the last a timeout, an unavailable bank or a passed deadline; none when the breaker rejects; one bank stage, one credit |
| LedgerProgress.PaymentGoesThrough | internal/service/payment.go:112-229 | a valid request on a fresh key with nothing failing is answered COMPLETED in nine steps: one row, balance up by the amount, the three audit rows in order, two announcements, one credit |
| LedgerProgress.FailureRecorded | internal/service/payment.go:661-705 | a payment given up after the bank stage, with nothing failing, is answered FAILED with the reason, with its row, audit row and announcement, and no balance moves |
| LedgerProgress.OpenBreakerFailsPayment | internal/service/payment.go:294-337 | a valid request that finds the breaker open less than its timeout ago is answered FAILED with ErrCircuitOpen after nine steps: no charge, no balance, all rows written, the breaker as it was |
| LedgerProgress.RefundGoesThrough | internal/service/payment.go:477-560 | an owner's refund with nothing failing is answered REFUNDED, pays the amount back and writes its audit row and announcement |
| LedgerProgress.OverlappingRefundsBreakBooks | internal/service/payment.go:492-527 | a run from a fresh system in which two refunds of one payment both succeed and the balance ends short of the books by the amount |
| Answers.StepKeepsAnswers | internal/service/payment.go:112-229 | no step of anybody falsifies an answer already given or makes a request work on a transaction it was not sent for |
| Answers.SuccessIsTrue | internal/service/payment.go:137-145 | on every run: a successful answer carries the stored transaction that was asked for; COMPLETED and REFUNDED answers stay true; without a key success means COMPLETED, and a refund's success means REFUNDED |
| BankStage.AdmissionDecides | internal/service/payment.go:465-470 | with the breaker open less than its timeout ago, or half-open with a probe running, the payment goes to FAILED with ErrCircuitOpen and no charge; otherwise to its first charge |
| BankStage.RejectedIffShut | internal/service/resilience.go:68-92 | on every run the rejected transactions are exactly those whose admission found the breaker in such a state |
| BankStage.NeverChargedWhenShut | internal/service/payment.go:452-475 | on every run the bank is never called for them, then or later, and they are never completed |
| BankStage.ChargedOnlyIfLetThrough | internal/service/payment.go:452-475 | on every run whatever was charged had been let through by a breaker that was not shut |
| BankStage.BreakerFollowsTrace | internal/service/resilience.go:47-119 | on every run the ledger's admissions and reports are a trace of the clocked breaker, so everything proved of its traces holds of the ledger |
| BankStage.BankSpared | internal/service/resilience.go:68-119 | once failures have opened the ledger's breaker no payment is let through for a whole resetTimeout, 30 s by default, however requests interleave or die |
| BankStage.ReportsAreTrue | internal/service/resilience.go:47-55 | the breaker hears of a failure exactly when the payment's last charge was not approved |
| BankStage.RetriesUntilCap | internal/service/resilience.go:168-192 | every charge is logged; a timeout, an unavailable bank or a passed deadline before the last allowed attempt is followed by another attempt unless the context ends, anything else ends the stage |
| BankStage.FailedForAReason | internal/service/payment.go:309-327 | on every run a payment answered FAILED was given up for the reason in the answer: breaker shut and no charge, context ended among retryable failures, or a last charge that failed for good or for the MaxAttempts-th time |
| Requests.CheckKeyDecides | internal/service/payment.go:127-147 | on every run a creation whose key a stored row has is answered with that row when merchant, amount, currency and description are the same, refused as a duplicate when one differs, goes on exactly when no row has the key, and writes nothing |
| Requests.RepeatedRequestReplays | internal/service/payment.go:137-145 | on every run a request sent again after it was answered with a transaction is answered with that transaction as stored by then, and changes nothing |
| Requests.LookupDecides | internal/service/payment.go:149-200 | a creation goes on to be stored exactly when the merchant exists and is active, the amount is from 1 to the limit and the currency is CAD or USD; else it is refused with the first of the five errors |
| Requests.RowsWithinLimits | internal/service/payment.go:163-200 | on every run each stored transaction is within these limits and of an active merchant |
| Requests.RefundLoadDecides | internal/service/payment.go:477-499 | a refund goes on exactly for the caller's own COMPLETED transaction; a missing one and a foreign one are answered alike |
| Requests.ChecksThatFail | internal/service/payment.go:112-135 | an ended context or a failing read stops a request at each check with the matching error and nothing written |
| Requests.RollbackAnswers | internal/service/payment.go:721-731 | a database block that rolls back leaves everything as it was and is answered with its own error, with the transaction once the request holds a stored one |
| Requests.RefusalWritesNothing | internal/service/payment.go:112-229 | on every run no step of a request answered without a transaction changed anything |
| Requests.FailureIsTold | internal/service/payment.go:661-719 | on every run a request answered with its transaction and an error was told the stored status if and only if the error is not a failed rollback, which names the status it could not restore |
| Requests.AnsweredInTime | internal/service/payment.go:112-560 | on every run a request that is not stopped is answered after at most 10 + 2n of its own steps, n the charges allowed, or 2 for a refund, whatever fails |
| CircuitBreaking.CircuitBreaker.constructor | internal/service/resilience.go:32-45 | a new breaker is CLOSED with the defaults 3 and 30 s for non-positive settings |
| CircuitBreaking.CircuitBreaker.BeforeRequest | internal/service/resilience.go:68-92 | the method rejects and moves the fields exactly as the admission section of the state machine |
| CircuitBreaking.CircuitBreaker.AfterRequest | internal/service/resilience.go:94-119 | the method moves the fields exactly as the report section of the state machine, whose half-open outcomes ProbeDecides fixes |
| CircuitBreaking.CircuitBreaker.State | internal/service/resilience.go:57-66 | reading the state may itself turn OPEN into HALF_OPEN, as the query section of the state machine |
| CircuitBreaking.RunningMeansHalfOpen | internal/service/resilience.go:68-119 | halfOpenRunning implies HALF_OPEN, however late or unmatched the reports |
| CircuitBreaking.NothingAdmittedWhileOpen | internal/service/resilience.go:75-78 | after the breaker opens nothing is admitted for a whole resetTimeout |
| CircuitBreaking.HalfOpenAdmissionsSpaced | internal/service/resilience.go:75-118 | admissions of successive HALF_OPEN periods with no CLOSED between them are a resetTimeout apart |
| CircuitBreaking.OneAdmissionPerHalfOpenPeriod | internal/service/resilience.go:83-88 | one HALF_OPEN period admits at most one request |
| CircuitBreaking.RejectedIffOpenOrProbing | internal/service/resilience.go:68-92 | a request is turned away if and only if the breaker opened less than resetTimeout ago or a half-open probe is unreported: it recovers once the probe reports |
| CircuitBreaking.FailuresCountStreak | internal/service/resilience.go:99-104 | the failure counter is the number of consecutive failed reports of the current CLOSED period, below the threshold |
| CircuitBreaking.OpensExactlyAtThreshold | internal/service/resilience.go:104-108 | CLOSED turns OPEN exactly on the threshold-th consecutive failed report |
| CircuitBreaking.ProbeDecides | internal/service/resilience.go:109-118 | on every trace a failed report in HALF_OPEN opens the breaker from that time on, a good one closes it with no failures; no probe is running after either |
| CircuitBreaking.RecoversAfterGoodProbe | internal/service/resilience.go:94-118 | after a good report in HALF_OPEN every request is admitted until as many reports have failed as the threshold |
| CircuitBreaking.HoldsOffAfterFailedProbe | internal/service/resilience.go:75-118 | after a failed report in HALF_OPEN nothing is admitted for a whole resetTimeout |
| CircuitBreaking.QueryIsHarmless | internal/service/resilience.go:57-66 | reading the state answers OPEN exactly while the breaker opened less than resetTimeout ago, and never changes what a request is told from then on |
| CircuitBreaking.SettingsInForce | internal/service/resilience.go:32-45 | a new breaker opens on the threshold-th failure in a row, the third by default, and then admits nothing for its timeout, 30 s by default |
| Retrying.Retry | internal/service/resilience.go:131-195 | for every setting, every sequence of answers and every way the context ends: the calls made are those answers up to the first that is not a timeout, an unavailable bank or a passed deadline, at most MaxAttempts, one when that is not positive, and no further than the context lasts; nil if and only if the last approved, else its error, or the context's when that ended it; every delay slept is its backoff plus jitter, with 50 ms and 1 s for settings that are not positive, when the delays are exact |
| Retrying.ChargesDecided | internal/service/resilience.go:168-192 | what the calls answer and when the context ends decide which calls are made |
| Retrying.RetryDelay | internal/service/resilience.go:197-208 | jitter only lengthens the capped backoff, by at most jitter - 1 |
| Retrying.EveryDelayDrawn | internal/service/resilience.go:203-207 | each delay from the backoff to the backoff plus jitter - 1 comes of exactly one draw |
| Retrying.DelaysNonDecreasing | internal/service/resilience.go:197-201 | pre-jitter delays never decrease |
| Retrying.BackoffTotalClosedForm | internal/service/resilience.go:197-201 | the pre-jitter delays of n attempts sum to base * (2^k - 1) + (n - 1 - k) * max with k delays below the cap |
| Retrying.SleptTotal | internal/service/resilience.go:188-207 | what was really slept exceeds the closed form by at most (n - 1) * max(0, jitter - 1) |
| Retrying.DefaultDelaysExact | internal/service/resilience.go:137-140 | with the default base delay of 50 ms all delays are computed exactly if and only if at most 39 attempts are allowed: the next one leaves int64 |
| Retrying.NormalizedError | internal/service/payment.go:772-788 | a deadline that only the bank call had passed reads as a bank timeout, one the caller had passed too stays a deadline, and every other error is the bank's own |
| AuditLog.ReplayReadsChain | internal/service/payment.go:685-691 | replaying the events finds a transaction's history valid exactly when it is a chain of allowed transitions from CREATED, and ends in its last ToStatus |
| AuditLog.TrailOnRuns | internal/service/payment.go:661-731 | on every run each transaction's trail is right, for its creation or for nobody, until one of its transitions is left half-done or a refund of it commits late, and damaged for ever after |
| AuditLog.TrailAcrossStep | internal/service/payment.go:661-719 | one step keeps a right trail right unless it leaves that transaction's transition half-done or refunds it late, which damages it, and no step mends a damaged one |
| AuditLog.AuditReplaysToState | internal/service/payment.go:661-719 | on every run a transaction whose creation is over has a chain of allowed transitions from CREATED ending in the stored status, and one announcement of each announced status it has reached, if and only if no transition of it was left half-done and no refund of it committed late |
| AuditLog.OutboxCountsStatuses | internal/service/payment.go:253-268 | when no creation is under way and nothing was left half-done or refunded late, the outbox rows of each type are as many as the transactions that reached that status |
| AuditLog.CountIsSetSize | internal/repository/postgres/events.go:98-113 | one row per member of a set and none for anybody else makes the rows as many as the members |
| AuditLog.HalfDoneTrail | internal/service/payment.go:697-719 | in the middle of a transition, or with a recorded FAILED unannounced, the stored status, the trail and the outbox disagree |
| OutboxDelivery.MoveKeepsOk | internal/service/outbox_worker.go:169-194 | claims, publishes, marks, deaths, inserts and the clock keep claim times spaced, publishes covered by claims and marks covered by acknowledgements |
| OutboxDelivery.ClaimsSpaced | internal/repository/postgres/events.go:88-135 | the b-th and a-th claims of one row are at least (b - a) leases apart |
| OutboxDelivery.DuplicatesBounded | internal/repository/postgres/events.go:88-135 | by time T a row first claimed at t0 has had at most 1 + floor((T - t0) / 30 s) Publish calls |
| OutboxDelivery.ClaimableAgain | internal/repository/postgres/events.go:120-135 | a row can be claimed if and only if it is unpublished and its last claim is 30 s old: none is lost |
| OutboxDelivery.PublishedNeverClaimed | internal/repository/postgres/events.go:123-163 | a published row stays published and is never claimed again |
| OutboxDelivery.PublishedWasAcked | internal/service/outbox_worker.go:181-187 | a row is published only after a successful Publish of that row |
| OutboxDelivery.MarkSettles | internal/repository/postgres/events.go:158-171 | a MarkPublished that works leaves the row published and never claimed again |
| OutboxDelivery.InsertedStays | internal/repository/postgres/events.go:98-113 | an inserted row can be claimed at once and keeps its place and its creation time through every claim, mark and crash |
| EndToEnd.StepKeepsOutboxTrue | internal/service/payment.go:661-719 | every outbox row keeps naming a status its transaction has reached, and an announced FAILED is final, through every step and undo |
| EndToEnd.NextKeepsOk | internal/service/outbox_worker.go:111-194 | ledger steps and the steps of the workers' batches over one outbox table keep each other's invariants |
| EndToEnd.DeliveryTruthful | internal/service/outbox_worker.go:169-194 | every event a worker's batch ever handed to the publisher names a status its transaction has reached, whatever failed, crashed or overlapped |
| EndToEnd.PublishedMeansDelivered | internal/repository/postgres/events.go:158-171 | published = TRUE implies at least one successful Publish of that row by some batch |
| WorkerPools.WorkerPool.constructor | internal/concurrency/patterns.go:20-31 | a new pool has idle workers, an empty queue and no slot taken |
| WorkerPools.WorkerPool.TakeSlotForJob | internal/concurrency/patterns.go:40-57 | Submit is refused exactly when the pool is closed or all slots are taken, and otherwise holds a slot and the mutex |
| WorkerPools.WorkerPool.SendJob | internal/concurrency/patterns.go:50-53 | the send into the buffer is the pool's send step and releases the mutex |
| WorkerPools.WorkerPool.HandJob | internal/concurrency/patterns.go:33-53 | the send that meets a waiting worker hands it the job and releases the mutex |
| WorkerPools.WorkerPool.ReceiveJob | internal/concurrency/patterns.go:33-38 | a worker's receive is the pool's receive step |
| WorkerPools.WorkerPool.RunJob | internal/concurrency/patterns.go:35-37 | the end of a job is the pool's run step |
| WorkerPools.WorkerPool.ReleaseSlot | internal/concurrency/patterns.go:50-53 | the deferred receive frees one slot |
| WorkerPools.WorkerPool.ExitWorker | internal/concurrency/patterns.go:33-38 | an idle worker leaves when the closed channel is drained |
| WorkerPools.WorkerPool.CloseJobs | internal/concurrency/patterns.go:60-66 | the channel is closed once however often Shutdown is called, counting every close |
| WorkerPools.OpKeepsOk | internal/concurrency/patterns.go:20-69 | every channel operation keeps slots = sender + queue + workers still holding one, and jobs taken in the order accepted |
| WorkerPools.UnfinishedBounded | internal/concurrency/patterns.go:20-58 | accepted but unfinished jobs never exceed the slots taken, and these never exceed workers + queueSize |
| WorkerPools.SendNeverStalls | internal/concurrency/patterns.go:48-54 | a Submit holding a slot can send now or after an idle worker takes the next job: no running job has to end |
| WorkerPools.NoSendAfterClose | internal/concurrency/patterns.go:40-66 | nothing is sent on a closed channel |
| WorkerPools.ShutdownRanEverything | internal/concurrency/patterns.go:60-69 | when Shutdown returns every accepted job has run exactly once, given a worker or no queue |
| WorkerPools.NoWorkersLoseJobs | internal/concurrency/patterns.go:20-69 | without workers but with a queue a run exists in which Shutdown returns and an accepted job never ran |
| WorkerPools.ShutdownProgress | internal/concurrency/patterns.go:33-69 | in a closed pool the only operation left is closing again exactly when Shutdown has returned, and every other operation uses up a bounded amount of work |
| OutboxBatch.WorkerCount | internal/service/outbox_worker.go:196-207 | the smaller of batch and configured concurrency, and 1 when either is not positive |
| OutboxBatch.StepKeepsOk | internal/service/outbox_worker.go:130-194 | every interleaving of producer, jobs and cancellation keeps one result per finished job and the pool's invariant |
| OutboxBatch.NoSubmitRefused | internal/service/outbox_worker.go:138-156 | no Submit of a batch is refused |
| OutboxBatch.ResultSendNeverBlocks | internal/service/outbox_worker.go:134-153 | a job about to report always finds room in the results channel |
| OutboxBatch.PublishesBounded | internal/service/outbox_worker.go:130-132 | at most workerCount publishes run at once |
| OutboxBatch.MarksOnlySent | internal/service/outbox_worker.go:181-190 | MarkPublished is called only for an event whose Publish succeeded |
| OutboxBatch.OneResultPerEvent | internal/service/outbox_worker.go:158-166 | after Shutdown there is exactly one result for every event submitted and none for any other, and every event was submitted unless the context ended |
| OutboxBatch.ResultsTruthful | internal/service/outbox_worker.go:169-194 | every result says what happened to its event: whether Publish was called for it and worked, whether MarkPublished was and did; Publish is called at most once for an event, and not at all for one that only found the context ended |
| OutboxBatch.NothingPublishedAfterCancel | internal/service/outbox_worker.go:138-179 | once the context has ended the batch submits nothing more and calls Publish for nothing more |
| OutboxBatch.BatchProgress | internal/service/outbox_worker.go:138-166 | until Shutdown has returned some step of the batch is possible, and every step but a cancellation uses up a bounded amount of work: the batch ends as soon as its calls do |
| OutboxFleet.BatchStepIsMove | internal/service/outbox_worker.go:169-194 | every step of a real batch is one move of its event's claim in the delivery protocol, or none, and leaves other claims alone |
| OutboxFleet.FleetStepKeepsOk | internal/service/outbox_worker.go:111-194 | claiming a batch, every step of every batch, and everything the table undergoes beside them keep each batch tied to its own claims in the delivery protocol |
| OutboxFleet.FleetDuplicatesBounded | internal/service/outbox_worker.go:111-194 | with any number of workers running their batches, dying or not, a row has at most one Publish call per claim and at most 1 + floor((T - t0) / 30 s) by time T |
| OutboxDrain.OutboxRepo.Create | internal/repository/postgres/events.go:98-113 | a new row is last, unpublished and without a lease |
| OutboxDrain.OutboxRepo.MarkPublished | internal/repository/postgres/events.go:158-171 | exactly the named row is marked; an unknown ID changes nothing |
| OutboxDrain.OutboxRepo.Oldest | internal/repository/postgres/events.go:121-126 | the row found is claimable and no claimable row is older; none is found only when none is claimable |
| OutboxDrain.OutboxRepo.FetchUnpublished | internal/repository/postgres/events.go:115-156 | exactly min(limit, claimable) rows are leased, oldest first, and every other row is untouched |
| OutboxDrain.ProcessBatch | internal/service/outbox_worker.go:111-128 | an error-free batch publishes exactly the oldest min(batchSize, claimable) rows and changes no other |
| OutboxDrain.DrainBound | internal/service/outbox_worker.go:111-128 | from any table: after k rounds at least min(N, k * batchSize) rows are published, N the rows claimable at the first round, and at most k * batchSize; none of them is newer than a claimable row that is left; exactly that minimum when every unpublished row was claimable |
| OutboxDrain.DrainFinishes | internal/service/outbox_worker.go:111-128 | ceil(unpublished / batchSize) rounds publish every row claimable at the first one, and every row when all unpublished ones were |
| OutboxDrain.ClaimableOnceLeasesEnd | internal/repository/postgres/events.go:120-135 | 30 s after the last claim of each row every unpublished row of a delivery history is claimable |
| OutboxDrain.BatchClaimIsMoves | internal/repository/postgres/events.go:115-156 | a batch claim is a run of single claims of the delivery protocol and leaves the rows the claim statement leaves |
| OnePayment.KeysAgreeIffHeadersAgree | internal/middleware/idempotency_middleware.go:34-44 | middleware and handler use the same key if and only if the two headers do not contradict each other |
| OnePayment.ActKeepsOk | internal/middleware/idempotency_middleware.go:31-87 | requests, Redis losses, Redis calls that work, fail without effect or fail after it, and ledger steps keep every stored response and every Redis entry a stored transaction made for a request with that Redis key, whatever the headers say and whatever collides |
| OnePayment.SuccessHasMaker | internal/middleware/idempotency_middleware.go:52-84 | on every run a success carries a stored transaction made under the key of the request itself or of one with the same Redis key |
| OnePayment.OneRowPerKey | migrations/0002_create_transactions.sql:17-19 | two rows with one non-empty key are the same row, sent to the bank stage at most once and credited at most once, whatever Redis and the headers do |
| OnePayment.SameTransactionForKey | internal/middleware/idempotency_middleware.go:52-84 | two successes for one key carry the same stored transaction unless one of them shares its Redis key with a request of another key; other requests do not matter |
| OnePayment.PlainRequestsNeverMix | internal/middleware/idempotency_store.go:101-103 | agreeing headers and merchant IDs without a closing brace never share a Redis key across keys |
| OnePayment.ReplayMatchesIffHeadersAgree | internal/handler/handlers.go:137-137 | on every run a replay comes from an answered request that shares the Redis entry and carries the handler's key if and only if that request's handler key is the same; when the writer's headers agree and neither merchant ID holds a closing brace, if and only if the replayed request's own headers agree |
| OnePayment.CheckDecides | internal/middleware/idempotency_middleware.go:31-75 | a request that finds its entry is answered from it, with a conflict or the stored success, and never reaches the ledger; one that finds none, has no identity or whose check fails always does |
| OnePayment.FinishDecides | internal/middleware/idempotency_middleware.go:74-84 | a request's answer is a success exactly when the handler's is; behind its entry a success is stored, and removed where the store failed, a failure removes the entry; without one Redis is left alone, as are all other entries |
| OnePayment.RepeatIsReplayed | internal/middleware/idempotency_middleware.go:58-82 | on every run, once a request has ended in a success and until its entry is lost or rewritten, every request that shares the entry gets that very response and the ledger does not hear of it |
| OnePayment.FailureFreesEntry | internal/middleware/idempotency_middleware.go:77-84 | on every run, once a request has ended in a failure, the next request that shares the entry reaches the ledger |
| KeyMixing.MixedKeysSplit | internal/middleware/idempotency_middleware.go:52-84 | whenever requests of one key can be fed by payable requests of different keys there is a run from a fresh system that ends in two successes for that key with different transactions |
| KeyMixing.PromiseKeptIffKeysDoNotMix | internal/middleware/idempotency_middleware.go:34-84 | every run of a set of requests answers each key with one transaction if and only if no two requests of one key can be fed by payable requests of different keys |
| KeyMixing.PlainRequestsKeepPromise | internal/middleware/idempotency_store.go:101-103 | agreeing headers and merchant IDs without a closing brace keep the promise on every run |
| KeyMixing.DisagreeingHeadersSplitAKey | internal/middleware/idempotency_middleware.go:34-44 | a request with only Idempotency-Key and one that adds a different X-Idempotency-Key break the promise |
| KeyMixing.CollidingMerchantsSplitAKey | internal/middleware/idempotency_store.go:101-103 | two requests with agreeing headers break the promise when their merchants' Redis keys collide |
| IdempotencyStores.KeyInjective | internal/middleware/idempotency_store.go:101-103 | for merchant IDs without a closing brace equal Redis keys mean the same merchant and key |
| IdempotencyStores.CollideIffPrefix | internal/middleware/idempotency_store.go:101-103 | two merchants can share a Redis key if and only if one ID closed by the separator starts the other |
| IdempotencyStores.IdempotencyStore.Check | internal/middleware/idempotency_check.lua:10-25 | an absent or expired entry becomes in_progress for 60 s and proceeds, a present one decides busy or replay and is untouched; an empty merchant ID or key bypasses Redis |
| IdempotencyStores.IdempotencyStore.StoreCompleted | internal/middleware/idempotency_store.go:78-92 | the pair's entry becomes completed with this status and body for 24 h |
| IdempotencyStores.IdempotencyStore.Release | internal/middleware/idempotency_store.go:94-99 | the pair's entry is gone, every other entry stays |
| IdempotencyStores.OwnershipOnSchedules | internal/middleware/idempotency_middleware.go:52-84 | under each Redis key, while its runs never overlapped, the run in flight owns the in-progress entry its own Check made |
| IdempotencyStores.OneRunInFlight | internal/middleware/idempotency_middleware.go:52-75 | at most one handler run under a Redis key is in flight while its runs finish within 60 s, however slow the runs under other keys are |
| IdempotencyStores.SecondRunIffLate | internal/middleware/idempotency_check.lua:10-25 | one turn puts a second run beside the one in flight if and only if it is such a late arrival |
| IdempotencyStores.OverlapIffLateArrival | internal/middleware/idempotency_check.lua:10-25 | on every schedule two runs under one Redis key are at some time in flight together if and only if a request for it arrived when a run of it had outlived the 60 s |
| IdempotencyStores.SlowRunOverlaps | internal/middleware/idempotency_check.lua:10-25 | a real schedule from an empty store in which a handler of 60 s ends up beside a second run for the same merchant and key |
| IdempotencyStores.FinishTouchesOwnEntry | internal/middleware/idempotency_middleware.go:77-84 | a run finishing in time finds its own live entry, replaces it with its 200..299 response for 24 h or removes it, and leaves the entries of all other Redis keys as they were |
| IdempotencyStores.ExactReplay | internal/middleware/idempotency_middleware.go:58-68 | for 24 h after a 2xx stored by a run that is alone under its Redis key every request for that key gets that status and body and no handler runs |
| IdempotencyStores.ReplayOnlyAfterStore | internal/middleware/idempotency_store.go:78-103 | a replay comes only from a 2xx stored in the last 24 h under the same Redis key, and by the same merchant and key when merchant IDs hold no closing brace |
| IdempotencyStores.FailedRunFreesKey | internal/middleware/idempotency_middleware.go:77-84 | on every schedule, after a run that ended outside 200..299 the next request for its Redis key runs the handler, however soon it comes |
| IdempotencyStores.BusyMeansRunning | internal/middleware/idempotency_check.lua:10-25 | on every schedule a busy answer means a run under that Redis key that began less than 60 s ago and has not ended |
| IdempotencyStores.BusyIffRunning | internal/middleware/idempotency_check.lua:10-25 | as long as the runs of a Redis key never overlapped, a request for it is busy if and only if one of them is in flight and younger than 60 s |
| IdempotencyStores.SecondRunIffNoIdentity | internal/middleware/idempotency_store.go:47-50 | beside a run younger than 60 s a second run for the same merchant and key is let through if and only if the pair has an empty merchant ID or key |
| TokenBuckets.SeenIsMinimum | internal/middleware/middleware.go:231-236 | the tokens a call sees are the minimum over all windows ending at it of burst + rate * length - admissions |
| TokenBuckets.AdmittedIffEveryWindowFits | internal/middleware/middleware.go:231-242 | a call is admitted if and only if no window ending at it would hold more than burst + rate * length admissions |
| TokenBuckets.TokenBucket.constructor | internal/concurrency/patterns.go:205-212 | a new bucket is full and has seen no call, whatever its rate |
| TokenBuckets.TokenBucket.Allow | internal/concurrency/patterns.go:214-231 | one token goes exactly when the refilled, capped bucket holds one, and for a non-negative rate that is the closed form over the whole call history |
| TokenBuckets.Bucket.Take | internal/middleware/middleware.go:231-242 | one token goes if and only if the refilled, capped bucket holds one |
| TokenBuckets.RateLimiter.Allow | internal/middleware/middleware.go:220-243 | the decision is the closed form over this key's own calls, and no other key's history or bucket changes |
| RedisRateLimit.RedisBucket.Run | internal/middleware/rate_limit.lua:6-40 | the script's decision is that of a bucket that starts full again 60 s after its last call, for either reading of exactly 60 s |
| RedisRateLimit.RemembersSinceLastGap | internal/middleware/rate_limit.lua:13-38 | for every rate the script's decision is that of a bucket that never forgets and was full at the last call that came more than 60 s after the one before it |
| RedisRateLimit.ForgettingInvisible | internal/middleware/rate_limit.lua:13-38 | whenever 60 * rate >= burst every decision on every sequence is that of a bucket that never expires |
| RedisRateLimit.ForgettingVisible | internal/middleware/rate_limit.lua:37-38 | with a smaller rate two bursts a little over a minute apart are decided differently |
| RedisRateLimit.InvisibleIffRefilledInTime | internal/middleware/rate_limit.lua:13-38 | the two buckets agree on all sequences if and only if 60 * rate >= burst |
| Compensation.MerchantRepo.GetByID | internal/repository/mock/repos.go:28-37 | a merchant returned is the stored one |
| Compensation.MerchantRepo.UpdateBalance | internal/repository/mock/repos.go:51-63 | success moves exactly one balance by delta and never below zero; any failure changes nothing |
| Compensation.TransactionRepo.Create | internal/repository/mock/repos.go:79-86 | the row is stored under its ID, overwriting one that exists, and noted last in the order |
| Compensation.TransactionRepo.GetByID | internal/repository/mock/repos.go:88-97 | a transaction returned is the stored one |
| Compensation.TransactionRepo.GetByIdempotencyKey | internal/repository/mock/repos.go:99-109 | a hit is a stored row with that key; a miss means that no stored row has it |
| Compensation.TransactionRepo.UpdateStatus | internal/repository/mock/repos.go:111-120 | success changes exactly one status; any failure changes nothing |
| Compensation.EventRepo.Create | internal/repository/mock/repos.go:158-164 | exactly this event is appended, or nothing on failure |
| Compensation.OutboxRepo.Create | internal/repository/mock/repos.go:191-199 | exactly this event is appended, or nothing on failure |
| Compensation.PaymentService.EmitOutboxEvent | internal/service/payment.go:808-823 | one announcement on success, none on failure; without an outbox it cannot fail |
| Compensation.PaymentService.Screen | internal/service/payment.go:116-186 | a stored row with the key answers a matching request and refuses another as a duplicate; going on means no stored row has the key and the request is valid for a known merchant; each refusal has its own error |
| Compensation.PaymentService.CreateWithMocks | internal/service/payment.go:275-292 | success means row, CREATED audit row and announcement; failure leaves at most the row, no other row touched |
| Compensation.PaymentService.RollbackTransition | internal/service/payment.go:707-719 | the earlier status is back unless the undo write fails, in which case the error says so and the row stays |
| Compensation.PaymentService.Transition | internal/service/payment.go:661-705 | for every set of failing calls: whether it succeeds, the status that is stored, the audit row and, for COMPLETED and FAILED, the announcement that are written, and that the error names a failed undo exactly when one was needed and failed |
| Compensation.PaymentService.CompleteWithMocks | internal/service/payment.go:423-450 | status and balance after a completion for every set of failing calls; the compensating debit fails only where that set says so, never for lack of funds |
| Compensation.PaymentService.CallBank | internal/service/payment.go:452-475 | rejected if and only if the breaker is open less than its timeout ago or probing, with no charge and the breaker as it was; else exactly the charges that answers, settings and context call for, nil error if and only if the last approved, an error that is the reason the bank was given up, and a breaker that hears exactly that |
| Compensation.PaymentService.SettleWithBank | internal/service/payment.go:309-336 | stored status, returned status and credit, from the bank's answer and the failing calls; FAILED comes with its reason, audit row and announcement |
| Compensation.PaymentService.ProcessPayment | internal/service/payment.go:294-337 | the same from PENDING on: the bank is asked exactly when that stage is reached, and success needs its approval and a completion in which nothing failed |
| Compensation.PaymentService.PayFresh | internal/service/payment.go:188-229 | a new row exactly when the insertion works, a returned transaction exactly when its audit row and announcement do too, what is stored of it, what is returned of it, what the bank was asked and what it did to the books, for every set of failing calls |
| Compensation.PaymentService.WhatIsLost | internal/service/payment.go:423-450 | status and credit part ways exactly when exactly one needed undo write failed, stored and returned status exactly when a needed status rollback failed, and neither without a failing undo write |
| Compensation.PaymentService.CreateTransaction | internal/service/payment.go:112-229 | for every set of failing calls: the books balance unless the bank approved and exactly one needed undo write failed, the returned status is stored unless a needed status rollback failed, both hold when no undo write fails, no InsufficientFunds, no other row touched; a new row exactly for a new, valid request whose reads and insertion work, and the bank asked exactly as breaker, answers and settings say when it gets that far; success is a matching replay that changes nothing or one COMPLETED row, its credit, three audit rows and two announcements; a repeated request does succeed, with no charge and no new row, and a key reused for another request is refused |
| Compensation.PaymentService.RefundWithMocks | internal/service/payment.go:562-594 | for every set of failing calls the books balance exactly when the status was not written or the debit worked, and success needs every write |
| Compensation.PaymentService.RefundTransaction | internal/service/payment.go:477-510 | for every set of failing calls: the books balance unless REFUNDED was written and the debit failed; success moved status and balance, with one audit row and one announcement; a missing or foreign transaction and one that is not COMPLETED are refused by name, and without the status write nothing changes |
| Compensation.RefundCoveredByBooks | internal/repository/mock/repos.go:51-63 | while the books balance and opening balances are not negative, the debit of a refund never lacks funds |
| Compensation.SettledBooks | internal/service/payment.go:423-450 | a new status and a new balance agree exactly when the credit went with COMPLETED |

## Left out

- HTTP handlers, JSON, routing, CORS, API keys, recovery, logging, tracing, metrics, configuration and start-up: no deep state.
- PostgreSQL, Redis and Kafka themselves: every statement or script is one atomic step, which may fail without effect, and a Redis call of the request path also after its effect; a database transaction is one step that commits whole or not at all, so isolation between two open transactions is not modelled.
- The instant of expiry in Redis: an idempotency entry counts as gone from its expiry instant on; the rate limiter's results hold for either reading.
- BIGSERIAL gaps in outbox IDs (an ID is the row's position) and the JSON payloads (an event carries its type, transaction and status).
- The bank: a charge returns an approval or an error; what a timed-out charge did at the bank is unknown to the model.
- Changes to merchants and balances by anyone but this service, and merchants added or deactivated during a run.
- Floating-point rounding in the token buckets (reals) and overflow of delay plus jitter; retryDelay is exact integer arithmetic while base < 2^53 and the product fits int64, and is left open beyond.
- Clocks that run backwards, panics inside jobs or breaker calls, and jobs that shut down their own pool.
- The idempotency response writer's buffering: a response is its final status and body.
- In-memory FetchUnpublished, MarkPublished, list queries and API-key lookup: the compensating path never uses them.
- Overlapping CreateTransaction calls on the in-memory path: it has no unique index, so its claims are for calls that nothing interleaves with.
- VerifyTransaction, ProcessConcurrently, SafeMetrics, pagination, the migrations runner, ID generation and error-to-status mapping: easy members only.
- OnePayment.SameTransactionForKey: successes that share their Redis key with a request of another key are excluded; the promise fails for them.
- Answers.SuccessIsTrue: says nothing about the status of a replayed PENDING or PROCESSING transaction, which its own request may still undo.
- OutboxDrain.DrainFinishes: one worker, no inserts and no errors, as the bound is about; rows leased at the start need not be finished.
- Compensation.PaymentService.CreateTransaction: the generated ID is taken as new; the in-memory repository would overwrite an existing one.

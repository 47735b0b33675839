# Ledgerstream: the payment saga and the gateway's guards, proved

Ledgerstream authorizes and captures payments, relays each capture through an outbox to Kafka, posts it to a
double-entry ledger, and voids the payment when the ledger rejects it. A gateway in front of the services limits
rates, caches reads and breaks circuits; an AI service fails over between LLM providers. This project models that
behaviour and proves what it promises.

## How it is laid out

* **The saga as a step machine** (`SagaMachine.dfy`). One `World` holds the payments, the outbox, the books, both
  topics with their dead-letter topics and committed offsets, and the private state of any number of relays, ledger
  consumers and saga consumers. An `Action` is one atomic step of one of them: an authorize or capture transaction, a
  `SKIP LOCKED` batch lock, a produce, the broker's write, a delivery callback, a mark, a commit, a rollback, a
  sub-step of handling a message, an exception with or without its effect, a crash, a restart. Actions interleave
  freely, so at-least-once delivery at every hop is part of the model. `SagaInvariant.dfy` proves the invariant that
  every action keeps; `SagaGuarantees.dfy` and `SagaRelay.dfy` read the safety promises off it and off run histories;
  `SagaProgress.dfy` proves that fault-free steps use up a measured amount of work, and `SagaConvergence.dfy` what is
  true when it is gone; `SagaDuplicates.dfy` says exactly when a row is published twice, and `SagaWitnesses.dfy`
  gives the runs that show where the promises stop.
* **The services and workers as sequential code** (`Payments.dfy`, `Ledger.dfy`, `RelayWorker.dfy`,
  `ConsumerWorkers.dfy`, `Retry.dfy`). Classes over the tables and topics, in the source's own control flow. A relay
  cycle and the handling of one message are each proved to be a run of the machine (`Reaches`), whatever the broker
  does and whichever calls raise, so the machine's guarantees hold of them.
* **Races on authorize** (`AuthorizeRace.dfy`), the two **token buckets** (`TokenBucket.dfy`), the **circuit breaker**
  and the client it guards (`Breaker.dfy`, `GatewayClient.dfy`), **LLM failover** (`LlmGateway.dfy`), and the
  **cache-aside proxy**, as a step machine (`CacheAside.dfy`, `CacheFreshness.dfy`) and as the request path that is a
  run of it (`ProxyView.dfy`).

## Where the code says more than it does

* `_to_dlq` in both workers is documented as making the message safe before the commit, but it does not look at the
  delivery result. A message a worker could not read is lost exactly when its dead-letter write is: the ledger
  consumer then leaves an event unposted and unanswered (`LostWriteLosesEvent`), the saga consumer a rejected payment
  CAPTURED and unbooked (`LostWriteLosesRejection`). With delivery nothing is lost (`NoEventLostWithDeadLetters`).
* A message can be both answered and dead-lettered, for two reasons: the commit sits inside the `try`
  (`AnsweredAndParked`), and an emission can raise although the outcome was written. Handling one message ends so
  exactly when it could be read, the dead-letter write is delivered, and either an attempt goes through and the commit
  raises or none does and one's outcome was written (`AnsweredAndParkedExactlyWhen`, `VoidedAndParkedExactlyWhen`; both
  also say exactly when it leaves nothing at all).
* The relay is said never to double-publish. Batches are disjoint, but a rolled-back cycle publishes again
  (`RollbackDuplicates`), and so does one whose message was written and then reported as failed
  (`FailedReportDuplicates`). With no cycle open, fault-free work repeats nothing exactly when no PENDING row is in
  the topic already, which a query can check (`NoRepeatsExactlyWhen`); runs without the two faults never get there
  (`PublishedAtMostOnce`).
* `compensate_payment` voids any payment that is not VOIDED, an AUTHORIZED one included
  (`CompensationSafeExactlyWhen`). That it never meets one is an invariant of the whole system
  (`CompensationMeetsCaptured`).
* The breaker is said to let one probe through; in `half_open` it lets every caller through (`OverlappingProbes`). At
  most one passes between two reports exactly when callers take turns and every call that went through reports
  (`OneProbeExactlyWhen`); an exception that is neither a request error nor a response does not. The bound on failed
  calls holds exactly when callers take turns (`BoundExactlyWhen`).
* After an invalidation the next read is said to be fresh; a read overtaken by the write stores the old body
  afterwards (`OvertakenReadStoresStale`), and a write whose success never arrives invalidates nothing
  (`LostReplyStaysCached`). With no write unfinished or lost, an overtaken store is exactly what makes a hit stale
  (`StaleHitsOverlap`). All hits of all runs are fresh exactly when requests take turns and no success is lost
  (`FreshExactlyWhen`). The TTL bound holds regardless.
* The cache key is said to keep tenants apart. Under two names it does, exactly when neither name is the other with a
  colon and more behind it (`KeysMeetExactlyWhen`), so it does for the names without a colon that the routes use.
* The bucket script sets `ts` back when the clock goes back, so the simple window bound holds of all callers exactly
  when the clock never does, by however little (`SimpleBoundExactlyWhen`). Exactly then, too, do the script and the
  in-memory bucket answer all callers alike (`BucketsAgreeExactlyWhen`).
* The script's key expiry adds a second to the refill time and rounds up. It goes unnoticed exactly when the callers'
  lags behind the server differ by no more than what that leaves over, between one and two seconds by the limits
  (`ExpiryUnobservableExactlyWhen`).

## Model

| member | source | states |
|---|---|---|
| `SagaInvariant.StepKeeps` | services/payment/payments/services.py:72-140 | Every action of every process, whatever the interleaving, keeps the system invariant over tables, logs, offsets and process states |
| `SagaInvariant.RunKeeps` | services/ledger/consumer/worker.py:101-195 | Any run from an invariant state ends in one |
| `SagaInvariant.ReachableSound` | services/payment/outbox/relay.py:109-191 | The invariant holds in every state any run reaches from empty tables and topics |
| `SagaInvariant.CaptureKeeps` | services/payment/payments/services.py:80-121 | Status change and outbox row in one transaction keep one row per captured payment and none before |
| `SagaInvariant.CommitPostingKeeps` | services/ledger/ledger/services.py:65-92 | Committing a posting keeps the books sound, the entries tied to their events, and no other open insert's event posted |
| `SagaInvariant.EmitKeeps` | services/ledger/consumer/worker.py:158-195 | Whatever earlier attempts or other consumers did, the outcome emitted is the event's one deterministic outcome, and a POSTED one has its entry |
| `SagaInvariant.OffsetKeeps` | services/ledger/consumer/worker.py:135-142 | An offset moves only past messages that were answered, parked, or lost on the way to the dead-letter topic |
| `SagaInvariant.CompensateKeeps` | services/payment/consumer/worker.py:100-104 | Acting on an outcome keeps the life cycle: only captured payments in unsupported currencies are voided |
| `SagaInvariant.RejectionMeetsCaptured` | services/payment/consumer/worker.py:100-104 | A REJECTED outcome names an unsupported payment that is CAPTURED or VOIDED, never AUTHORIZED |
| `SagaInvariant.RelayStepKeeps` | services/payment/outbox/relay.py:120-191 | Each relay sub-step keeps batches disjoint and PENDING, deliveries produced and logged, and logged events equal to their rows |
| `SagaGuarantees.NeverBookedAndVoided` | services/payment/payments/services.py:72-140 | In every reachable state a booked payment is CAPTURED, and a VOIDED one is unsupported and unbooked |
| `SagaGuarantees.ExactlyOncePosting` | services/ledger/ledger/services.py:54-75 | At most one entry per event id and at most one per payment, under any redelivery and concurrency |
| `SagaGuarantees.EntryHasItsTwoLines` | services/ledger/ledger/services.py:77-86 | Each entry has exactly one CASH debit and one MERCHANT_PAYABLE credit of its payment's amount, currency and tenant |
| `SagaGuarantees.EventsTellThePayment` | services/payment/payments/services.py:98-116 | In every reachable state an event carries its payment's own tenant, amount, currency and reference, and the payment is CAPTURED or VOIDED |
| `SagaGuarantees.OutcomesTellThePayment` | services/ledger/consumer/worker.py:158-195 | And an outcome its payment's tenant, POSTED exactly for USD and EUR, the reason, and an identifier of its own event |
| `SagaGuarantees.BooksAlwaysBalance` | services/ledger/ledger/services.py:27-32 | Over every run debits equal credits per tenant and currency, and the two balances mirror each other and equal the posted amounts |
| `SagaGuarantees.NoEventLost` | services/ledger/consumer/worker.py:101-156 | Captured payments have rows; rows are PENDING or logged; every message below a committed offset was answered, parked, or lost by an unchecked dead-letter write |
| `SagaGuarantees.DroppedOnlyByLostWrites` | services/ledger/consumer/worker.py:151-156 | Offsets are lost by undelivered dead-letter writes and by nothing else |
| `SagaGuarantees.NoEventLostWithDeadLetters` | services/payment/consumer/worker.py:72-112 | With dead-letter delivery, every committed message has its effect or its copy in the dead-letter topic |
| `SagaGuarantees.StatusMovesByOne` | services/payment/payments/services.py:86-95 | One step moves a status by at most one place, by a capture or a compensation only |
| `SagaGuarantees.RunForward` | services/payment/payments/models.py:29-33 | Over every run statuses only move AUTHORIZED to CAPTURED to VOIDED, facts of payments and rows never change, journal and logs only grow |
| `SagaGuarantees.OneRowOnceCaptured` | services/payment/payments/services.py:94-116 | No outbox row while AUTHORIZED and exactly one ever after |
| `SagaGuarantees.CompensationSafeExactlyWhen` | services/payment/payments/services.py:131-135 | On its own, compensation keeps to the life cycle exactly when the payment is CAPTURED or VOIDED; it would void an AUTHORIZED one |
| `SagaGuarantees.CompensationMeetsCaptured` | services/payment/payments/services.py:124-140 | In every reachable state a compensation that is about to happen meets a payment that is CAPTURED or VOIDED |
| `SagaRelay.LockedBatchesDisjoint` | services/payment/outbox/relay.py:121-126 | Any number of relays hold disjoint batches of rows that are still PENDING |
| `SagaRelay.PublishedOnlyIfAcked` | services/payment/outbox/relay.py:130-190 | A row is PUBLISHED only if, in one cycle of one relay, it was locked, the message that very cycle produced for it was acknowledged by the broker, and that cycle committed |
| `SagaRelay.RollbackLeavesPending` | services/payment/outbox/relay.py:114-115 | A rolled-back cycle changes no row, and what it held can be claimed again |
| `SagaRelay.PublishedAtMostOnce` | services/payment/outbox/relay.py:111-116 | Without rollbacks and written-but-unacknowledged messages, each row is in the topic at most once, over whole runs |
| `SagaDuplicates.NoRepeatsExactlyWhen` | services/payment/outbox/relay.py:13-20 | From any reachable state with no cycle open and no row twice in the topic, fault-free work keeps it so in every interleaving if and only if no PENDING row is in the topic |
| `SagaDuplicates.LeftLoggedRepeats` | services/payment/outbox/relay.py:121-126 | A PENDING row that is in the topic is written once more by a fault-free run to the end |
| `SagaDuplicates.LeftLoggedIsReachable` | services/payment/outbox/relay.py:13-16 | Such a row is reachable, with every relay idle and no row twice in the topic, for every crew; its fault-free work then duplicates it |
| `SagaWitnesses.LostWriteLosesEvent` | services/ledger/consumer/worker.py:151-156 | From any state at a committed offset, an unreadable event is passed with nothing posted or emitted, and it is in the dead-letter topic if and only if the write was delivered |
| `SagaWitnesses.LostWriteLosesRejection` | services/payment/consumer/worker.py:106-112 | Likewise a REJECTED outcome: payments and books stay as they are, the offset passes it, and it is in the dead-letter topic if and only if the write was delivered |
| `SagaWitnesses.AnsweredAndParked` | services/ledger/consumer/worker.py:135-142 | One of the two ways: a raising commit dead-letters a message that was already answered |
| `SagaWitnesses.RollbackDuplicates` | services/payment/outbox/relay.py:13-15 | Two rolled-back cycles put one row's event in the topic twice and leave the row PENDING |
| `SagaWitnesses.FailedReportDuplicates` | services/payment/outbox/relay.py:133-139 | Two committed cycles whose message was written but reported as failed put one row's event in the topic twice and leave the row PENDING |
| `SagaProgress.HealthyStepProgresses` | services/payment/outbox/relay.py:109-191 | Every fault-free sub-step of any number of relays, the ledger consumer or the saga consumer, in any interleaving, uses up exactly the work it gets done and leaves fewer steps to take |
| `SagaProgress.HealthyRunProgresses` | services/ledger/consumer/worker.py:101-195 | Over any fault-free run work is conserved: what is left plus what was done is what there was, and the run is bounded |
| `SagaProgress.BatchesFit` | services/payment/outbox/relay.py:18-21 | All relays together hold as many rows as their batches are long, all PENDING, and count no more shipped rows or steps than these allow |
| `SagaProgress.OldestRows` | services/payment/outbox/relay.py:121-126 | The locking query always has an answer: the oldest rows up to the batch size, nonempty while any row is PENDING |
| `SagaProgress.SomeHealthyStep` | services/payment/consumer/worker.py:60-98 | Unless everything is done and everyone at rest, some fault-free step is possible: the saga never gets stuck half way |
| `SagaProgress.HealthyRunFinishes` | services/ledger/consumer/worker.py:77-96 | Any state of fault-free work can be carried to one with nothing left |
| `SagaConvergence.FinishedIsSettled` | services/ledger/ledger/services.py:50-57 | With nothing left, a payment ever captured is booked exactly once if supported, voided and unbooked if not, unless it was dead-lettered |
| `SagaConvergence.CashIsWhatWasCaptured` | services/ledger/ledger/views.py:39-60 | With nothing left and nothing dead-lettered, each tenant's CASH is the sum of its CAPTURED payments |
| `SagaConvergence.Restart` | services/payment/outbox/relay.py:13-20 | From any state, ending open transactions and starting new processes loses nothing and leads to a crew at rest |
| `SagaConvergence.WorkAtRest` | services/ledger/consumer/worker.py:48-51 | At rest the work is 3 for each PENDING row, 2 for each unread event, 1 for each unread outcome |
| `SagaConvergence.EveryRunSettles` | services/payment/outbox/relay.py:194-206 | With any number of relays, whatever the interleaving and the batch size, a fault-free run gets done at most that work, in at most seven times as many steps; when it cannot go on it has done exactly that, and every payment ever captured is settled |
| `SagaConvergence.EveryRunBalancesCash` | services/ledger/ledger/views.py:39-60 | If nothing was dead-lettered before, each tenant's CASH is then the sum of its still CAPTURED payments and no payment is unsettled |
| `SagaConvergence.SagaConverges` | services/ledger/consumer/worker.py:48-51 | From any reachable state, after any faults, a restart and a fault-free run of bounded length settle every payment that was not dead-lettered |
| `SagaRuns.ReachableReaches` | services/ledger/consumer/worker.py:101-145 | What a worker's method leads to from a reachable state is reachable, so every guarantee above holds after it |
| `Payments.PaymentService.AuthorizePayment` | services/payment/payments/services.py:25-69 | Creates exactly when no payment of the tenant holds the non-null key, else returns the holder; an empty key skips the lookup and meets the constraint |
| `Payments.PaymentService.CapturePayment` | services/payment/payments/services.py:72-121 | By the payment as it was: not found exactly when absent or another tenant's, emitted exactly when AUTHORIZED, a no-op exactly when CAPTURED, else refused with its status; when emitted, the status moves and one row with the payment's own data is new, and otherwise nothing changes |
| `Payments.CaptureCases` | services/payment/payments/services.py:80-92 | The four results of a capture, each if and only if, by presence, tenant and status alone |
| `Payments.PaymentService.CompensatePayment` | services/payment/payments/services.py:124-140 | Voids exactly when the payment exists and is not VOIDED, says so, and changes nothing else |
| `Payments.PaymentService.CapturePaymentsBatch` | services/payment/payments/services.py:143-173 | One result per id in order, each of the four outcomes if and only if, by the payments before the batch, repeated ids included; exactly the capturable ids end captured; one new row per "captured", with that payment's data |
| `Payments.BatchPayments` | services/payment/payments/services.py:153-156 | The batch's final payments depend on the set of ids only |
| `Payments.BatchOrderIrrelevant` | services/payment/payments/services.py:143-151 | Any two batches with the same ids, reordered or repeated, end in the same statuses |
| `Payments.PermutationSameElements` | services/payment/payments/services.py:143-151 | Permutations are such batches |
| `Payments.ItemIsItsCapture` | services/payment/payments/services.py:154-172 | Each item's outcome, defined without running the batch, is the result of its own capture at its turn |
| `Payments.ItemCases` | services/payment/payments/services.py:154-172 | An item is not_found, captured, already_captured or invalid_state exactly by its id's presence, tenant and status before the batch and by whether the id came earlier in it |
| `Payments.BatchRowAt` | services/payment/payments/services.py:98-116 | An item reported as captured left one row, under its own identifier, with its payment's tenant, amount, currency and reference |
| `Payments.BatchRows` | services/payment/payments/services.py:148-149 | The batch adds as many outbox rows as items reported captured, each under an identifier it was given, and changes no old row |
| `Payments.BatchRerun` | services/payment/payments/services.py:150 | Running the ids again, in any order, captures nothing and changes nothing |
| `Ledger.LedgerService.PostPaymentCaptured` | services/ledger/ledger/services.py:40-92 | POSTED exactly for USD and EUR, else REJECTED with the currency named; a first POSTED delivery adds one entry, one CASH debit and one MERCHANT_PAYABLE credit of the event's amount, and the accounts they need; any other changes nothing; the books stay sound and the balance check never fails |
| `Ledger.WithAccountsSound` | services/ledger/ledger/services.py:20-24 | Get-or-create of the two accounts leaves both there, one account per tenant and code, and every old account |
| `Ledger.LedgerService.Balances` | services/ledger/ledger/views.py:39-60 | Exactly one row for each of the tenant's accounts with its code and type: CASH is debit-normal, with the posted total debited and nothing credited, MERCHANT_PAYABLE the other way round; each balance is debits less credits |
| `Ledger.AddEntrySound` | services/ledger/ledger/services.py:62-86 | A new event's entry keeps unique events, unique known accounts, and two matching lines per entry |
| `Ledger.TrialBalance` | services/ledger/ledger/services.py:77-86 | Sound books net to zero per tenant and currency, and MERCHANT_PAYABLE is minus CASH is minus the posted total |
| `Ledger.SidesOfPrefix` | services/ledger/ledger/services.py:77-86 | In sound books CASH is only ever debited and MERCHANT_PAYABLE only credited, each by the posted total |
| `Ledger.EntrySums` | services/ledger/ledger/services.py:27-32 | An entry's own lines sum to one debit and one equal credit among all lines |
| `Ledger.DeliverAllGrows` | services/ledger/ledger/models.py:52-58 | Deliveries only append to the journal |
| `Ledger.BalancesAreKeptTotals` | services/ledger/ledger/views.py:42-57 | For any deliveries with repeats, balances summed on read equal totals kept on first delivery |
| `Ledger.DeliveredIsPosted` | services/ledger/ledger/services.py:56-75 | A supported event that was delivered, whenever and however often, is posted |
| `Ledger.ReplayChangesNothing` | services/ledger/ledger/services.py:47-57 | Replaying deliveries in any order and number leaves the books as they are |
| `RelayWorker.OutboxRelay.RunOnce` | services/payment/outbox/relay.py:109-191 | For every reply of the broker and wherever an exception ends the cycle: exactly the rows this cycle produced and saw acknowledged turn PUBLISHED and are counted, unless it raised; the topic grows by messages that carry their rows, past a flush by all that were not lost; the producer queue, leftovers of older cycles included; and it is all a run of the machine |
| `RelayWorker.EndedMeans` | services/payment/outbox/relay.py:178-191 | The same row by row and message by message, whatever the broker and the exception |
| `RelayWorker.OutboxRelay.ProduceAll` | services/payment/outbox/relay.py:141-177 | The rows with a schema are queued in order; the others are skipped |
| `RelayWorker.OutboxRelay.Flush` | services/payment/outbox/relay.py:178-184 | After the barrier every queued message has its report, and only callbacks of this cycle have collected acknowledged rows |
| `RelayWorker.OutboxRelay.CutShort` | services/payment/outbox/relay.py:114-115 | An exception while producing changes no row; the topic has what the producer's thread had sent by then, in order; exactly the messages not sent stay in its queue, and exactly the sent ones without a callback are outstanding |
| `RelayWorker.OutboxRelay.PumpEarly` | services/payment/outbox/relay.py:164-177 | Messages sent and callbacks run while the loop is still producing: the log grows by those sent, the queue keeps those waiting, the written but unreported are remembered, and it is a run of the machine |
| `RelayWorker.OutboxRelay.Settle` | services/payment/outbox/relay.py:186-191 | The delivered rows become PUBLISHED and are counted, or nothing does when the update fails |
| `RelayWorker.AckedIn` | services/payment/outbox/relay.py:130-139 | A row is marked exactly when this very cycle produced it and the broker acknowledged that message |
| `RelayWorker.EarlyIn` | services/payment/outbox/relay.py:164-177 | The queue keeps exactly the tickets that are waiting and the log gets exactly those written by then |
| `RelayWorker.WrittenIn` | services/payment/outbox/relay.py:163-168 | The log gets exactly the messages the broker wrote, acknowledged or not |
| `RelayWorker.WrittenInOrder` | services/payment/outbox/relay.py:141-168 | They are written in the order of the queue, no two swapped and none twice |
| `RelayWorker.SerializableIn` | services/payment/outbox/relay.py:142-148 | Exactly the rows whose event type has a schema are produced, once each |
| `RelayWorker.InRowOrder` | services/payment/outbox/relay.py:141-148 | And in the order of the rows |
| `ConsumerWorkers.LedgerConsumer.HandleMessage` | services/ledger/consumer/worker.py:101-145 | For every script of faults, the last commit included: the books take the event once or not at all, only copies of its one outcome are added, what dead letters and offset become, when the process survives, and that it is all a run of the machine |
| `ConsumerWorkers.MadeMeans` | services/ledger/consumer/worker.py:124-195 | The entry with its two lines is new exactly when the event is settled in this currency, was not posted, and some attempt got through its transaction; outcomes are added exactly when one wrote it, all with the event's identifier, tenant, payment, verdict and reason |
| `ConsumerWorkers.AnsweredAndParkedExactlyWhen` | services/ledger/consumer/worker.py:124-156 | One handling that starts with neither leaves the event both answered and dead-lettered if and only if it was read, parked, and either answered with a raising commit or failed with an outcome written; it leaves neither if and only if nothing was written and nothing parked |
| `ConsumerWorkers.LedgerConsumer.ProcessWithRetry` | services/ledger/consumer/worker.py:127 | At most four attempts, stopping at the first success; failure means every attempt raised |
| `ConsumerWorkers.LedgerConsumer.Process` | services/ledger/consumer/worker.py:147-149 | One attempt posts and emits, or stops at the fault with what had taken effect by then |
| `ConsumerWorkers.BooksAfterOnce` | services/ledger/consumer/worker.py:124-127 | However many attempts got through, the books took the event once |
| `ConsumerWorkers.AttemptRuns` | services/ledger/consumer/worker.py:147-149 | Each kind of attempt is a run of the machine with exactly that effect |
| `ConsumerWorkers.SagaConsumer.HandleMessage` | services/payment/consumer/worker.py:72-98 | For every script of faults, the last commit included: the rejected payment is voided exactly when some attempt gets that far and nothing else changes, what dead letters and offset become, when the process survives, and that it is a run of the machine |
| `ConsumerWorkers.VoidedAndParkedExactlyWhen` | services/payment/consumer/worker.py:82-112 | The same for a payment that is both voided and its outcome dead-lettered, and for one that is neither |
| `ConsumerWorkers.SagaConsumer.CompensateWithRetry` | services/payment/consumer/worker.py:85 | At most four attempts, stopping at the first success |
| `ConsumerWorkers.SagaConsumer.CompensateIfRejected` | services/payment/consumer/worker.py:100-104 | Payments change only on REJECTED, and then by compensation |
| `ConsumerWorkers.PaymentsFromOnce` | services/payment/consumer/worker.py:84-85 | However many attempts got through, the payment is voided once and nothing else changes |
| `ConsumerWorkers.VoidedMeans` | services/payment/consumer/worker.py:100-104 | Exactly the payment a REJECTED outcome names is VOIDED, if an attempt before the first success, or that one, gets through its transaction |
| `ConsumerWorkers.TriesAreCalls` | libs/shared/ledgerstream_shared/kafka.py:36-50 | The attempts either consumer makes are the calls the shared retry helper makes |
| `Retry.RunWithRetry` | libs/shared/ledgerstream_shared/kafka.py:27-50 | Stops at the first success, raises only after maxRetries + 1 failures; the i-th sleep is the base doubled i times and all sleeps sum to the next one less the base |
| `Retry.BackoffIsPower` | libs/shared/ledgerstream_shared/kafka.py:44 | Repeated doubling is the power-of-two formula |
| `AuthorizeRace.RaceKeeps` | services/payment/payments/services.py:41-69 | Any interleaving of lookups, inserts, conflicts and status changes keeps unique keys and one creator per payment; answers stand and payments keep their facts |
| `AuthorizeRace.OnePaymentPerKey` | services/payment/payments/models.py:54-61 | Whatever the race, two payments of one tenant with the same non-null key are the same payment |
| `AuthorizeRace.SameKeySamePayment` | services/payment/payments/services.py:64-69 | Completed calls with one key got one payment, made as the first writer asked, and at most one was told it created it |
| `AuthorizeRace.KeylessAlwaysCreates` | services/payment/payments/models.py:38-40 | A call without a key created its own payment, shared with no other call |
| `AuthorizeRace.CallsAdvance` | services/payment/payments/services.py:66-69 | No call gets stuck: the loser of an insert always finds the winner |
| `AuthorizeRace.CreateIsAuthorize` | services/payment/payments/services.py:50-58 | A winning insert is the saga machine's authorize step |
| `TokenBucket.RedisLimiter.RunScript` | services/gateway/gateway/ratelimit.py:30-60 | In numbers, for present, expired and missing keys: a live hash refilled up to the capacity, anything else full; allowed exactly when that is enough, the wait otherwise, the tokens left, the time, and the key's life in whole seconds; no other key changes |
| `TokenBucket.ScriptMeans` | services/gateway/gateway/ratelimit.py:37-59 | The script's functions are those numbers |
| `TokenBucket.RedisLimiter.Check` | services/gateway/gateway/ratelimit.py:65-82 | One token is asked of the identity's own bucket, and no other identity's is touched |
| `TokenBucket.MemoryLimiter.CheckRateLimit` | services/ai/app/guardrails.py:25-44 | In numbers: raises with the wait rounded up to whole seconds, leaving the bucket alone, exactly when under one token is left; else spends one |
| `TokenBucket.MemoryMeans` | services/ai/app/guardrails.py:32-44 | The dictionary's functions are those numbers |
| `TokenBucket.StaysInRange` | services/gateway/gateway/ratelimit.py:45-54 | Tokens stay between zero and the capacity on any clock |
| `TokenBucket.WindowBound` | services/gateway/gateway/ratelimit.py:37-59 | From any state any stretch of calls is granted at most the capacity plus the refill of the clock's upward moves within it |
| `TokenBucket.MonotoneWindowBound` | services/gateway/gateway/ratelimit.py:3-6 | On a monotone clock: at most the capacity plus the refill over the window's length |
| `TokenBucket.SteppingClockExceeds` | services/gateway/gateway/ratelimit.py:45-56 | For every capacity, every refill, every starting time and every step back however short, some single-token callers on a clock that goes back by no more are granted more than the simple bound |
| `TokenBucket.SimpleBoundExactlyWhen` | services/gateway/gateway/ratelimit.py:3-6 | The simple bound holds of all callers if and only if the clock never goes back |
| `TokenBucket.DenialChangesNothing` | services/gateway/gateway/ratelimit.py:52-56 | Although a denial rewrites the hash, every later level is as if it had not happened |
| `TokenBucket.WaitIsExact` | services/gateway/gateway/ratelimit.py:52-54 | After a denial every earlier retry is denied, whatever calls were made in between, and a call is admitted exactly when the wait is over |
| `TokenBucket.HeaderIsLongEnough` | services/gateway/gateway/views.py:63-65 | The Retry-After sent exceeds the wait by at most a second, and a lone caller who obeys it is admitted |
| `TokenBucket.MemoryHeaderIsLongEnough` | services/ai/app/guardrails.py:36-43 | The same of the in-memory limiter's rounded wait |
| `TokenBucket.BucketsAgree` | services/ai/app/guardrails.py:32-44 | On every monotone sequence the in-memory bucket and the script give the same answers and the same waits |
| `TokenBucket.BackwardClockSeparates` | services/ai/app/guardrails.py:36 | On a clock that goes back a full refill time their answers or waits differ for all limits, as one clamps the elapsed time and the other does not; which of them admits is stated |
| `TokenBucket.AnyStepBackSeparates` | services/ai/app/guardrails.py:36 | For all limits, any step back however short lets some callers tell them apart |
| `TokenBucket.BucketsAgreeExactlyWhen` | services/ai/app/guardrails.py:32-44 | So the two buckets give all callers the same answers and waits if and only if the clock never goes back |
| `TokenBucket.AdmittedInWindow` | services/ai/app/guardrails.py:25-44 | Either bucket admits at most its capacity plus the window's refill |
| `TokenBucket.ExpiryUnobservable` | services/gateway/gateway/ratelimit.py:57-58 | Dropping idle keys never changes a decision or a wait, as long as callers' lags behind the server vary by at most the expiry time less the refill time |
| `TokenBucket.MoreLagShows` | services/gateway/gateway/ratelimit.py:58 | For every limits, with any more variation some single-token calls on a server clock that never goes back are answered differently |
| `TokenBucket.ExpiryUnobservableExactlyWhen` | services/gateway/gateway/ratelimit.py:57-58 | So expiry is unobservable from a new identity on if and only if the lags vary by at most that |
| `Breakers.Breaker.Allow` | services/gateway/gateway/breaker.py:49-57 | Passes unless open and still cooling, and turns half-open exactly when open and cooled |
| `Breakers.Breaker.RecordSuccess` | services/gateway/gateway/breaker.py:59-63 | Clears the count and closes, from any state |
| `Breakers.Breaker.RecordFailure` | services/ai/app/llm/breaker.py:40-47 | Counts one more, and trips at the threshold or from half-open |
| `Breakers.Registry.GetBreaker` | services/gateway/gateway/breaker.py:78-84 | One object per name, the same on every call, never shared; asking changes no state |
| `Breakers.ClosedIffStreakShort` | services/gateway/gateway/breaker.py:59-72 | Over every sequence of operations by any callers, closed holds exactly while failures since the last success are below the threshold |
| `Breakers.BreakerSpacing` | services/gateway/gateway/breaker.py:49-72 | Without a success, k failed calls past the threshold span at least k cooldowns from the end of the tripping call |
| `Breakers.WindowBound` | services/gateway/gateway/breaker.py:3-10 | A dead backend gets at most threshold + W / cooldown calls in a window W, from any sane reading |
| `Breakers.WindowBoundAfter` | services/gateway/gateway/breaker.py:3-10 | And so from any point of any history of operations, overlapping callers before it included |
| `Breakers.HistoriesAreSane` | services/gateway/gateway/breaker.py:49-72 | Every sequence of operations on a new breaker leaves it closed exactly while its count is below the threshold, and half-open only past its cooldown |
| `Breakers.FailuresAreSpaced` | services/ai/app/llm/breaker.py:27-47 | From the threshold on each failed call starts a cooldown after the one before ended, escaping exceptions in between or not |
| `Breakers.OpenTurnsAway` | services/gateway/gateway/breaker.py:51-56 | While cooling, every attempt is turned away and none reaches the backend |
| `Breakers.OverlappingProbes` | services/gateway/gateway/breaker.py:53-63 | Callers that overlap, at whatever times after the cooldown, all pass an open breaker, and a late success closes it |
| `Breakers.OneProbeExactlyWhen` | services/gateway/gateway/breaker.py:9-10 | Over every history with at most m calls in flight, a breaker that is not closed passes at most one caller between two reports if and only if m is 0, or m is 1 and every call that went through reports |
| `Breakers.SilenceAddsProbes` | services/gateway/gateway/client.py:70-82 | For every policy, one call that ends in an exception nobody records lets a second caller probe, turns or not |
| `Breakers.BoundExactlyWhen` | services/gateway/gateway/breaker.py:3-10 | Over every history without a success, from any past, at most threshold + W / cooldown calls fail in a window W if and only if m is at most 1, or there is no cooldown |
| `Breakers.OverlapExceeds` | services/gateway/gateway/breaker.py:49-72 | For every policy, two callers at once make threshold + 2 calls fail within one cooldown |
| `GatewayClient.Client.Forward` | services/gateway/gateway/client.py:41-82 | Turned away exactly while open and cooling; an answer below 500 zeroes the count and closes, a 5xx or a request error is one failure more and trips at the threshold or from half-open, any other exception leaves the count; the caller gets the status, the error or the exception; no other breaker changes |
| `GatewayClient.DeadServiceIsSpared` | services/gateway/gateway/client.py:70-81 | A service whose every answer is a fault gets the bounded number of calls |
| `GatewayClient.AnsweringServiceIsOpen` | services/gateway/gateway/client.py:78-82 | A service that answers below 500 every time, client errors included, is never turned away and its breaker stays closed |
| `LlmGateway.Gateway.RunLoop` | services/ai/app/llm/gateway.py:81-100 | Turn by turn: the question first, then each round's tool calls with all their outputs; a final turn gives exactly its text, a refusal the refusal, an exception of model or tool none, a fourth complete round the budget text; the tools used are the names of all calls in order |
| `LlmGateway.LoopEnds` | services/ai/app/llm/gateway.py:81-100 | So the reply is determined by the last turn and the histories by the rounds before it |
| `LlmGateway.Gateway.RunTools` | services/ai/app/llm/gateway.py:96-98 | Tools run in order, their outputs keep the calls' ids, and any exception ends the loop |
| `LlmGateway.Gateway.Answer` | services/ai/app/llm/gateway.py:59-79 | The answer is the last tried provider's own: its name, and the text and tools its loop ended with; every one before it was skipped or raised; and every breaker is as trying them in order leaves it |
| `LlmGateway.Gateway.TryProvider` | services/ai/app/llm/gateway.py:68-78 | One provider behind its breaker: skipped exactly while open and cooling, else its loop's own reply, or one failure more, a tool's exception included |
| `LlmGateway.HistoriesArePaired` | services/ai/app/llm/gateway.py:94-99 | In every history each tool_use is followed by a tool_result with the same ids in the same order, and tools used are its names concatenated |
| `LlmGateway.FirstWins` | services/ai/app/llm/gateway.py:59-79 | With distinct names the first provider neither skipped nor raising answers; only its breaker is reset, each earlier raiser gets one failure, later ones nothing |
| `LlmGateway.BuildProviders` | services/ai/app/llm/gateway.py:28-51 | The configured order, exactly the runnable names, never empty |
| `CacheAside.KeyInjective` | services/gateway/gateway/cache.py:20-23 | Names without a colon never let two tenants share a key |
| `CacheAside.ColonsCollide` | services/gateway/gateway/cache.py:23 | Two tenants can meet in a key when a name has a colon |
| `CacheAside.KeysMeetExactlyWhen` | services/gateway/gateway/cache.py:20-23 | Two names share a key for some tenants if and only if one is the other followed by a colon and more; a single name never does |
| `CacheAside.StepKeepsProxy` | services/gateway/gateway/views.py:68-107 | Every step of interleaved requests keeps entries true to an answer of their own name and tenant, and every missed write accounted for |
| `CacheAside.HitsAreBounded` | services/gateway/gateway/cache.py:36-43 | Under any interleaving a hit is a status-200 body of the same tenant stored less than a TTL ago, so its age is below the TTL plus the storing read's flight |
| `CacheAside.StaleHitsOverlap` | services/gateway/gateway/views.py:94-99 | A stale hit needs a store that a write overtook, a write that has not finished invalidating, or one whose success was lost; without the last two, it is stale if and only if its store was overtaken |
| `CacheAside.SequentialHitsAreFresh` | services/gateway/gateway/cache.py:46-53 | When requests take turns a hit never predates the last write applied to its data, unless the success of one was lost |
| `CacheAside.OvertakenReadStoresStale` | services/gateway/gateway/views.py:94-99 | Whenever a write overtakes a read between answer and store, the old body stays cached with no request left in flight |
| `CacheAside.LostReplyStaysCached` | services/gateway/gateway/client.py:70-76 | Whenever a write is applied and its success lost, what was cached stays cached, stale |
| `CacheFreshness.FreshExactlyWhen` | services/gateway/gateway/views.py:68-107 | With at most m requests in flight, no hit of any run predates an applied write if and only if m is 0, or m is 1 and no success is lost, or entries do not live at all |
| `ProxyViews.ProxyView.Handle` | services/gateway/gateway/views.py:68-107 | Over budget, by the bucket of the tenant or, without one, of the address, nothing behind the limiter is touched and the wait is sent; else the request is served as below |
| `ProxyViews.ProxyView.Serve` | services/gateway/gateway/views.py:72-107 | A cached read that hits is answered with that body and reaches neither backend nor breaker; else 503, an exception or the backend's own status; a 200 read is stored for its TTL, a write below 400 drops exactly the listed names of the tenant; and in the machine that is a hit of this request, a stored answer with the writes it knows of, or a write that counts once |
| `ProxyViews.MissRight` | services/gateway/gateway/views.py:79-107 | The reply and the whole cache after a forwarded request, by the breaker, the transport and the verb alone |
| `ProxyViews.ForwardedSteps` | services/gateway/gateway/views.py:94-99 | The machine's steps for it: an answer stored, a write counted, a write counted although its success is lost, or nothing |
| `ProxyViews.ProxyView.EnforceRateLimit` | services/gateway/gateway/views.py:49-65 | Per tenant, or per address without one; throttled with the rounded-up wait exactly when the bucket denies |
| `ProxyViews.ProxyView.DropAll` | services/gateway/gateway/views.py:97-99 | Exactly the listed names of this tenant are dropped |
| `ProxyViews.RequestRuns` | services/gateway/gateway/views.py:94-99 | Whatever becomes of a request, what the view does to the cache is a run of the machine in which a successful write counts, a stored body is the backend's answer, and an applied write whose success did not arrive is lost |

## Left out

- Kafka partitions, rebalancing between partitions and per-key ordering: each payment has one event, so a topic is one log and any consumer may be at any position.
- Avro, the schema registry and JSON: a body is an opaque value and decoding may fail at any message.
- Postgres and Redis internals: a transaction is one atomic step (or its separate statements where they race), with row locks, unique inserts and key expiry; concurrent creation of the same account row, foreign-key errors and identifier collisions are not modelled.
- A message a crashed consumer still had on the wire: the write happens before the crash or not at all. A relay's producer queue, which outlives its cycle, is modelled.
- JWT decoding, permissions, tenancy claims, the tool allowlist, forwarded headers, correlation ids, logging, timestamps on rows, pagination, settings parsing, signal handlers and the polling loops around one message or cycle.
- ConsumerWorkers.LedgerConsumer.HandleMessage: no other consumer holds the event in the unique index meanwhile; that race is in the machine only.
- RelayWorker.OutboxRelay.RunOnce: no other process moves during the cycle, and in a cycle that gets to its flush the messages are written there, in queue order; the machine has the other interleavings.
- SagaConvergence.EveryRunSettles: one ledger consumer and one saga consumer are at work beside the relays, in any interleaving of their sub-steps; with more of them the safety results hold, but several ledger consumers at one offset may each emit the outcome, so work is not conserved and no bound is stated.
- TokenBucket.WindowBound: real arithmetic; floating-point rounding in Lua and Python is not modelled.
- TokenBucket.MemoryLimiter.CheckRateLimit: one call at a time, as the code takes no lock.
- Breakers.BreakerSpacing: callers take turns on a nondecreasing clock; for callers that overlap, `Breakers.BoundExactlyWhen` says that the bound fails.
- LlmGateway.BuildProviders: takes the order already split and stripped; providers and tools are arbitrary scripts, the SDK calls and prompts are not part of this model.
- Management commands, demo scripts, load tests, migrations, the MCP server and deployment files.

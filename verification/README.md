# Wallet, outbox, ledger: a verified model

This project models the money path of the wallet/ledger system as one distributed protocol and
proves what holds it together. The path runs from the wallet store (`services/wallet/store.go`),
through the transactional outbox and its relays (`services/wallet/outbox.go`), the Kafka partitions
and the ledger consumers (`LedgerListener`, `JournalService`), to the journal and the
reconciliation queries (`scripts/reconcile.sql`). Two smaller stateful cores stand beside it: the
fraud worker's velocity window and alert publication, and the gateway's rate limiter.

No single place in the system holds these properties together. They follow from version checks, row
locks kept until COMMIT, two UNIQUE constraints, a published flag, and an offset that is committed
only after the database.

## How it is built

The wallet, the relays and the ledger are three state machines whose actions are single SQL
statements, Kafka writes, offset commits, crashes and lost replies. `System` joins them: a run is
any sequence of enabled actions, so any number of calls, relays and consumers interleave between
any two statements. One inductive invariant is kept by every action, and the main results in
`Theorems` hold of the state after every run, for every retry limit and every partition hash.

| modules | content |
|---|---|
| `Types`, `Sums` | values exchanged between the services; finite sums for the aggregates |
| `Engine`, `EngineInvariant`, `EngineSteps`, `EngineCommit`, `EngineTheorems`, `Undisturbed` | the optimistic-lock transaction engine under READ COMMITTED |
| `Refusals` | the cause of every business error |
| `Serial` | the committed requests, run one by one, give the stored tables |
| `Events`, `Payloads` | the event payloads, the ledger's parsing of them, and the fields it does not read |
| `Bus`, `BusInvariant` | outbox, relays, Kafka log |
| `Order`, `Reorder`, `Scenario` | which deployments keep per-wallet order, exactly, with runs that lose it |
| `Ledger`, `LedgerInvariant`, `Reports` | consumers, journal, trigger, view, reconciliation |
| `System`, `Theorems`, `Draining` | the whole, the results over every run, and a run that drains it |
| `World`, `WalletStore`, `RelayWorker`, `LedgerConsumer`, `Backoff` | the services' methods, statement by statement on shared state, with an arbitrary environment acting in between |
| `RateLimit`, `Velocity`, `Alerts` | gateway limiter, fraud window, fraud alerts |

The service methods keep a trace of all actions, their own and the environment's; keeping it legal
means that they take only steps of the state machine, so every result over runs applies to them.

## Assumptions

- Generated transaction and wallet ids are fresh.
- The broker log is durable and not truncated before it is read, and only the relay writes to the
  two money topics, so every record there is one the relay sent.
- Values of the outbox id sequence increase in allocation order; rows may still commit out of order.
- The database runs at READ COMMITTED: a statement sees the rows committed when it runs, and an
  UPDATE that waited for a row looks at its WHERE clause again.
- A UUID is its canonical lower-case text (section 4 of RFC 9562), as `parseUUID` and `id::text`
  give it.
- Clocks, randomness, failing connections, lost replies, cancelled contexts, the Kafka writer and
  everything the rest of the system does are parameters, and the results hold for all of them.

## Where code and comments differ

- The comment at `services/wallet/store.go:298` names 10 ms as the first limit of the random wait.
  The code's first limit is 20 ms, because the shift starts at one (`Backoff.LimitValues`).
- The shift overflows at attempt 40, where `rand.N` would panic. All waits are safe if and only if
  maxRetries is at most 39 (`Backoff.BackoffSafeIff`).
- The comment at `services/wallet/main.go:42` says that events stay in order per wallet. That depends on
  the deployment: `Reorder.OrderedIff` states the exact condition on the relays, their batch size and
  the writer.
- The velocity count can include an event that is exactly one minute old, but only for times before
  1970 (`Velocity.CountBoundIff`, `Velocity.PreEpochCountIsHigh`).

## Model

| member | source | states |
|---|---|---|
| `Theorems.LedgerTracksWallets` | scripts/reconcile.sql:6-21 | in every reachable state, each wallet's balance is its journal balance plus the deltas of the committed transactions whose event is not journalled yet |
| `Theorems.DrainedReconciles` | scripts/reconcile.sql:10-31 | with no unpublished row and all offsets at the log end, both reconciliation queries are empty and external:cash is minus the sum of all balances |
| `Theorems.DifferencesAreInFlight` | scripts/reconcile.sql:15-21 | in every run the first reconciliation query lists exactly the wallets whose transactions in flight do not cancel out |
| `Theorems.EveryCommitIsAtomic` | services/wallet/store.go:158-229 | whatever interleaved, a COMMIT is exactly one atomic deposit or transfer on the tables of that instant, reply lost or not |
| `Theorems.EveryReplayIsAtomic` | services/wallet/store.go:159-166 | a key that is found is answered as an atomic replay or conflict and changes nothing |
| `Theorems.UndisturbedCallIsAtomic` | services/wallet/store.go:113-229 | from every reachable state, every uninterrupted run of a call whose rows are unlocked can be completed, and every completed one returned the specification's move, replay or refusal and left its tables; only a balance above 0x7fff_ffff_ffff_ffff or a version above 0x7fff_ffff fails, and then nothing changes |
| `Serial.CommitsReplayAtomically` | services/wallet/store.go:113-229 | running the committed requests one by one in commit order as atomic steps, from the wallets as created, gives exactly the stored wallets and transactions, which are what the calls returned |
| `Theorems.CommitOrderIsSerial` | services/wallet/store.go:250-265 | commit order is a serial order: no prefix overdraws a wallet, and all commits together give exactly the stored balances and versions |
| `Theorems.MoneyIsConserved` | db/migrations/V2__wallet.sql:4-29 | the sum of all balances is the sum of all committed deposits |
| `Theorems.VersionCheckProtectsBalance` | db/migrations/V2__wallet.sql:7-11 | an UPDATE whose version check passes sees exactly the row that was read and never fails the balance CHECK |
| `Theorems.OneCommitPerKey` | db/migrations/V2__wallet.sql:26-27 | at most one committed transaction per (user, key) in every run |
| `Theorems.SameKeySameReply` | services/wallet/store.go:114-124 | all successful replies for one (user, key) return the same committed transaction, with each request's kind, amount and recipient |
| `Theorems.RefusedCallsMoveNothing` | services/wallet/store.go:287-307 | a call that returned a business error or ErrTooMuchContention committed nothing |
| `Refusals.RefusalsHaveCauses` | services/wallet/store.go:113-189 | in every run, whatever ran alongside, a refused call was refused for a cause: no such wallet in the tables when it began, one and the same wallet, another currency, a committed balance below the amount at some moment of the call, or a commit under the key that answers something else |
| `Refusals.CurrencyNeverDiffers` | db/migrations/V2__wallet.sql:8 | every wallet there ever is holds USD, so ErrCurrencyMismatch is never returned |
| `Refusals.ActionFine` | services/wallet/store.go:113-189 | every statement of every call keeps the causes of all refusals, and a refusing one has its own |
| `Theorems.ContentionIsReal` | services/wallet/store.go:279-307 | on ErrTooMuchContention each of the maxRetries attempts is charged to a commit of another call on this call's wallets, made between that attempt's first read and its failure; at most one failed through a unique violation |
| `Theorems.NoDeadlock` | services/wallet/store.go:191-205 | no chain of calls waiting for each other's row locks closes into a cycle |
| `Theorems.NoUniqueIndexWait` | services/wallet/store.go:135-138 | when a call is at its INSERT, no other session has an uncommitted transaction with the same user and key |
| `Theorems.SomeCallCanStep` | services/wallet/store.go:191-205 | every unfinished call leads, along a chain of calls each waiting for the next one's lock, to a call with an enabled statement |
| `Theorems.NoLossNoPhantom` | services/wallet/outbox.go:81-141 | each committed event is in an unpublished row or in the log, and each record in the log is a committed event in its key's partition |
| `Theorems.OutboxIdsFollowCommits` | services/wallet/store.go:200-226 | transactions that share a wallet have outbox ids in commit order |
| `Theorems.LedgerExactlyOnce` | services/ledger/src/main/java/com/walletledger/ledger/JournalService.java:36-66 | one entry per event at most, with its transaction's own lines; every record below a committed offset has one; the DLQ stays empty |
| `Theorems.DoubleEntry` | db/migrations/V3__ledger.sql:30-71 | every committed entry's debits equal its credits, every entry being posted balances, and the account balances of the view sum to zero |
| `Theorems.HistoryOnlyGrows` | db/migrations/V3__ledger.sql:50-63 | over every continuation, entries, transactions and log only grow |
| `Theorems.DeployedIsFaithful` | services/ledger/src/main/java/com/walletledger/ledger/LedgerListener.java:45-72 | the ledger's parser turns every wallet event into the entry of its transaction |
| `Payloads.EventsNameTheParties` | services/wallet/store.go:143-152 | in every run each event carries the users who own its wallets, their currency and the amount, and is keyed by the initiator's wallet |
| `Payloads.CommitKeepsParties` | services/wallet/store.go:215-226 | the recipient and currency read by the attempt are still those of the rows at COMMIT |
| `Draining.DrainedIsReachable` | scripts/reconcile.sql:6-8 | from every reachable state some continuation without any wallet statement drains the system and leaves the wallets as they were |
| `Reorder.OrderedIff` | services/wallet/outbox.go:81-141 | all runs of a deployment keep the events of every (topic, key) in commit order if and only if it makes no attempt, publishes nothing, or has one relay with batches of one row or with a writer that appends per-partition prefixes and nothing after a failure |
| `Reorder.DisorderIsReached` | services/wallet/main.go:40-42 | every other deployment has a run from the initial state that puts a later event of a wallet into the log first |
| `Reorder.TwoRelaysReorder` | services/wallet/outbox.go:88-94 | two SKIP LOCKED relays do so |
| `Reorder.PartialWriteReorders` | services/wallet/outbox.go:123-129 | so does one relay whose failed write appended only the later event |
| `Reorder.LateAppendReorders` | services/wallet/outbox.go:123-129 | so does one relay whose failed write delivers the later event after it returned |
| `Order.LogFollowsCommitOrder` | services/wallet/outbox.go:88-128 | in the runs of a deployment that keeps order, no event is in the log before an earlier one of its (topic, key), whatever the writer repeats |
| `System.StepKeeps` | services/wallet/store.go:113-308 | every action of every service keeps the invariant of the whole system |
| `System.RunKeeps` | services/wallet/store.go:113-308 | so does every run |
| `EngineCommit.ActionKeeps` | services/wallet/store.go:113-308 | every statement of every call keeps the engine's invariant |
| `EngineCommit.InstallPosts` | services/wallet/store.go:191-205 | the rows written in lock order are those of the posted transaction |
| `EngineSteps.StaleIsCharged` | services/wallet/store.go:250-265 | zero rows matched means that another call committed on that wallet after this attempt began |
| `EngineSteps.UniqueIsCharged` | services/wallet/store.go:290-295 | a unique violation means that another call used the key after this attempt looked for it |
| `EngineSteps.CheckNeverFires` | services/wallet/store.go:252-265 | a version that still matches means that the whole row does and the debit is covered |
| `EngineSteps.CreateWalletKeeps` | services/wallet/store.go:89-96 | creating a wallet, or finding it there already once its row is unlocked, keeps the invariant |
| `EngineSteps.ResumeKeeps` | services/wallet/store.go:280-307 | the step to the next attempt, or out of the loop, keeps the invariant |
| `EngineTheorems.CommitRefinesAtomic` | services/wallet/store.go:282-289 | the COMMIT step equals the atomic specification on the committed tables |
| `EngineTheorems.FoundKeyRefinesAtomic` | services/wallet/store.go:115-121 | the key lookup's answer equals the atomic specification's |
| `EngineTheorems.NoWaitCycle` | services/wallet/store.go:191-205 | along a chain of waiting calls the wanted wallet ids grow, so it never returns |
| `EngineTheorems.SomeoneCanRun` | services/wallet/store.go:191-205 | the locks lead from a waiting call, call by call, to one that does not wait |
| `EngineTheorems.Progress` | services/wallet/store.go:113-229 | an unfinished call that does not wait for a row has an enabled next statement |
| `EngineInvariant.PlanCovers` | services/wallet/store.go:194-205 | the planned UPDATEs touch exactly the transaction's wallets by exactly its deltas |
| `EngineInvariant.PlanAscends` | services/wallet/store.go:191-199 | the UPDATEs go to different wallets in increasing id order |
| `Undisturbed.UndisturbedIsAtomic` | services/wallet/store.go:113-229 | from any state that meets the invariant, every completed undisturbed run of a call ends as the atomic specification, and every other one can be completed |
| `Undisturbed.RunsAgree` | services/wallet/store.go:113-229 | a call's next statement is determined: any undisturbed run is the beginning of any complete one |
| `Types.LessIsTotal` | services/wallet/store.go:196-199 | the id order that decides the lock order is total |
| `Types.LessIsTransitive` | services/wallet/store.go:196-199 | ... and transitive |
| `Events.DecodeEncode` | services/ledger/src/main/java/com/walletledger/ledger/LedgerListener.java:45-103 | round trip: the event of every committed transaction is accepted and yields exactly its entry and lines |
| `Events.AcceptedEntry` | services/ledger/src/main/java/com/walletledger/ledger/LedgerListener.java:45-72 | an accepted record is booked under its own ids and type, with its amount out of the sender's account or external:cash and into the recipient's |
| `Events.AcceptedIff` | services/ledger/src/main/java/com/walletledger/ledger/LedgerListener.java:45-103 | a message is accepted if and only if it is an object on a known topic whose required fields are strings with a non-blank character and whose amount is a positive integer |
| `BusInvariant.ActionKeeps` | services/wallet/outbox.go:81-160 | claims, partial and late appends, marks, crashes and cleanup lose and invent no event |
| `BusInvariant.EnqueueKeeps` | services/wallet/store.go:267-274 | neither does the outbox row that becomes visible with a COMMIT |
| `LedgerInvariant.ActionKeeps` | services/ledger/src/main/java/com/walletledger/ledger/LedgerListener.java:41-59 | assignment, posting, rollback, offset commit and stop keep exactly-once |
| `LedgerInvariant.CommitPostKeeps` | db/migrations/V3__ledger.sql:30-48 | at COMMIT the inserted rows are exactly the entry's lines, and the deferred trigger accepts them |
| `LedgerInvariant.EntryIsBalanced` | services/ledger/src/main/java/com/walletledger/ledger/LedgerListener.java:61-72 | the lines of a transaction's entry balance |
| `LedgerInvariant.JournalOnlyGrows` | db/migrations/V3__ledger.sql:50-63 | no step edits or removes an entry |
| `Reports.JournalIsSettled` | db/migrations/V3__ledger.sql:65-71 | an account's derived balance is the sum over the journalled transactions, each counted once |
| `Reports.LedgerSideIs` | scripts/reconcile.sql:10-14 | the join on the account's suffix picks exactly the wallet's account |
| `Reports.UnbalancedAre` | scripts/reconcile.sql:25-31 | the second query and the trigger look for exactly the entries whose debits differ from their credits |
| `Reports.AccountBalancesSum` | db/migrations/V3__ledger.sql:65-71 | a journal of balanced entries has account balances that sum to zero |
| `WalletStore.Store.FindByKey` | services/wallet/store.go:244-248 | finds a committed transaction with this user and key, or there is none |
| `WalletStore.Store.FindByUser` | services/wallet/store.go:126-127 | finds the user's wallet, or there is none |
| `WalletStore.Store.LookUpKey` | services/wallet/store.go:160-169 | issues the key lookup, which ends the call or leads on to the reads |
| `WalletStore.Store.ReadOwnRow` | services/wallet/store.go:171-175 | issues the read of the user's own row |
| `WalletStore.Store.ReadPeerRow` | services/wallet/store.go:176-189 | issues the read of the recipient and the checks |
| `WalletStore.Store.ApplyDelta` | services/wallet/store.go:252-265 | waits for the row, then one more row of the plan is written, the attempt is to be retried, or the call has failed because the context is gone or the new balance or version exceeds its column's literal bound |
| `WalletStore.Store.InsertTransaction` | services/wallet/store.go:207-213 | inserts the transaction without waiting, or the attempt is to be retried |
| `WalletStore.Store.InsertOutboxRow` | services/wallet/store.go:267-274 | inserts the outbox row in the same session |
| `WalletStore.Store.CommitSession` | services/wallet/store.go:282-289 | commits and reports exactly the inserted transaction, unless the reply is lost |
| `WalletStore.Store.Attempt` | services/wallet/store.go:282-295 | one attempt takes only legal steps and ends finished or to be retried; an unexpected error has a named cause |
| `WalletStore.Store.WithRetries` | services/wallet/store.go:279-308 | success names a committed transaction that answers the request; a refusal has its cause; contention is backed by a commit of others per attempt; unexpected errors have a named cause; the wait is the total of at most 39 drawn waits and below maxRetries times 500 ms; no panic up to 39 |
| `WalletStore.Store.Deposit` | services/wallet/store.go:113-155 | a success is a committed deposit of this user, amount and key; a refusal means that the user had no wallet when the call began or used the key for something else; other errors are explained |
| `WalletStore.Store.Transfer` | services/wallet/store.go:158-229 | a success is a committed transfer of this user, recipient, amount and key; each refusal has its cause in the tables at the call's beginning or during it; other errors are explained |
| `Backoff.LimitIsExponential` | services/wallet/store.go:298-300 | in wrapping int64 nanoseconds the limit is min(500 ms, 10 ms times 2^attempt) and positive up to attempt 39 |
| `Backoff.LimitGrows` | services/wallet/store.go:298-300 | limits never shrink |
| `Backoff.LimitValues` | services/wallet/store.go:298-300 | the limits are 20, 40, 80, 160 and 320 ms, then 500 ms from the sixth attempt to the 39th |
| `Backoff.BackoffSafeIff` | services/wallet/store.go:280-302 | every wait has a positive limit if and only if maxRetries is at most 39 |
| `Backoff.LimitOf40` | services/wallet/store.go:300 | at attempt 40 the shifted limit is negative |
| `Backoff.DrawWait` | services/wallet/store.go:300-302 | panics exactly when the limit is not positive, otherwise waits less than the limit, and any such wait can be drawn |
| `Backoff.TotalWaitIsBounded` | services/wallet/store.go:280-306 | there are at most 39 waits in a call, and n of them total less than n times 500 ms |
| `RelayWorker.Relay.SelectRows` | services/wallet/outbox.go:88-110 | returns the first batchSize unpublished and unlocked rows in id order |
| `RelayWorker.Relay.ClaimBatch` | services/wallet/outbox.go:88-121 | locks exactly those rows, with their messages in row order |
| `RelayWorker.Relay.SendBatch` | services/wallet/outbox.go:123-129 | reports the writer's own verdict; a refused write releases the rows unmarked |
| `RelayWorker.Relay.MarkBatch` | services/wallet/outbox.go:131-137 | exactly the claimed rows stop being pending, and each one's event is in the log |
| `RelayWorker.Relay.PublishBatch` | services/wallet/outbox.go:81-142 | on success all n claimed rows are published and in the log, zero only if all pending rows are locked; it fails only if the database is gone, the writer refused these rows' messages or the reply was lost; when no rows are added and no other relay acts, exactly the first batchSize pending rows disappear |
| `RelayWorker.Relay.Drain` | services/wallet/outbox.go:56-79 | while no rows are added and no other relay acts, whatever calls, consumers, cleanup and late appends do, the outbox empties in exactly `Rounds` non-empty batches |
| `RelayWorker.RoundsIsCeiling` | services/wallet/outbox.go:56-79 | `Rounds` is the ceiling of pending / batchSize |
| `LedgerConsumer.Listener.PostLines` | services/ledger/src/main/java/com/walletledger/ledger/JournalService.java:52-65 | the loop's inserted lines, once committed, make the newest entry exactly the one the record asks for |
| `LedgerConsumer.Listener.Post` | services/ledger/src/main/java/com/walletledger/ledger/JournalService.java:36-66 | posts the record's entry and advances; rolls back and stays; or, the reply to COMMIT lost, posts it and stays |
| `LedgerConsumer.Listener.OnEvent` | services/ledger/src/main/java/com/walletledger/ledger/LedgerListener.java:41-59 | the position advances only past journalled, duplicate or dead-lettered records, and each other outcome has its cause |
| `LedgerConsumer.Listener.CommitPosition` | services/ledger/src/main/java/com/walletledger/ledger/KafkaErrorConfig.java:16-19 | the group's offset becomes the position, everything below it is journalled, and nothing else changes |
| `RateLimit.Limiter.Limit` | services/gateway/ratelimit.go:31-58 | over the client's whole history, an answered request is refused if and only if more than perMinute requests of its minute reached Redis, and then sent to the first second of the next minute; otherwise it is told how many are left; without an answer it goes through |
| `RateLimit.CountersAreExact` | services/gateway/ratelimit.go:39-42 | until a window is over, its counter has not expired and counts every request that reached Redis |
| `RateLimit.VerdictIsExact` | services/gateway/ratelimit.go:48-57 | in every ordered run, an answered request of rank k in its minute is refused if and only if k > perMinute, and otherwise admitted with perMinute - k remaining |
| `RateLimit.IdleCountersVanish` | services/gateway/ratelimit.go:41 | seventy seconds after a client's last request nothing is stored for it |
| `RateLimit.WindowBound` | services/gateway/ratelimit.go:31-58 | at most perMinute answered requests pass in a window |
| `RateLimit.SlidingBound` | services/gateway/ratelimit.go:31-58 | any 60 seconds let through at most 2 * perMinute plus those that found Redis failing |
| `RateLimit.BurstAtTheEdge` | services/gateway/ratelimit.go:34-35 | for every limit some 60 seconds reach 2 * perMinute, so the bound is tight |
| `RateLimit.RetryAfterIsNextWindow` | services/gateway/ratelimit.go:53 | waiting Retry-After seconds lands in the first second of the next window, where the count is zero |
| `Velocity.WalletWindow.Velocity` | services/fraud/app/rules.py:34-54 | over the whole history of the wallet's key, an alert means more than the limit of distinct events in the last minute; in time order without expiry, it fires exactly then |
| `Velocity.CountNeverExceedsHistory` | services/fraud/app/rules.py:43-48 | in any order, with duplicates and expiry, only distinct events of the last minute are counted |
| `Velocity.CountBoundIff` | services/fraud/app/rules.py:45-46 | that bound holds if and only if the lower end of the window is pruned |
| `Velocity.TimesSince1970` | services/fraud/app/rules.py:25-31 | which it is for all times from 1970 on |
| `Velocity.PreEpochCountIsHigh` | services/fraud/app/rules.py:45-46 | an input before 1970 on which the bound fails |
| `Velocity.CountMissesNothingRecent` | services/fraud/app/rules.py:43-48 | without expiry, every distinct event younger than the latest delivered time minus a minute is counted |
| `Velocity.InOrderCountIsExact` | services/fraud/app/rules.py:34-54 | in time order the count, and so the alert, agrees exactly with the full history |
| `Alerts.FraudWorker.HandleOnce` | services/fraud/app/worker.py:138-163 | the handler's effect when any I/O operation fails without effect, or takes effect and its reply is lost |
| `Alerts.FraudWorker.HandleWithRetry` | services/fraud/app/worker.py:114-136 | every alert it sends is justified by the amount or by the distinct events delivered for the last minute, and was not remembered; when it returns true, every alert that is owed is in the topic and Redis is as after one clean pass; it gives up only when stopping |
| `Alerts.HandleKeepsSent` | services/fraud/app/worker.py:141-159 | wherever a pass is cut off, a dedupe key is only present when its alert is in the topic, and the topic grows only by LARGE_AMOUNT for an amount above the limit or VELOCITY for more than the limit counted, each once and only if its key was absent |
| `Alerts.FiredIsDue` | services/fraud/app/rules.py:57-63 | evaluate finds exactly the alerts that are due, each once |
| `Alerts.SecondPassIsSilent` | services/fraud/app/worker.py:142-145 | after a completed pass, handling the event again changes and sends nothing |
| `Alerts.NeverAlertedAgain` | services/fraud/app/worker.py:142-145 | once its key is set an alert is never sent again, whatever is delivered how often and fails where |
| `Alerts.FailedPassIsHarmless` | services/fraud/app/worker.py:138-163 | a pass cut off anywhere leaves the clean pass's Redis state as the target of the next one |
| `Alerts.RetryReachesCleanPass` | services/fraud/app/worker.py:114-163 | after any number of cut-off passes, the completing pass reaches the Redis state of one clean pass, with every alert whose condition holds in the topic |

## Left out

- Error replies are not claimed to be linearizable in general: a request with the same key can commit between the key lookup and the balance read, so ErrInsufficientFunds can be returned where an atomic call would replay. `UndisturbedCallIsAtomic` covers refusals of calls that are not interrupted, and `RefusalsHaveCauses` gives the cause of every other one.
- That an unexpected error means no money moved is not claimed: the reply to a COMMIT can be lost.
- Events.AcceptedIff: JSON integers outside the int64 range are not representable, because what the JSON library's asLong does with them is not part of the source; other details of the library are reduced to present, string, blank and integral.
- EngineSteps.CreateWalletKeeps: the do-nothing UPDATE of an existing row waits for its lock, but takes and releases it within one action.
- Keys up to 200 are counted in characters, where Go counts bytes.
- Which rows are old enough for the hourly cleanup: the model may delete any published rows.
- Kafka writes that fail or crash may append any part of a batch, in any order, repeatedly and arbitrarily late, which is more than the client library does.
- Backoff and sleep durations of the relay, the ledger's error handler and the fraud worker; fairness and unconditional liveness.
- The cast of transactionId to uuid in the ledger: relayed ids are canonical, others are not modelled beyond being non-blank.
- The fraud worker's parsing, dead-letter queue, clock fallback for a missing event time, dedupe key expiry, and offset commits.
- Redis key strings: the limiter's counters are modelled for one bucket and client at a time; its times are milliseconds from 1970 on.
- Notification service, gateway handlers, JWT, gRPC and HTTP mapping, queries that only read, metrics, logging, shutdown, and deployment.

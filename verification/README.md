# The payment platform's money, proved

A payments backend keeps merchants' wallets in a double-entry ledger and lets several processes work on it at once:
API requests, a settlement worker, manual settlement, a webhook relay and its consumers. Its correctness rests on a few
protocol tricks: version-checked updates beside row locks, leases, an outbox published in three phases, and
idempotency keys. This project models those tricks in Dafny and proves what they guarantee in every run, for any number
of processes and every interleaving. `dafny verify dfyconfig.toml` checks all of it.

## How it is built

**Two levels of the money.** `Ledger` has the rows and the atomic operations: what one committed transaction may do.
`Books`, `Totals`, `Records`, `PayoutQueue`, `Outbox` and `Invariants` prove what every run of atomic operations keeps,
and `Numbers` and `Amounts` what the printing of amounts has to do with it.
`Sessions` is the other level: database transactions one statement at a time, interleaved. A job's code between two
awaits is the function `Next` from the replies so far to the next statement; plain reads see committed rows, locks are
held to the end, writes are staged until COMMIT, an update waits for its lock and then re-evaluates its WHERE on the
newest committed row, a broken CHECK aborts, and a connection may die at any statement. `Coherence`, `Jobs` and
`Refinement` prove that every interleaving of those sessions is a run of the atomic operations, each with its guard
true at the commit point, so everything proved of runs holds of the concurrent system. `Calls` proves what a whole call
with its retries can conclude, `Refusals` what its errors say about the rows, and `Effects` what its commits do to them.

**The code's own methods.** `TransferService` (the retry loop, through `Clients`), `PayoutService` (with `Sweeping`),
`RelayWorker`, `WebhookWorker` and `IdempotencyMiddleware` hold the loops and updates in the form the source has them,
as classes and methods. Before each of their steps, except in the uninterrupted sweep, a tape lets the rest of the world
do anything it can do, so what they ensure, they ensure against every environment; and each of them takes only steps of
the machine that the invariants are proved of.

**The queues.** `LeaseQueue` is the lease pattern that payouts and the polled outbox share, and `LateWrites` what payouts
come to without it. `Relay`, `Attempts`, `Drain` and `Terminal` are the three-phase relay, the broker's queues and the
retrying consumer; `EndToEnd` joins them to the ledger's outbox.

**Idempotency.** `Idempotency` is the key table around any handler that commits one transaction or nothing.
`IdempotentTransfers` puts the sessions' transfer call behind it: a request's answer is what its call came to, and the
results speak of the ledger's own log of committed operations.

## What turned out false of the code, and when it does hold

- A transfer writes its ledger entries from `amountMinor.toString()` and its balances from `BigInt(amountMinor)`. The
  model keeps the two apart, and everything else is proved of transfers that print anything. In every run a balance is
  its ledger's credits minus debits plus exactly what the run's transfers printed too much or too little
  (`Invariants.BalancesAgreeInEveryRun`), so one transfer keeps the two in agreement if and only if it prints its amount
  (`Books.LedgerAgreesIffPrintedExactly`). Safe integers always do (`Numbers.SafeIntegersPrintExactly`,
  `Amounts.SafeAmountsKeepLedger`); 2 to the 60 does not (`Amounts.LargeAmountsBreakLedger`), and nothing refuses it.
- The statements that mark a payout check neither that it is pending nor the claim. Each of them keeps paid and failed
  payouts as they are, reversals matched one to one and each change reported once if and only if it comes while the
  payout is pending, except that paying a paid payout again is harmless while no endpoint is told twice
  (`LateWrites.MarkIsSafeIffInTime`, over whole runs `LateWrites.RunIsSafeIffWritesFit`). Two workers and an expired
  lease reach a double reversal (`LateWrites.DoubleReversalHappens`) and the reversal of a paid payout
  (`LateWrites.ReversalOfPaidHappens`). A live lease rules both out.
- The repository calls `delivered` and `failed` terminal. Four updates can leave them, and they stay for good in exactly
  the runs in which no relay marks or resets a batch that holds a finished event and no consumer marks a failed event
  delivered or a delivered one failed (`Terminal.FinishedStaysIff`, `Terminal.TerminalIffNeverOverwritten`). There is a
  run for each of the four (`Terminal.RelayOverwritesDelivered`, `Terminal.ConsumerOverwritesBoth`).
- An idempotency claim inserts, and on a clash reads the row back in a second statement. After a history of claims that
  acted as one, two transactions can come to commit under one key if and only if a read-back finds nothing
  (`Idempotency.TwoExecutionsIffReadBackFindsNothing`), and one can (`Idempotency.ReadBackCanFindNothing`).
- A key whose request dies at work is never freed: it stays in progress for every later request, although the middleware
  frees the key of a request that failed so that it can be tried again (`Idempotency.DyingOrphansKey`,
  `Idempotency.OrphanedKeysStayInProgress`).
- A second sweep finds nothing left to settle if and only if the minimum payout is at least 1 or nothing was swept: with a
  minimum of 0 or less it lists the same wallets again and throws at the first one, and so does a first sweep that meets
  an empty wallet (`Sweeping.WhatIsLeftToSettle`, `PayoutService.Store.Sweep`).

## What is assumed

- A transfer's source and destination differ and its amount is positive, as the request schema checks.
- Where nothing else is said, a payout worker commits a write only while its lease is live, at most once per claim. The
  code does not enforce it: the lease is 60 seconds and the worker does not look at it again. `LateWrites` does without.
  `now()` never goes back.
- The outcome of COMMIT is known to the caller.
- The broker is durable, and a publish followed by an ack on one channel takes effect in that order.
- A deadlock victim, a lost connection, a value outside BIGINT and a broken CHECK are all aborts. A session that waits
  for a lock forever may be aborted at any time.
- Rows of wallets, intents, payouts, accounts and endpoints are never deleted; ids are opaque, so a row's id is its
  position, and transaction and charge ids come from a supply of fresh ones.
- The request fingerprint identifies the request.

`failures`, `posted`, `discarded`, `commits`, `born`, `began` and the commit log are history variables: nothing
the modelled code does depends on them.

## Model

| member | source | states |
|---|---|---|
| Refinement.SessionsRefineOperations | src/db.ts:56-71 | Every interleaving of statements, locks, rollbacks and lost connections leaves the committed state of the atomic operations in commit order, each legal where it stands; so every invariant of atomic runs holds of the concurrent system |
| Refinement.EveryStepIsAtomic | src/db.ts:45-71 | A single step of the concurrent system changes nothing committed, or changes it exactly as one atomic operation whose guard holds at that moment |
| Refinement.CommitIsAtomic | src/wallets/wallet.repository.ts:56-113 | Whatever a transaction read and when, the rows it publishes at COMMIT are those of one atomic operation applied to the newest committed state, with that operation's guard true there |
| Refinement.StepKeepsSysInv | src/db.ts:53-71 | The invariant behind the refinement survives every step: locks held by different sessions are disjoint, locked rows are as their holders read them, staged writes are those of the replies so far |
| Coherence.CoherenceIsStable | src/wallets/wallet.repository.ts:60-75 | What a session has read under lock and staged stays valid across any commit that leaves its locked rows alone |
| Coherence.StatementKeepsCoherence | src/wallets/wallet.repository.ts:48-113 | Executing one more statement keeps the session's replies and staged rows consistent with the committed state, although plain reads may be stale |
| Jobs.EveryJobProceeds | src/payouts/payout.service.ts:107-134 | No job of the services ever issues a statement that refers to a missing row or writes a row twice |
| Jobs.TransferCommits | src/transfers/transfer.service.ts:88-128 | A transfer transaction that reaches COMMIT with both version checks passed publishes exactly the balanced pair, with ownership, currency and cover true of the committed rows |
| Jobs.ConfirmCommits | src/payments/payment.service.ts:107-168 | A confirm that reaches COMMIT publishes one charge, one credit, the succeeded status and one event per endpoint it read, with the intent still unconfirmed at that point, though it read the wallet without a lock |
| Jobs.SweepCommits | src/payouts/payout.service.ts:107-134 | A sweep transaction publishes a debit of the whole balance and a pending payout of the same amount, or nothing |
| Jobs.ReverseCommits | src/payouts/payout.service.ts:201-225 | A reversal transaction publishes the credit, the failed status and the events together |
| Calls.CallsAreAllOrNothing | src/transfers/transfer.service.ts:86-144 | In every interleaving a call that returned committed exactly one operation, the one its replies describe; a call that threw or still runs committed none |
| Calls.CommittedTransferWasCovered | src/transfers/transfer.service.ts:86-141 | However stale the balance it validated, a committed transfer had its source owned by the caller, in the destination's currency and holding the amount at the commit point |
| Calls.ConflictsArePaidFor | src/transfers/transfer.service.ts:86-144 | A transfer ends in a concurrency conflict only if at least five distinct other transfer calls committed, during its run, a transfer from or to one of its two wallets |
| Calls.FewTransfersNeverConflict | src/transfers/transfer.service.ts:18-18 | With at most five transfer calls in the whole run none exhausts its retries |
| Calls.CheckFiresOnlyAfterSweep | src/wallets/wallet.repository.ts:98-113 | When the source's version check passes, the balance is at least the validated one unless that wallet was swept since the attempt began, so the balance CHECK can fire only then; and it is the validated one unless money moved on that wallet outside transfers |
| Calls.PassedChecksFoundTheFunds | src/transfers/transfer.service.ts:90-119 | A transfer both of whose version checks passed holds its source locked with at least the balance it validated, unless it was swept, and exactly that balance if only transfers moved it |
| Refusals.TransferRefusalsAreTrue | src/transfers/transfer.service.ts:24-41 | Each domain error of a transfer is true when thrown: a wallet reported missing or short of funds was so in a committed state since the attempt began, owner and currencies are wrong now, and a conflict means a version past the one read |
| Refusals.IntentRefusalsAreTrue | src/payments/payment.service.ts:107-186 | A confirm or cancel is an invalid transition only for the merchant's own intent, locked and ended; an intent or a wallet is reported missing only if it was in a committed state since the call began |
| Refusals.TraceKeepsSnapshots | src/wallets/wallet.repository.ts:42-54 | Every read of an unwritten row by a running session is what some committed state since its attempt began would reply |
| Effects.SweepSettlesIffEnough | src/payouts/payout.service.ts:107-134 | A sweep transaction that reaches COMMIT publishes the debit and the payout exactly when the locked wallet holds the minimum, and nothing when it holds less |
| Effects.OwnersEndTheirIntents | src/payments/payment.service.ts:107-186 | A confirm or cancel that reaches COMMIT acts on the merchant's own intent, locked and not yet ended, and a confirm credits a wallet of that merchant in the intent's currency |
| Effects.DepositFundsIffUnused | src/seed.ts:57-87 | A deposit that reaches COMMIT funds the wallet if the ledger had no entry on it in a committed state since it began, and commits nothing only if it had one |
| Effects.ReportsReachActiveEndpoints | src/webhooks/webhook.service.ts:45-63 | A confirm, a paid payout or a reversal that reaches COMMIT reports once to each endpoint that was active for the merchant in a committed state since the call began, and to no other |
| TransferService.Transfer | src/transfers/transfer.service.ts:82-145 | Against any environment the call returns a result exactly when its one operation committed, with that transaction's id, wallets, amount and currency, whatever text it prints into the ledger, and throws exactly when none did; a conflict means five winners, an abort a connection that died or a lock held elsewhere; the throw after the loop is never reached |
| TransferService.Attempt | src/transfers/transfer.service.ts:88-128 | One attempt either commits, or throws its error, or is rolled back to a clean start of the next attempt, and the last only for a conflict before the fifth attempt |
| TransferService.MoveBalances | src/transfers/transfer.service.ts:102-128 | Both conditional updates are made before either result is looked at; they commit exactly when both matched, and a conflict before the fifth attempt leaves a clean start |
| TransferService.RecordLedger | src/transfers/transfer.service.ts:44-68 | It stages one transfer transaction under the id it returns, a debit of the source and a credit of the destination of the same printed amount in each wallet's currency, and nothing else; the schema refuses it only for an amount that is not positive or does not fit, and an abort in between ends the call |
| TransferService.AddEntry | src/ledger/ledger.repository.ts:33-46 | Exactly this entry is added to the staged ones, or the call is over: refused only for an amount that is not positive or does not fit, aborted only by a dead connection or a lock held elsewhere |
| TransferService.ApplyDeltaIfVersion | src/wallets/wallet.repository.ts:98-113 | The result is true exactly when the database updated one row |
| TransferService.FindById | src/wallets/wallet.repository.ts:48-54 | The row is what the plain read replied, absent when there is none, and only a connection that dies makes it throw |
| Clients.Client.Query | src/db.ts:56-71 | A statement on the transaction's client extends the same attempt by one reply and its own staged writes, or the call is over: aborted only if the connection dies or another session holds a row that the statement needs, refused only if the write breaks a CHECK or a column's range |
| Clients.Client.Commit | src/db.ts:63-64 | COMMIT ends the call as done with its replies kept, or thrown exactly when the connection dies |
| Clients.Client.Rollback | src/db.ts:65-67 | After ROLLBACK a conflict before the fifth attempt starts afresh with no reply kept, and every other error ends the call with it; a ROLLBACK during which the connection dies replaces the error by an abort |
| Invariants.BooksBalanceInEveryRun | src/payouts/payout.service.ts:107-134 | In every reachable committed state, per currency, wallet balances sum to deposits plus succeeded intents minus pending and paid payouts |
| Invariants.BalancesAgreeInEveryRun | migrations/0002_create_wallets_and_ledger.sql:26-28 | In every reachable committed state each balance is its ledger's credits minus debits plus what inexactly printed transfers put between them, and not negative; and each version is the number of committed transfers with an entry on the wallet |
| Invariants.TransfersBalanceInEveryRun | src/transfers/transfer.service.ts:44-68 | Every committed transfer has exactly one debit and one credit, of one positive amount, between two different wallets of one currency |
| Invariants.CompensatedExactlyOnce | src/payouts/payout.service.ts:199-225 | A failed payout has exactly one reversal, crediting what its sweep debited to the same wallet; a pending or paid payout has none; no reversal is shared or belongs to no payout |
| Invariants.PayoutAttemptsAndTiming | src/payouts/payout.service.ts:184-218 | Failed payouts record exactly three attempts, others at most two, and no reversal commits sooner than 30 seconds after the first recorded failure |
| Invariants.PayoutLeasesAreExclusive | src/payouts/payout.repository.ts:98-123 | No payout is ever under two live leases, and one under a live lease is pending and cannot be claimed |
| Invariants.IntentsTiedToMoney | src/payments/payment.service.ts:107-168 | An intent is succeeded if and only if exactly one charge fulfils it, and that charge is backed by exactly one credit of its amount to a wallet of its merchant and currency |
| Invariants.IntentsEndOnce | src/payments/payment.service.ts:28-43 | Of all confirms and cancels of an intent at most one commits in a whole run |
| Invariants.EventsAreExactlyEmissions | src/webhooks/webhook.service.ts:45-63 | The outbox holds an event if and only if some committed confirm, payout success or payout failure of the run emitted it |
| Invariants.OutboxExactlyOnce | src/webhooks/webhook.service.ts:38-63 | Each emission of a committed change is in the outbox exactly once per endpoint |
| Invariants.RunIsConsistent | src/ledger/ledger.repository.ts:12-46 | All invariants of the tables together hold after every run of atomic operations |
| Books.StepKeepsLedger | src/ledger/ledger.repository.ts:33-46 | Every operation keeps entries well formed, balances equal to their entries, transactions in the shape of their kind, and versions counting transfers |
| Books.LedgerAgreesIffPrintedExactly | src/transfers/transfer.service.ts:37-64 | A transfer keeps cached balances and ledger in agreement if and only if the printed amount is the amount moved |
| Books.StepMovesGap | src/transfers/transfer.service.ts:50-66 | No operation but a transfer that prints inexactly changes how far a balance is from its entries, and that one by exactly the difference, in opposite directions on its two wallets |
| Numbers.SafeIntegersPrintExactly | src/transfers/transfer.service.ts:56-64 | Below 2 to the 53 the only text that reads back as a number is its exact decimal |
| Amounts.SafeAmountsKeepLedger | src/transfers/transfer.dto.ts:14-14 | In every run whose transfers are all of safe integers each balance is its ledger's credits minus debits |
| Amounts.LargeAmountsBreakLedger | src/transfers/transfer.dto.ts:14-14 | From an empty database a confirmed payment and a transfer of 2 to the 60, printed as it is, lead to a wallet that disagrees with its entries |
| Totals.StepKeepsBook | src/payouts/payout.service.ts:201-225 | Every operation moves both sides of a currency's book alike: transfers by nothing, a reversal undoing its sweep |
| Records.SucceededIffChargedOnce | src/payments/payment.service.ts:142-150 | Being succeeded and having exactly one charge are the same thing |
| LateWrites.MarkIsSafeIffInTime | src/payouts/payout.repository.ts:125-169 | Each of the three unchecked marks keeps closed payouts, the match of reversals with failed payouts, and once-only reporting if and only if the payout is pending, or is paid and paid again telling no endpoint twice |
| LateWrites.RunIsSafeIffWritesFit | src/payouts/payout.service.ts:173-225 | With writes under any claim at any time and any number of times, a whole run keeps all that if and only if every write meets that condition |
| LateWrites.PaidAfterFailedKeepsReversal | src/payouts/payout.repository.ts:126-131 | Marking paid keeps payouts consistent with their reversals if and only if the payout had not failed |
| LateWrites.ReversalKeepsMatchIff | src/payouts/payout.repository.ts:155-169 | The compensation keeps reversals matched one to one with failed payouts if and only if the payout had not failed |
| LateWrites.DoubleReversalHappens | src/payouts/payout.repository.ts:98-123 | A run of two workers, the first past its lease, that credits a wallet twice for one payout |
| LateWrites.ReversalOfPaidHappens | src/payouts/payout.repository.ts:155-169 | A run of two workers, the first past its lease, in which a paid payout is reversed |
| Records.StepKeepsPayouts | src/payouts/payout.repository.ts:125-169 | Every operation keeps each payout bound to its debit, to an account of its merchant and currency, and to a reversal exactly when failed |
| PayoutQueue.StepRefinesQueue | src/payouts/payout.repository.ts:98-169 | Each operation on the money tables is a legal step of the lease queue, or leaves the payouts' scheduling and claims alone |
| PayoutQueue.LiveClaimIsCurrent | src/payouts/payout.repository.ts:92-123 | Under a live lease the committed payout is pending, on the claimed terms and attempts, and has rested its backoff delays |
| LeaseQueue.LeasesAreExclusive | src/webhooks/webhook-event.repository.ts:56-85 | For any number of workers and either policy, live leases are on different rows, open and not due, so no claim statement can take them |
| LeaseQueue.ClosedRowsNeverChange | src/webhooks/webhook-event.repository.ts:145-179 | Under live leases a row once closed stays exactly as it was closed over every continuation |
| LeaseQueue.LateWriteKeepsClosedIff | src/webhooks/webhook-event.repository.ts:145-179 | Written over a closed row by anyone at any time, an update leaves it as it was if and only if it closes it the same way, at the same attempt when given up |
| LeaseQueue.LiveHoldHasWaited | src/webhook-worker.ts:27-29 | A worker holding a live lease on a row with k recorded failures is at least the sum of the k backoff delays away from the first one |
| LeaseQueue.Delays | src/payouts/payout.service.ts:23-24 | The delays are 10 and 20 seconds for payouts, 5, 10, 20 and 40 for webhooks |
| LeaseQueue.DelaysDoubleUpToTheCap | src/payouts/payout.service.ts:23-24 | Each delay is twice the one before until that would pass 300 seconds, and 300 from then on |
| LeaseQueue.ClaimsAndFailuresInNumbers | src/webhook-worker.ts:22-29 | A claim lasts 60 seconds; a failure recorded under it counts one attempt and reopens the row after its delay, or closes it, at the third attempt of a payout and the fifth of a webhook |
| Sessions.ActiveEndpoints | src/webhooks/webhook.service.ts:51-54 | The fan-out reads each active endpoint of the merchant once and no other |
| Sweeping.Listing | src/payouts/payout.repository.ts:39-61 | The listing has each wallet that holds the minimum, is the given merchant's if one is given, and has an active account of its merchant and currency, once and with such an account, and no other |
| Sweeping.SweepMovesExactly | src/payouts/payout.service.ts:107-134 | Per currency, what leaves the wallets is the sum of the payouts created |
| Sweeping.WhatIsLeftToSettle | src/payouts/payout.service.ts:90-99 | A second sweep would list no wallet, or with a minimum below 1 exactly the wallets just swept |
| PayoutService.Store.Sweep | src/payouts/payout.service.ts:100-142 | An uninterrupted sweep, with any minimum and for all merchants or one: each new payout pays all that its wallet held, at least the minimum, to an active account of the wallet's merchant and currency; exactly the wallets paid from are emptied, and no other merchant's; one that does not throw leaves a wallet empty exactly if it was, or met all the conditions; it throws exactly at the first empty wallet listed, which a minimum of at least 1 rules out, and then leaves nothing for a second sweep |
| PayoutService.Store.EarliestDue | src/payouts/payout.repository.ts:112-116 | The row found is pending, due, not locked and the given merchant's, and none that is comes earlier; finding none means there is none |
| PayoutService.Store.ClaimDue | src/payouts/payout.repository.ts:98-123 | At most the limit of claims of 60 seconds, of different payouts that were pending, due, not locked elsewhere and the given merchant's, earliest first; one left means the limit was reached and it came no earlier; nothing but claims is committed |
| PayoutService.Store.ProcessOne | src/payouts/payout.service.ts:162-229 | Against any environment the worker writes at most once under its claim, as its last operation; unless its lease ran out, it marks the payout paid if and only if the bank paid and the marking worked, and otherwise retries below the third attempt and compensates at it, or throws because that write failed or the credit does not fit; paid and failed are reported to exactly the active endpoints; the claims it has yet to process are left alone |
| PayoutService.Store.ProcessDuePayouts | src/payouts/payout.service.ts:145-151 | The batch is claims of different payouts that were due, all of them when fewer than the limit were; each one processed was written under exactly once, by this worker, and as its own bank answer and attempts call for, or lapsed unused; an error leaves the rest of the batch unwritten |
| Relay.NoSilentLoss | src/rabbit-worker.ts:41-164 | With crashes, negative confirms, reaping and redelivery anywhere, every committed event is pending or publishing, or has a copy in the deliver or retry queue or in hand, or got a 2xx, or is dead-lettered, or was explicitly discarded |
| Relay.SafeStays | src/rabbit-worker.ts:106-163 | No step of relay, broker or consumer takes the last trace of an event that is out of the outbox's hands |
| Relay.StepKeepsInv | src/webhooks/webhook-event.repository.ts:94-179 | Every step keeps: a batch with nothing refused has every sent event safe, a handler's stage implies its event's outcome, attempts stay within 1..5 |
| Terminal.FinishedStaysIff | src/webhooks/webhook-event.repository.ts:112-179 | A step of the pipeline keeps every delivered and failed event if and only if it is not a relay's marking or resetting of a batch that holds one, a delivered over failed, or a failed over delivered |
| Terminal.TerminalIffNeverOverwritten | src/webhooks/webhook-event.repository.ts:145-179 | Delivered and failed are terminal in exactly the runs in which no such update is made |
| Terminal.RelayOverwritesDelivered | src/rabbit-worker.ts:77-87 | Legal runs in which a delivered event is marked published, and is put back to pending |
| Terminal.ConsumerOverwritesBoth | src/rabbit-worker.ts:108-135 | Legal runs in which a delivered event is marked failed, and that failed event delivered |
| EndToEnd.NoEmissionIsLost | src/webhooks/webhook.service.ts:38-63 | Each event a committed change emitted has exactly one outbox row for its endpoint, and that row is pending or publishing, on its way, answered with a 2xx, dead-lettered or discarded, whatever is committed and delivered in between |
| Drain.DrainIsBounded | src/rabbit-worker.ts:106-158 | From any reachable state, without new publishes and redeliveries, the POSTs still to come are at most the sum of six minus the attempt over the copies in the broker and in hand, the draining steps are bounded too, and attempts stay within 1..5 |
| Drain.DrainedEventsAreDecided | src/webhooks/rabbit/topology.ts:44-57 | When no message can move on, every event that was in flight has a 2xx, is dead-lettered or was discarded, and the deliver and retry queues are empty |
| Drain.StuckIffDrained | src/webhooks/rabbit/topology.ts:40-53 | Some message can be moved on exactly while one is queued or unacknowledged |
| Attempts.RefusedEventsGetFiveAttempts | src/rabbit-worker.ts:106-158 | In every run in which all POSTs of an event are refused, its endpoint exists and no copy is redelivered or dropped, the POSTs made are five per dead copy plus the attempts behind each copy still on its way, and every copy published is dead or on its way |
| Attempts.DeadAfterFiveRefusals | src/rabbit-worker.ts:138-144 | In such a run every dead copy is in its fifth attempt, and once no copy is on its way each one published got exactly five POSTs and is dead |
| Attempts.CopiesMoveOn | src/rabbit-worker.ts:62-75 | A new copy is queued in attempt 1; a refused one goes to the end of the retry queue in the next attempt below 5, of the dead queue at 5, and to no other; an expired retry goes back to the deliver queue as it is |
| RelayWorker.Oldest | src/webhooks/webhook-event.repository.ts:94-110 | The claim's batch is pending events in order, within the limit, and a pending event left out means a full batch of older ones |
| RelayWorker.Worker.Reap | src/webhooks/webhook-event.repository.ts:135-143 | Exactly the stale publishing rows become pending and nothing else in the pipeline changes |
| RelayWorker.Worker.ClaimForPublishing | src/webhooks/webhook-event.repository.ts:87-110 | The batch is the oldest pending events, taken by one step; with none pending nothing changes |
| RelayWorker.Worker.PublishAndMark | src/rabbit-worker.ts:53-89 | Against any environment, the steps this process takes on the batch are one publish per message up to the one before which the channel dies, the confirm exactly if all were sent, taken and confirmed, and then the mark, exactly if that update worked too, else the reset, or nothing more if the reset failed; a relayed batch is published and safe, a reset one pending |
| RelayWorker.Worker.RelayTick | src/rabbit-worker.ts:41-90 | A tick works on the twenty oldest pending events of the moment it claims; it ends relayed, and takes the mark, if and only if every message was sent and taken, the confirms came and the update worked; it is left to the reaper only if the reset failed; the outcome tells the status of every event of the batch |
| RelayWorker.Worker.Handle | src/rabbit-worker.ts:96-164 | Against any environment before every step, endpoint, database and attempt decide the outcome and the exact steps taken on the message: one POST at most; a failed delivery is retried below attempt 5 and dead-lettered at 5; an answer, dead letter or discard is still there at the end, a retried event is still safe, and nothing is left unacknowledged |
| WebhookWorker.Poller.DeliverOne | src/webhook-worker.ts:31-78 | Against any environment a polled delivery writes at most once and to the row as it claimed it: delivered closes it, a rejection counts one attempt and rests 5, 10, 20 or 40 seconds or closes at the fifth, a deleted endpoint closes it |
| Idempotency.KeysExecuteOnce | src/middleware/idempotency.ts:39-77 | With atomic claims, over any racing requests, crashes and failed saves, at most one transaction commits per merchant and key, and every 201, replayed or not, carries its id and goes only to requests with the executed one's fingerprint; for any handler that commits one transaction or nothing |
| Idempotency.CompletedNeverChanges | src/idempotency/idempotency.repository.ts:52-65 | With atomic claims a completed record is never changed or released again |
| Idempotency.ReplayIsVerbatim | src/middleware/idempotency.ts:46-56 | With atomic claims, once an answer below 500 is stored, no request with the key that has yet to read its row runs the handler; with the same body it is sent exactly the stored answer, with another one that the key is reused, and an error only if its insert failed |
| Idempotency.DyingOrphansKey | src/middleware/idempotency.ts:59-77 | With atomic claims any request may die at work or after its commit, and then its key is left in progress with nobody at work on it |
| Idempotency.OrphanedKeysStayInProgress | src/idempotency/idempotency.repository.ts:23-50 | A key left in progress with nobody at work on it stays so in every run, and every later request with it is told that it is in progress, or reused, and never runs |
| Idempotency.ReleasedMeansNoEffect | src/idempotency/idempotency.repository.ts:67-76 | With atomic claims, when a key is released no transaction has committed under it |
| IdempotentTransfers.OneTransferPerKey | src/transfers/transfer.routes.ts:14-20 | With the transfer call as handler and atomic claims, under each key at most one transfer is ever logged as committed, and every 201, first or replayed, names the transaction of a logged transfer under its key that is what its own request asks for |
| IdempotentTransfers.RepeatsGetTheFirstAnswer | src/middleware/idempotency.ts:46-56 | With the transfer call as handler and atomic claims, a request that arrives once an answer below 500 is stored for its key never calls the transfer service, and is sent exactly that answer if it asks for the same |
| IdempotentTransfers.AnswersTellWhatHappened | src/errors.ts:80-124 | Atomic claims or not, a 201 is the id of the one transfer the call logged, as the request asked for it; a missing wallet is 404, a foreign one 403, a currency mismatch 400, too little money 422, a conflict 409, each with nothing logged; anything else thrown is a server error |
| IdempotentTransfers.ReleasedKeyHasNoTransfer | src/middleware/idempotency.ts:64-69 | When a key is released, no call made under it has committed anything |
| IdempotentTransfers.ServerErrorsCommittedNothing | src/middleware/error-handler.ts:19-44 | Atomic claims or not, a request answered with a server error made a call that logged no operation |
| IdempotentTransfers.AnswersAreNeverBlocked | src/transfers/transfer.controller.ts:7-13 | A call that is over always lets its request answer: its transaction's id was used by no other |
| Idempotency.RequestsCommitOnce | src/middleware/idempotency.ts:59-77 | Atomic claims or not, each request commits at most one transaction and is answered with it or dies |
| Idempotency.TwoExecutionsIffReadBackFindsNothing | src/idempotency/idempotency.repository.ts:23-42 | After any run with atomic claims, the next step makes a second execution under some key possible if and only if it is a read-back that finds no row |
| Idempotency.ReadBackCanFindNothing | src/middleware/idempotency.ts:46-46 | A legal run in which a read-back finds nothing: the first request fails and releases between the second's two statements |
| IdempotencyMiddleware.Middleware.Claim | src/idempotency/idempotency.repository.ts:23-50 | A different body is told that the key is reused, the same body on an open row that it is in progress, the same body on a completed row exactly the saved answer; the request is to run when it inserted its own open row, or when the row it met is gone |
| IdempotencyMiddleware.Middleware.RunHandler | src/middleware/idempotency.ts:59-77 | The answer sent is exactly the handler's effect, the request owns a commit exactly when it is a 201 for it, and the answer is persisted in a step before the one that sends it, after which it is on the row or the row is released |
| IdempotencyMiddleware.Middleware.Handle | src/middleware/idempotency.ts:26-78 | Against any other requests, a request whose insert fails is told of a server error, one that meets a row is told what that row says of its body, and neither commits anything; or the handler runs and the answer is its effect; the request owns a commit exactly when it ran and answered 201 for it |

## Left out

- Sessions.ActiveEndpoints: the rows come in the order of the table, where the repository does not say which order it wants.
- LeaseQueue.ClosedRowsNeverChange: of writers with a live lease, which the statements do not check; LeaseQueue.LateWriteKeepsClosedIff and LateWrites say what happens otherwise.
- PayoutService.Store.ClaimDue: one statement of the source is a loop of single-row claims at one instant here.
- PayoutService.Store.Sweep: stated for a sweep with nothing committed in between; what one transaction of an interrupted sweep does is Jobs.SweepCommits.
- PayoutService.Store.ProcessOne: the account lookup and the bank call are one answer; it is not claimed that the bank is called once, because a success transaction that fails goes on to the failure path.
- Invariants.PayoutAttemptsAndTiming: the final failure leaves no time in the row, so the 30 seconds count from the first recorded retry.
- Calls.CheckFiresOnlyAfterSweep: one direction only; a sweep after which the balance still covers the amount does not make the CHECK fire.
- Numbers.SafeIntegersPrintExactly: printing is bounded by reading back as the same double; which of the texts that do is printed for a larger number is not modelled.
- Relay.NoSilentLoss: the reaper may take any publishing row at any time, not only stale ones, and a relay may claim any pending rows; both only add runs.
- Attempts.RefusedEventsGetFiveAttempts: of events whose copies are not redelivered; a copy that comes back unacknowledged may repeat a POST in the same attempt.
- Drain.DrainIsBounded: it bounds steps and does not say that the broker or a consumer takes them; delays of the retry queue, including a long one holding up a shorter one behind it, are left out.
- RelayWorker.Worker.Handle: prefetch, the missing attempts header of a message dead-lettered for a deleted endpoint, and payload and signature of the POST are left out.
- WebhookWorker.Poller.DeliverOne: the poller's tick claims by the same kind of statement as payouts and starts its deliveries at once; each is proved against any environment, its siblings included. Running the poller beside the relay is excluded by the deployment and left out.
- Idempotency.TwoExecutionsIffReadBackFindsNothing: of any handler that can commit; whether two given transfers both have the funds is not part of it.
- Deadlock freedom is not claimed: a transfer updates its source before its destination in no fixed order.
- Creating an intent, a wallet, an account or an endpoint is one atomic operation each; settleNow is a sweep followed by one batch.
- Foreign-key share locks, serialization other than READ COMMITTED, and statement-level snapshots of multi-row updates.
- Authentication, request parsing, controllers, error mapping beyond a transfer's statuses, listing endpoints, migrations as programs, logging, metrics and tracing: nothing algorithmic.
- Password hashing, tokens, request signing and hashing: the fingerprint is an opaque value.
- The commented-out pessimistic transfer, and the attack and test helpers that set balances directly.

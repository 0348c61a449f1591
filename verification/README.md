# A verified model of the Stellar payment gateway core

This project models, in Dafny 4.11, the part of the gateway that has to be right for money to be right: the
payment lifecycle and its workers, webhook delivery, idempotent creation, exact decimal amounts, keyset pages,
the Horizon circuit breaker with its retries, customer totals, and the signature, envelope and cursor codecs.

`dafny verify dfyconfig.toml` checks everything.

## How it is organised

| part | files |
|---|---|
| strings, numerals, bytes | `Wrappers`, `Text`, `Bytes` |
| decimal amounts | `Amounts` |
| matching Horizon records | `Verifier` |
| payment lifecycle and workers | `Lifecycle`, `PaymentMachine`, `PaymentInvariant`, `PaymentSafety`, `PaymentTheorems`, `PaymentHistory`, `PaymentSnapshots`, `PaymentCalls`, `PaymentLosses`, `PaymentFinality`, `PaymentExpiry`, `PaymentOutcomes`, `PaymentWorkers` |
| idempotent creation | `Idempotency`, `Replays`, `CreationWorkers` |
| customer totals | `Aggregates`, `Finality`, `FinalityTheorems`, `FinalityTotals`, `FinalityAgreement` (with the payment machine), `FinalityWorkers` |
| webhook delivery | `WebhookMachine` (with the schedule), `WebhookBounds`, `WebhookProgress`, `WebhookTheorems`, `WebhookSettlement`, `WebhookFinality`, `WebhookRetries`, `WebhookAnswers`, `WebhookWorkers` |
| Horizon calls | `CircuitBreaker`, `HorizonRetry` |
| listing payments | `Pagination`, `Cursor`, `PageWalk` |
| signatures and secrets | `Crypto` |

Several workers share one document store whose only atomic operations are single reads, inserts under a unique
index and compare-and-set updates. `PaymentMachine`, `Idempotency`, `WebhookMachine` and `Finality` describe each
worker as a process with a program counter and the rows it has read, which may be stale. A schedule is any list of
turns, one operation each; the theorems quantify over every schedule, so over every interleaving. Every operation of
every worker may fail, before or after it took effect, and a process that the schedule stops naming has crashed. The
clock, Horizon's answers, HTTP responses and these failures are chosen by the schedule.

`PaymentWorkers`, `CreationWorkers`, `WebhookWorkers` and `FinalityWorkers` write the same services as the code is
written: methods that read, branch, loop and update a store object. Between two operations the other workers run an
arbitrary schedule. Each method proves that the store stays exactly a state the machine reaches (`Valid`) and that what
it returns or throws is where the machine's process ends, so the theorems about runs hold of the methods. Each service
also says what it does when nobody disturbs it, from the rows before and after and from what Horizon or the endpoint
answered, column by column and without the workers' own functions (`PaymentOutcomes`).
`IdempotencyService`, `CircuitBreaker` and `HorizonService` are objects with the source's fields; a breaker also keeps a
ghost history of what it has seen, and its methods say what they do in terms of that history.

## What the theorems say together

- A transaction hash is recorded only for a successful on-chain payment of the exact terms, and never on two
  payments, although the hashes loaded before the decision may be stale. This needs the verifier's soundness, the
  compare-and-set and the partial unique index together.
- Every status history is a lifecycle path of at most three changes, and terminal rows never change. A call that
  returns saw its goal held; a refused call wrote nothing; a call stopped by a failing operation made at most its one
  change, and if its event is not logged then, it never will be. Every other held status gets exactly one event in the end.
- A payment is completed only after Horizon reported its recorded transaction as successful, and expired only when its
  time had passed or its payment came late. Undisturbed, a pending payment is confirmed exactly if the first record with
  its memo settles its terms and no other payment has its hash, and otherwise fails, expires or stays as that record says.
- For any requests, failures and crashes on one idempotency key, at most one payment is created, all 201 answers agree,
  and once its creator has answered 201 every later request of the key with the same body is answered with that response.
- Addition of decimal strings is exact and canonical, hence commutative and associative to the character.
- A webhook delivery never exceeds seven attempts, has one row for an (endpoint, event) pair, and in orderly runs is
  carried by exactly one job until it settles, which takes at most 42 turns of the model on it and always happens under
  a fair schedule, whatever the other deliveries do. Outside orderly runs, the steps that leave one pending with nothing
  to carry it are told exactly.
- Customer totals are exactly the number and the sum of the completed payments if finality jobs run one at a time,
  whatever other workers do between their steps; the two ways in which overlapping jobs spoil them are shown by runs.

## Where the code and its own words differ

The model follows the code.

- The breaker's header promises one probe when half-open. A call that starts before the probe finishes is admitted
  too: `CircuitBreakers.TwoProbes` is such a history under the default options, and `OneProbeIff` says that each
  half-open window admits at most one call exactly if some call finishes between every probe and the next start, which
  callers that take turns guarantee (`SerialCallsProbeOnce`).
- An event's snapshot is called the payment at the moment of emission; it is the row as reloaded after the
  compare-and-set. `PaymentSnapshots.SnapshotCanShowLater` is a run whose pending event shows the payment canceled;
  `SnapshotShowsOwnStatusIff` says that the snapshot shows the event's own status exactly if no turn between the winning
  compare-and-set and the reload moved the payment on, and `FixedSnapshots` that created and terminal events always do.
- A winner that throws between its compare-and-set and the insert of its event leaves a status without it, for good:
  `PaymentLosses.EventCanBeLost` is such a run from the empty store. `EventLostIff` says that an operation with an event
  at stake loses it exactly if it fails after the change took effect, at the reload in any way, or before the insert of
  the event took effect, and `EventMissingIff` which held statuses of a run are without their event.
- `delivered` is not final when two attempts, or an attempt and a manual retry, of one delivery overlap, because
  rows are written by id (`WebhookFinality.DeliveredCanBeLost`); `LostIffOverwritten` says exactly when it is lost and
  `DeliveredIsFinal` that without overlap it is not.
- The fan-out is called idempotent, but a fan-out that creates the row and then cannot enqueue strands it: every replay
  finds the pair taken and enqueues nothing (`WebhookRetries.FanOutCanStrand`). A retry scheduled after a manual retry
  can be lost too, because the queue still holds its id (`WebhookRetries.ManualRetryCanBeLost`, `SwallowedIff`).
  `StrandsIff` and `FreshStrandsIff` say exactly when a step of a fan-out, an attempt or a manual retry strands its
  delivery, under any failure, and `StrandedIffSomeTurn` that nothing else does.
- With overlapping finality jobs a payment is counted twice, in some continuation, exactly if the transition of a second
  job had read it confirmed before the compare-and-set of the first completed it (`FinalityTotals.CountedTwice`,
  `FinalityTheorems.CountedTwiceIff`); a job whose transition begins later is refused. Of two updates of one customer
  the second writes a stale value unless what it read still stands (`FinalityTotals.OverlapLosesValue`,
  `UpdateIsExactIff`).
- The verifier's "memo matched but payment failed verification" answer cannot be given; the branch is dead.
- The half-open test in `onFailure` never changes its outcome (`CircuitBreakers.HalfOpenTestIsRedundant`).
- The verdict code that the source spells `expired` is called `LateArrival` here, to keep it apart from the status.

## Assumptions

Payments, deliveries, endpoints and customers are never deleted. The unique indexes exist: `transactionHash` (partial),
the checkout link of a payment, (paymentId, type) of an event, (endpointId, eventId) of a delivery, and the scope of an
idempotency key.
New ids are fresh; an id that is taken is a database error. Horizon reports only what is on chain. An idempotency
record is looked at only while it lives. HMAC-SHA256 is any function to 32 bytes and AES-256-GCM any cipher whose
decryption undoes its encryption with a 16-byte tag. A queued job is there until it completes, a failed one until the
queue drops it, which it may do at any time (it keeps the latest 500), and a job id the queue still holds is not added
again.

## Model

| member | source | states |
|---|---|---|
| PaymentTheorems.AttributionSafety | src/modules/reconciler/reconciler.service.ts:139-238 | over every schedule of creators, cancellers, expirers, reconcilers and finalizers, each recorded hash is that of an on-chain record settling the payment's exact terms, and no two payments share a hash |
| PaymentTheorems.AttributionChanges | src/modules/payments/payment-state-machine.ts:72-93 | hash, payer, issuer and paid time change only in the winning confirm compare-and-set of that payment, and only from empty |
| PaymentTheorems.PrepareJustified | src/modules/reconciler/reconciler.service.ts:130-204 | whatever Horizon answers and however stale the loaded hashes, a confirmation is requested only with an on-chain record that settles the row's terms |
| PaymentTheorems.AttributionKept | src/modules/payments/payment-state-machine.ts:165-221 | every turn of every worker keeps all recorded and all pending attributions justified |
| PaymentSafety.StepKeeps | src/modules/payments/payment-state-machine.ts:165-221 | one turn of any worker keeps rows, links, events, stale copies and owed events consistent, and only lengthens histories |
| PaymentSafety.RunKeeps | src/modules/payments/payment-state-machine.ts:165-221 | the same over any schedule from any consistent store |
| PaymentSafety.GoalIsNew | src/modules/payments/payment-state-machine.ts:179-186 | a status guard that matches implies the goal was never held before and the longer history is still a lifecycle path |
| PaymentSafety.WrittenUnique | src/infrastructure/prisma/prisma.service.ts:124-136 | a compare-and-set that the partial index accepts keeps hashes unique across payments |
| PaymentSafety.CasMove | src/modules/payments/payment-state-machine.ts:179-186 | the winning compare-and-set keeps the whole invariant and creates exactly one owed event |
| PaymentSafety.EmitEventMove | src/modules/events/events.service.ts:36-61 | the event a winner emits is never rejected by the (paymentId, type) index, and appending it settles exactly its debt |
| PaymentInvariant.DebtIncurred | src/modules/payments/payment-state-machine.ts:204-214 | a status reached for the first time leaves exactly one worker owing its event and no event logged yet |
| PaymentInvariant.DebtSettled | src/modules/events/events.service.ts:36-61 | appending an owed event settles that debt and leaves every other held status logged or owed |
| PaymentHistory.TrailRecordsStatus | src/modules/payments/payment-state-machine.ts:30-37 | a turn leaves a row alone or moves it along one allowed edge and records the new status: histories are the true histories |
| PaymentHistory.HistoriesArePaths | src/modules/payments/payment-state-machine.ts:30-37 | every history is one of the ten listed ways from created, with at most three changes and no status twice |
| PaymentHistory.TerminalIsAbsorbing | src/modules/payments/payment-state-machine.ts:30-37 | a completed, failed, expired or canceled row never changes again, in any column |
| PaymentHistory.ColumnsAreWriteOnce | src/modules/payments/payment-state-machine.ts:72-144 | hash and paid time are set together and never change; completed, canceled and failed columns are set exactly in those statuses |
| PaymentHistory.LinksShowTheirOwnPayment | src/modules/reconciler/reconciler.service.ts:351-361 | a checkout link shows no hash or the hash of the payment created for it |
| PaymentHistory.EventsMatchHistory | src/modules/events/events.service.ts:36-61 | a payment has at most one event of each lifecycle type, four in all, only for statuses held, and exactly one for each once nobody owes one |
| PaymentHistory.MissingEventsAreOwed | src/modules/payments/payment-state-machine.ts:204-214 | a status that was held is without its event exactly while some process still owes it, one on its way to log it or one that threw |
| PaymentHistory.SnapshotsAreReachable | src/modules/payments/payment-state-machine.ts:204-214 | an event's snapshot is of its payment and shows its own status or one the lifecycle reaches from it |
| PaymentSnapshots.FixedSnapshots | src/modules/payments/payment-state-machine.ts:204-214 | a created event shows created, and an event of a terminal kind shows that kind, in every run |
| PaymentSnapshots.SnapshotShowsOwnStatusIff | src/modules/payments/payment-state-machine.ts:179-214 | every other event comes from a winning compare-and-set and a later reload of one process, and shows its own status if and only if no turn between the two moved the payment on |
| PaymentSnapshots.SnapshotCanShowLater | src/modules/payments/payment-state-machine.ts:204-214 | a run from the empty store whose pending event carries a canceled snapshot |
| PaymentCalls.CallOutcomes | src/modules/payments/payment-state-machine.ts:148-222 | a transition that returned saw its goal held at a moment during the call; a refused one wrote nothing; one stopped by a failing operation wrote its one change with the event missing, or nothing, or had its goal held and its own change logged |
| PaymentCalls.OnlyFaultsStopAWinner | src/modules/payments/payment-state-machine.ts:204-221 | once the goal is reached only a failing operation can stop the call: row, event slot and link are there |
| PaymentCalls.MissingForEver | src/modules/payments/payment-state-machine.ts:204-214 | the event of a winner that threw before logging it is never logged, whatever runs afterwards; `PaymentLosses.EventCanBeLost` reaches such a winner |
| PaymentLosses.EventLostIff | src/modules/payments/payment-state-machine.ts:179-221 | after an operation with an event at stake (a winning compare-and-set or insert of a payment, the reload, the insert of the event) no continuation logs the event if and only if it failed after the change, at the reload, or before the event was inserted |
| PaymentLosses.EventMissingIff | src/modules/payments/payment-state-machine.ts:179-221 | in every run a held status is without its event exactly if some turn was such a failure for it, or its winner is still on the way to log it |
| PaymentLosses.EventCanBeLost | src/modules/payments/payment-state-machine.ts:204-214 | a run from the empty store in which a payment becomes pending and its reload fails: pending is held and its event never logged, whatever follows |
| PaymentFinality.CompletedWasVerified | src/modules/reconciler/reconciler.service.ts:241-299 | in every run a payment ever completed had a turn in which a finality job asked Horizon about the hash it showed and was told that the transaction is successful |
| PaymentFinality.FailureWasFound | src/modules/reconciler/reconciler.service.ts:262-276 | in every run a finality job that asks for a failure was told, about the hash the payment showed, that the transaction failed or is not there |
| PaymentFinality.AnswerDecides | src/modules/reconciler/reconciler.service.ts:254-299 | after a successful answer a finality job never asks for anything but to complete the payment, after any other for anything but to fail it, whatever runs and fails |
| PaymentExpiry.ExpiredWasDue | src/modules/reconciler/reconciler.service.ts:302-332 | in every run a payment ever expired had a turn in which a worker saw the clock past its expiry or the first record with its memo paying it rightly but too late |
| PaymentOutcomes.ConcludedIsReconciled | src/modules/reconciler/reconciler.service.ts:139-238 | what follows the verdict is what the first successful record with the memo asks for, told by destination, asset, issuer, amounts, hash and time |
| PaymentOutcomes.ConfirmedIff | src/modules/reconciler/reconciler.service.ts:203-225 | reconciling answers `confirmed` if and only if the first record with the memo settles the terms and no other payment holds its hash, and then the row shows that record |
| Lifecycle.PathsAreShort | src/modules/payments/payment-state-machine.ts:30-37 | a lifecycle path has at most four statuses, all distinct, and only the last can be terminal |
| Lifecycle.PathsAreThese | src/modules/payments/payment-state-machine.ts:30-37 | the paths of the allowed edges are exactly the ten listed sequences of statuses |
| PaymentWorkers.PaymentStore.ValidMeansInv | src/modules/payments/payment-state-machine.ts:148-222 | the store the service methods work on satisfies the invariant of every run |
| PaymentWorkers.PaymentStore.UpdateMany | src/modules/payments/payment-state-machine.ts:179-186 | counts one and writes exactly the requested change, or counts none or is rejected by the index and writes nothing, or throws before or after doing so |
| PaymentWorkers.PaymentStore.Transition | src/modules/payments/payment-state-machine.ts:148-222 | with any other workers and any failures in its pauses, it ends where its result says, throws a duplicate only for a confirmation, and anything but that and a refusal only for a failing operation, at a place that says whether an event is missing; undisturbed it refuses or rejects without a trace, or makes the change and logs its event |
| PaymentWorkers.PaymentStore.Emit | src/modules/events/events.service.ts:36-61 | the index always has room for the worker that owes the event: only a failing insert stops it, and the event is logged exactly if the insert took effect |
| PaymentWorkers.PaymentStore.ReturnedMeansHeld | src/modules/payments/payment-state-machine.ts:188-221 | a worker back from a transition has found its goal held and holds a row showing it or a later status, won or lost |
| PaymentWorkers.PaymentStore.StillHeld | src/modules/payments/payment-state-machine.ts:30-37 | a status held at some moment of the run is held in its history at every later one |
| PaymentWorkers.PaymentStore.ConfirmedIsBacked | src/modules/reconciler/reconciler.service.ts:205-225 | a payment ever confirmed shows a hash, payer and issuer of one on-chain record that settles it |
| PaymentWorkers.PaymentStore.Confirm | src/modules/reconciler/reconciler.service.ts:203-238 | skips on a lost race or a taken hash, otherwise the payment's recorded hash is backed by an on-chain record; only a failing operation is rethrown, the queueing of the finality check included, which leaves the payment confirmed and backed; undisturbed it confirms exactly a pending payment whose hash no other holds, with that hash, payer, issuer and time, one event and its link |
| PaymentWorkers.PaymentStore.Conclude | src/modules/reconciler/reconciler.service.ts:153-238 | undisturbed, each verdict leads to its answer and its exact change of the row, the log and the link; disturbed, to an outcome whose promise about the payment holds; what it throws is a malformed amount or a failing operation |
| PaymentWorkers.PaymentStore.ReconcilePayment | src/modules/reconciler/reconciler.service.ts:102-238 | undisturbed, the first successful record with the memo decides: confirmed with its hash, payer and issuer, failed with the code of what is wrong, expired if late, skipped if its hash is taken, no match for another destination or none; disturbed, `confirmed` means a backed hash, `failed` that failed was held; a lost race and a taken hash never escape |
| PaymentWorkers.PaymentStore.PollOpenPayments | src/modules/reconciler/reconciler.service.ts:65-99 | it throws only for a malformed amount or a failing operation, met at the row it had come to; otherwise each scanned row gets one outcome, the counters sum to `processed`, and the confirmed and failed counters are the numbers of scanned payments that were so, the confirmed ones with a backed hash; undisturbed, each round expires its row if past due and else reconciles it, and the counters count those answers |
| PaymentWorkers.PaymentStore.ExpirePayment | src/modules/reconciler/reconciler.service.ts:324-332 | true only if the payment has been expired, false for a refusal, and only a failing operation is thrown on; undisturbed it expires exactly a created or pending payment |
| PaymentWorkers.PaymentStore.ExpireOverduePayments | src/modules/reconciler/reconciler.service.ts:302-322 | if no operation fails, the count is the number of distinct scanned payments that have been expired; undisturbed all of them are expired and no other row changes |
| PaymentWorkers.PaymentStore.SyncCheckoutLink | src/modules/reconciler/reconciler.service.ts:351-361 | nothing to write without a hash; otherwise the link is always there and gets the payment's own hash, and only a failing update stops the worker |
| PaymentWorkers.PaymentStore.FinalizePayment | src/modules/reconciler/reconciler.service.ts:241-299 | `completed` only if Horizon answered that the transaction is successful or the row was completed before, `failed` only if it answered otherwise; both only for a payment that was completed or failed, by this worker or another; undisturbed, a confirmed row with a hash gets exactly that status, time or code, with its event and link; errors of Horizon and of the store are thrown on, and nothing else |
| PaymentWorkers.PaymentStore.Create | src/modules/payments/payments.service.ts:108-143 | on success the drafted payment exists and has been pending; it fails only with a taken id, a failing operation or a refused transition; undisturbed and with new ids it leaves the link, the pending row and the created and pending events, and nothing else |
| PaymentWorkers.PaymentStore.Cancel | src/modules/payments/payments.service.ts:208-224 | on success the payment has been canceled; it fails only as not found, as refused or with a failing operation; undisturbed it cancels exactly a created or pending payment, with the time |
| Verifier.Verify | src/modules/reconciler/stellar-verifier.ts:56-88 | the scan gives the verdict on the first successful record with the memo, and the branch after the loop is unreachable |
| Verifier.MatchMeansSettled | src/modules/reconciler/stellar-verifier.ts:91-201 | a record matches exactly when it is successful, pays the destination the exact amount in the asked asset from the configured issuer of its network, with the memo and in time, and its hash is not known |
| Verifier.CodesSayWhy | src/modules/reconciler/stellar-verifier.ts:91-201 | for a successful record with the memo, each code is answered exactly when the checks before it pass and its own fails, asset and issuer told currency by currency and the amount codes by the exact rational amounts |
| Verifier.IssuerOfCurrency | src/modules/reconciler/stellar-verifier.ts:115-150 | a record right in the rest matches a live USDC payment exactly from the mainnet USDC issuer, a test one from the testnet issuer, EURC likewise, and an XLM payment exactly if it is native, or coded XLM, and has no issuer |
| Verifier.CaseIsIgnored | src/modules/reconciler/stellar-verifier.ts:115-117 | a currency in lower case is checked as its upper-case spelling |
| Verifier.FirstCandidateDecides | src/modules/reconciler/stellar-verifier.ts:56-88 | the first successful record with the memo alone decides, whatever comes before and after it |
| Verifier.UnrelatedRecordsAreIgnored | src/modules/reconciler/stellar-verifier.ts:63-72 | inserting or removing records that are unsuccessful or without the memo anywhere never changes the answer |
| Verifier.NoMatchMeansNoCandidate | src/modules/reconciler/stellar-verifier.ts:83-87 | no_match without a record is answered exactly when there is no successful record with the memo |
| Verifier.PossibleAnswers | src/modules/reconciler/stellar-verifier.ts:56-88 | a match is one of the given records, settles the target and has no known hash; tx_unsuccessful and memo_mismatch are never answered |
| Idempotency.AtMostOnePayment | src/modules/payments/payments.service.ts:56-176 | for any concurrent requests, failures and crashes, one key never gets two payment rows |
| Idempotency.AnswersAgree | src/modules/idempotency/idempotency.service.ts:69-107 | any two 201 answers of a key carry the same request hash and response, and the response is that key's own payment |
| Idempotency.FailedStaysFailed | src/modules/payments/payments.service.ts:160-176 | after a creation failed, no later request of the key creates a payment |
| Idempotency.NoLaterCreation | src/modules/idempotency/idempotency.service.ts:113-149 | once the owner of a key is past inserting, no schedule adds a row for the key |
| Idempotency.StepKeeps | src/modules/idempotency/idempotency.service.ts:69-168 | every turn keeps each record tied to the request that reserved it, its hash, its row and its answer |
| Replays.CompletedIsReplayed | src/modules/idempotency/idempotency.service.ts:69-107 | once the request that reserved a key has answered 201, under any schedule every check of the key that does not fail answers that very response for its hash and reused for any other, and so is every request begun later |
| Replays.FailedIsNeverReplayed | src/modules/payments/payments.service.ts:160-176 | once that request has answered an error, no check of the key ever answers a stored response, under any schedule, if and only if the record holds the sentinel then |
| Replays.AnsweredIsFrozen | src/modules/idempotency/idempotency.service.ts:113-168 | from the moment that request has answered, no schedule changes the record of its key |
| CreationWorkers.CreationStore.Create | src/modules/payments/payments.service.ts:51-177 | with any failures and any other requests in its pauses, it ends in one of the four answers; a 201 carries a payment that exists under this very key and is what the next check with the hash answers; an error of the request that reserved the key leaves the sentinel unless the success was stored and the clean-up failed; undisturbed, a new key creates its payment and a known one is answered from its record |
| CreationWorkers.CreationStore.CheckKey | src/modules/idempotency/idempotency.service.ts:69-107 | it answers from the record, by hash and status, without touching it, or lets a new key go on to be reserved |
| CreationWorkers.CreationStore.ReserveKey | src/modules/idempotency/idempotency.service.ts:113-149 | only a request that reserved the key goes on to create; a failure here is answered without touching the record again |
| CreationWorkers.CreationStore.TryCreate | src/modules/payments/payments.service.ts:83-176 | the answer is the response of the row this request inserted, stored under 201, or an error after the clean-up, with the record back at the sentinel unless the success was stored and the clean-up failed |
| Idempotency.IdempotencyService.Check | src/modules/idempotency/idempotency.service.ts:69-107 | new, reused, in flight and cached are told apart exactly by presence, hash and the sentinel status |
| Idempotency.IdempotencyService.Reserve | src/modules/idempotency/idempotency.service.ts:113-149 | succeeds exactly for a key without a record; from then on the same hash is answered in flight and any other as reused; otherwise nothing changes |
| Idempotency.IdempotencyService.Complete | src/modules/idempotency/idempotency.service.ts:155-168 | a later check with the hash the key was reserved under answers the stored response, or in flight if the sentinel was written; every other check answers as before |
| Finality.StepKeeps | src/modules/reconciler/reconciler.service.ts:241-299 | under any interleaving of finality jobs, creators, confirmations and failures, each customer's `paymentCount` is the initial one plus the payments counted for it, and counted payments are completed |
| FinalityTheorems.OnceKept | src/modules/reconciler/reconciler.service.ts:276-290 | a completed payment that is counted, or in the hands of one job, is never counted a second time, whatever runs |
| FinalityTheorems.CountedTwiceIff | src/modules/payments/payment-state-machine.ts:165-199 | when a job's compare-and-set completes a payment that has a customer, some continuation counts it twice if and only if the transition of another job has read it confirmed by then |
| FinalityAgreement.OperationsAgree | src/modules/payments/payment-state-machine.ts:165-221 | each operation of a finality job's transition in the payment machine, succeeding or failing, is matched by at most one turn of the finality machine, with the same rows and the same place reached |
| FinalityAgreement.DecisionsAgree | src/modules/reconciler/reconciler.service.ts:241-299 | before the transition too: the row read and the answer of Horizon lead both machines to the same request |
| FinalityTotals.CountedTwice | src/modules/reconciler/reconciler.service.ts:241-299 | a run from the empty store in which the transitions of two jobs read the only payment confirmed before either completes it, and both count it |
| FinalityTotals.UpdateIsExactIff | src/modules/reconciler/reconciler.service.ts:380-392 | a customer update adds exactly one to the counter, and exactly the amount to the value if and only if the value it read still stands |
| FinalityTotals.OverlapLosesValue | src/modules/reconciler/reconciler.service.ts:363-392 | a run in which two overlapping updates count both payments and lose one amount |
| FinalityTotals.TotalsAreConserved | src/modules/reconciler/reconciler.service.ts:363-392 | crashed and repeated jobs included, if no second transition has read a payment confirmed when it is completed and updates of a customer do not overlap, count and value are the initial ones plus number and USDC sum of a set of the customer's completed payments |
| FinalityTotals.TotalsAreExact | src/modules/reconciler/reconciler.service.ts:363-392 | without failing operations, once no job holds a payment of the customer, that set is all of its completed payments |
| FinalityTotals.SerialIsCareful | src/modules/reconciler/reconciler.processor.ts:21-23 | jobs that start only when the one before has ended never meet a second reader or an overlapping update, whatever other workers do between their steps |
| FinalityTotals.SerialTotalsAreExact | src/modules/reconciler/reconciler.service.ts:363-392 | so serial jobs leave exact totals: `paymentCount` grew by the number of the customer's completed payments and `lifetimeValue` by their exact USDC sum |
| FinalityTotals.OrderDoesNotMatter | src/modules/reconciler/reconciler.service.ts:380-386 | two such runs that count the same payments leave the same count and the same lifetime value string, whatever the order |
| Aggregates.SumIsTotal | src/modules/reconciler/reconciler.service.ts:380-386 | the sum over a set of payments is the total of any list of it without repetition |
| FinalityWorkers.FinalityStore.FinalizePayment | src/modules/reconciler/reconciler.service.ts:241-299 | completed means the row is completed and, unless it was so at the start, that Horizon had the transaction as successful and the payment is counted for its customer; failed means the row failed and Horizon had it otherwise; a skipped payment is not confirmed any more, or had no hash; a payment that is not confirmed is left alone; it throws only if an operation failed |
| FinalityWorkers.FinalityStore.UpdateCustomerAggregates | src/modules/reconciler/reconciler.service.ts:363-392 | if it does not throw, the payment is counted; if nobody ran in between, the customer has one payment more and is worth exactly the USDC amount more, and no other customer changed |
| FinalityWorkers.FinalityStore.UpdateCustomer | src/modules/reconciler/reconciler.service.ts:388-391 | the counter rises by one in the row as it is, the time becomes that of the completion, the value becomes the one read plus the amount, other customers keep their rows |
| FinalityWorkers.FinalityStore.MarkCompleted | src/modules/payments/payment-state-machine.ts:165-199 | a row that is not confirmed at the transition's own read is refused, a completed one too; after that it hands back the completed row, whoever completed it, unless the row has failed in between |
| Amounts.AdditionIsExact | src/common/utils/amount.util.ts:108-123 | the sum is the canonical spelling of the exact rational sum, and exactly the ungrammatical operand is rejected, the first one first |
| Amounts.AdditionCommutes | src/common/utils/amount.util.ts:108-123 | swapping the operands gives the same string |
| Amounts.AdditionAssociates | src/common/utils/amount.util.ts:108-123 | both groupings give the same string |
| Amounts.NormalIsUnique | src/common/utils/amount.util.ts:168-179 | a rational number has only one canonical spelling |
| Amounts.ScaleIsExact | src/common/utils/amount.util.ts:157-162 | scaling to at least the places a string has gives exactly its value times ten to the precision |
| Amounts.DescaleIsNormal | src/common/utils/amount.util.ts:168-179 | descaling gives a canonical string within the precision, and scaling it back gives the integer again |
| Amounts.ScaleThenDescale | src/common/utils/amount.util.ts:157-179 | scaling and descaling at any sufficient precision gives the string's canonical form, of the same value |
| Amounts.ComparisonIsRationalOrder | src/common/utils/amount.util.ts:132-143 | the comparison is the order of the rationals, zero exactly when the canonical forms coincide |
| Amounts.AdditionPreservesComparison | src/common/utils/amount.util.ts:132-143 | adding a common operand never changes a comparison |
| Amounts.ValidAmountsAreUnits | src/common/utils/amount.util.ts:84-90 | the accepted amounts are exactly the grammatical strings of at most seven places denoting a positive whole number of ten-millionths |
| Amounts.ZeroAmount | src/common/utils/amount.util.ts:46-58 | the zero test on the split parts rejects exactly the strings whose scaled value is zero |
| WebhookConstants.ScheduleIsBounded | src/modules/webhooks/webhooks.constants.ts:25-67 | exactly the first six failures have a delay, the delays grow, and all together take 112350000 ms |
| WebhookBounds.AttemptBound | src/modules/webhooks/webhook-delivery.service.ts:152-279 | in every interleaving, overlapping attempts and manual retries included, attempts never exceed seven, nor six while pending |
| WebhookBounds.FanOutIsUnique | src/modules/webhooks/webhook-delivery.service.ts:103-133 | under any concurrent or replayed fan-outs a pair of endpoint and event has one delivery, and only if it was selected |
| WebhookBounds.SelectedWhenSubscribed | src/modules/webhooks/webhook-delivery.service.ts:107-114 | a pair is selected only in a turn where the endpoint is active, subscribed, and of the event's business and environment |
| WebhookBounds.DeliveredToSubscribers | src/modules/webhooks/webhook-delivery.service.ts:103-133 | for every delivery of a run there was a moment at which its endpoint was active and subscribed to its event |
| WebhookBounds.CreatedCountsAreExact | src/modules/webhooks/webhook-delivery.service.ts:116-132 | without failures the `created` counts of all fan-outs sum to the rows created |
| WebhookBounds.AtMostSevenSends | src/modules/webhooks/webhook-delivery.service.ts:187-279 | when attempts of a delivery do not overlap and the write after a send takes effect, at most seven requests go out between manual retries |
| WebhookProgress.StepKeeps | src/modules/webhooks/webhook-delivery.service.ts:152-279 | an orderly turn keeps every pending delivery carried by exactly one process or queued job, at its present attempt count, with its delays accounted |
| WebhookProgress.QueueMove | src/modules/webhooks/webhook-delivery.service.ts:423-448 | the id under which a carrier enqueues is free, so the queue takes the job |
| WebhookTheorems.ExactlyOneCarrier | src/modules/webhooks/webhook-delivery.service.ts:152-279 | in orderly runs a delivery is pending exactly when it has one queued job or one carrying process, never both and never two |
| WebhookTheorems.NoJobIsSwallowed | src/modules/webhooks/webhook-delivery.service.ts:423-448 | no first attempt and no retry is lost to job-id deduplication |
| WebhookTheorems.AttemptsOnlyAdvance | src/modules/webhooks/webhook-delivery.service.ts:189-279 | an orderly turn leaves a delivery's attempts alone or counts exactly one more, and never touches a settled delivery |
| WebhookSettlement.OwnTurnLowers | src/modules/webhooks/webhook-delivery.service.ts:152-279 | a turn on a delivery uses up one of the turns it has left, six for each attempt |
| WebhookSettlement.OtherTurnLeaves | src/modules/webhooks/webhook-delivery.service.ts:152-279 | a turn on anything else leaves a delivery's row, its queued job, its carrier and its turns left as they were |
| WebhookSettlement.TurnsAreFew | src/modules/webhooks/webhook-delivery.service.ts:152-279 | any orderly schedule, with any number of fan-outs, spends at most 42 turns on a delivery; while it is pending, and only then, a turn on it is possible; once they are used up it is delivered or failed |
| WebhookSettlement.EveryDeliverySettles | src/modules/webhooks/webhook-delivery.service.ts:152-279 | in every endless run in which queued jobs are some day taken up and carriers some day move, each delivery ends delivered or failed and its row never changes after that |
| WebhookSettlement.EndlessIsRun | src/modules/webhooks/webhook-delivery.service.ts:152-279 | each moment of an endless run is the state a finite run of its first turns reaches |
| WebhookTheorems.DelaysAreBounded | src/modules/webhooks/webhooks.constants.ts:31-67 | the retry delays scheduled for a delivery total at most 112350000 ms |
| WebhookFinality.LostIffOverwritten | src/modules/webhooks/webhook-delivery.service.ts:229-247 | a delivered row loses its status in a turn exactly when a worker that read it earlier resets it or fails it |
| WebhookFinality.DeliveredIsFinal | src/modules/webhooks/webhook-delivery.service.ts:152-327 | if attempts and manual retries of a delivery begin only when none is under way, delivered stays |
| WebhookFinality.DeliveredCanBeLost | src/modules/webhooks/webhook-delivery.service.ts:165-175 | a run from the empty store in which one worker delivers, the merchant deactivates the endpoint, and a second worker on the same job marks the delivered row failed |
| WebhookRetries.HeldIff | src/modules/webhooks/webhook-delivery.service.ts:423-448 | with manual retries, overlaps and failures, the queue holds a job id exactly when some turn asked for it and in no later turn the job completed, or was dropped after it had failed |
| WebhookRetries.StrandsIff | src/modules/webhooks/webhook-delivery.service.ts:116-327 | a step of a fan-out, an attempt or a manual retry, failing or not, strands its delivery exactly when it leaves it pending and lets go of it, no other job of it is queued and no other process is on it |
| WebhookRetries.FreshStrandsIff | src/modules/webhooks/webhook-delivery.service.ts:398-421 | a delivery is stranded as it is created exactly when the insert takes effect and still throws, and nobody is on it |
| WebhookRetries.OthersNeverStrand | src/modules/webhooks/webhook-delivery.service.ts:152-279 | no turn of a process that is not on a delivery strands it |
| WebhookRetries.StrandedIffSomeTurn | src/modules/webhooks/webhook-delivery.service.ts:103-279 | in every run in which nobody retries a delivery by hand or runs a job of it twice, it ends up stranded if and only if some turn stranded it |
| WebhookRetries.SwallowedIff | src/modules/webhooks/webhook-delivery.service.ts:266-267 | a scheduled retry leaves its pending delivery with no queued job and no worker exactly when the queue already holds its id, no other job of it is queued and no other worker is on it |
| WebhookRetries.ManualRetryCanBeLost | src/modules/webhooks/webhook-delivery.service.ts:283-327 | a run in which retry one throws and is kept, a manual retry fails once, and its own retry one is ignored: no operation of the manual retry failed and the delivery is stranded |
| WebhookRetries.StrandedStays | src/modules/webhooks/webhook-delivery.service.ts:152-279 | a stranded delivery stays stranded under every turn but a manual retry of it or a second run of one of its jobs |
| WebhookRetries.FanOutCanStrand | src/modules/webhooks/webhook-delivery.service.ts:116-132 | a fan-out that creates the row and fails to enqueue strands the delivery under every continuation without a manual retry, replays of the fan-out included |
| WebhookAnswers.DeliveredWasAccepted | src/modules/webhooks/webhook-delivery.service.ts:187-209 | in every run, with overlapping and failing attempts and manual retries, a delivered row was answered with a status of 200 to 299 |
| WebhookAnswers.FailedWasRejected | src/modules/webhooks/webhook-delivery.service.ts:161-251 | in every run a failed row was answered with a number that is neither a success nor retried, or at the seventh attempt or later, or its endpoint was missing or inactive or its event missing |
| WebhookWorkers.WebhookStore.EnqueueDeliveries | src/modules/webhooks/webhook-delivery.service.ts:103-148 | unless an operation fails, every endpoint that was subscribed when read has a delivery of the event afterwards, whatever other fan-outs do; a missing event creates nothing |
| WebhookWorkers.WebhookStore.CreateDelivery | src/modules/webhooks/webhook-delivery.service.ts:398-421 | if it does not throw, the pair has a delivery afterwards, made now or found, and it throws only if the insert failed |
| WebhookWorkers.WebhookStore.WriteAttempt | src/modules/webhooks/webhook-delivery.service.ts:191-279 | delivered exactly for a status of 200 to 299; a retry exactly for no answer, 500 and above, 408, 409, 425 or 429 before the seventh attempt; failed otherwise; the row shows that, one attempt more than was read, and the delay of its place in 30 s, 2 min, 10 min, 1 h, 6 h, 24 h; a failing write throws and the queue keeps the job |
| WebhookWorkers.WebhookStore.AttemptDelivery | src/modules/webhooks/webhook-delivery.service.ts:152-279 | skipped exactly when not pending at the read; failed if endpoint or event were absent at a moment of the call, otherwise the outcome is told by the number of the answer and of the attempt; the row or the queue shows it on return, and undisturbed the row is exactly that; it throws only if an operation failed, and then the queue keeps the job as failed |
| WebhookWorkers.WebhookStore.RetryDelivery | src/modules/webhooks/webhook-delivery.service.ts:283-327 | refused exactly for a missing or delivered row; otherwise the row it answers was in the store at that moment, pending with no attempt counted, and a manual job is in the queue |
| CircuitBreakers.CircuitBreaker.GetState | src/infrastructure/stellar/circuit-breaker.ts:38-41 | closed exactly below the threshold, open exactly at or above it while the reset timeout has not run since the latest failure |
| CircuitBreakers.CircuitBreaker.Enter | src/infrastructure/stellar/circuit-breaker.ts:43-48 | a call is admitted exactly when there are fewer failures since the last success than the threshold, or the reset timeout has run since the latest failure |
| CircuitBreakers.CircuitBreaker.Succeed | src/infrastructure/stellar/circuit-breaker.ts:69-72 | the circuit is closed and no failure of the history counts any more |
| CircuitBreakers.CircuitBreaker.Fail | src/infrastructure/stellar/circuit-breaker.ts:74-80 | the counter is the failures since the last success, one more than before, and the circuit is open, from now on, exactly if that reaches the threshold |
| CircuitBreakers.BreakerRefinesHistory | src/infrastructure/stellar/circuit-breaker.ts:43-80 | for a threshold of at least one, and only then, under every history of overlapping calls the counter is the failures since the last success, closed means below the threshold, and half-open means the timeout has run since the latest failure |
| CircuitBreakers.NoEarlyProbe | src/infrastructure/stellar/circuit-breaker.ts:60-67 | no call is admitted at or above the threshold earlier than the reset timeout after the latest failure |
| CircuitBreakers.HalfOpenTestIsRedundant | src/infrastructure/stellar/circuit-breaker.ts:74-80 | in every reachable state the counter alone decides whether a failure opens the circuit |
| CircuitBreakers.SecondProbeIff | src/infrastructure/stellar/circuit-breaker.ts:43-72 | a later call joins the probe's half-open window if and only if no call finishes in between |
| CircuitBreakers.OneProbeIff | src/infrastructure/stellar/circuit-breaker.ts:43-72 | each half-open window admits at most one call if and only if between every probe and each later start some call finishes |
| CircuitBreakers.SerialCallsProbeOnce | src/infrastructure/stellar/circuit-breaker.ts:43-58 | callers that let every admitted call finish before the next one starts never probe twice in a window |
| CircuitBreakers.TwoProbes | src/infrastructure/stellar/circuit-breaker.ts:43-58 | a history under the default options in which two calls are admitted in one half-open window before either finishes |
| HorizonRetry.WithRetry | src/infrastructure/stellar/stellar-horizon.service.ts:196-210 | it stops at the first result that is not worth retrying (a timeout, a lost connection, a server error, a rate limit, or something thrown that is not an Error), or after four calls, returns that result, and has slept 0, 1, 3 or 7 seconds |
| HorizonRetry.HorizonService.GetBreaker | src/infrastructure/stellar/stellar-horizon.service.ts:183-194 | one breaker per environment, made once, and no breaker's history changes |
| HorizonRetry.HorizonService.IsCircuitOpen | src/infrastructure/stellar/stellar-horizon.service.ts:164-166 | open means five failures or more since the last success of this environment and less than 30 seconds since the latest; other environments are left alone |
| HorizonRetry.HorizonService.Operate | src/infrastructure/stellar/stellar-horizon.service.ts:183-210 | an operation makes calls exactly if there are fewer than five failures since the last success or 30 seconds have passed since the latest, at most four; the environment's history gains its start and, if admitted, one success or failure, and other environments' gain nothing |
| HorizonRetry.OperateInOrder | src/infrastructure/stellar/stellar-horizon.service.ts:183-210 | a worker that runs its operations one after the other gives its breaker exactly the history the call budget is about |
| HorizonRetry.CallBudget | src/infrastructure/stellar/stellar-horizon.service.ts:183-210 | if every call fails, operations in order make at most 20 calls before the circuit opens, then at most four for each full reset window |
| Pagination.PageIsNextBlock | src/modules/payments/payments.repository.ts:100-133 | a page is the next block past the cursor in list order, and has a next cursor exactly when rows are left |
| Pagination.PageForCaller | src/modules/payments/payments.repository.ts:100-133 | a page holds at most `limit` rows after the cursor, newest first by time and then id, says there is more exactly when rows are left, and its cursor is then its last row, before all that are left |
| PageWalks.PagesAreComplete | src/modules/payments/payments.repository.ts:38-133 | following the cursor text from page to page, whatever rows are inserted between pages: the rows read are newest first by time and then id, none twice, no page is refused, and a finished walk has read every row present at its first page |
| PageWalks.WalkEnds | src/modules/payments/payments.repository.ts:38-133 | without inserts the walk over cursor texts finishes within the pages that cover the rows, and reads exactly the rows |
| PageWalks.TextWalkAgrees | src/modules/payments/payments.repository.ts:38-133 | sending each page's cursor text back reads page by page what carrying the row itself would |
| PageWalks.CursorFindsRow | src/modules/payments/payments.repository.ts:38-57 | the cursor made from a storable row asks for exactly what comes after that row |
| Cursors.DecodeUndoesEncode | src/modules/payments/payments.repository.ts:38-57 | decoding a made cursor gives the row's created time and id back, unless the id is empty |
| Cursors.CursorsAreDistinct | src/modules/payments/payments.repository.ts:38-43 | different rows have different cursors |
| Bytes.Base64RoundTrip | src/modules/payments/payments.repository.ts:38-57 | base64url decoding undoes encoding for buffers of every length |
| Bytes.HexRoundTrip | src/common/utils/crypto.util.ts:114-118 | hex decoding undoes encoding, which is twice as long and lower case |
| Bytes.HexSpells | src/common/utils/crypto.util.ts:114-118 | each byte is spelt by its two hex digits, the high one first, in small letters |
| Bytes.KnownVectors | src/modules/payments/payments.repository.ts:38-43 | the examples of section 10 of RFC 4648, without padding, and the two symbols of its section 5 |
| Crypto.SignedVerifiesIff | src/common/utils/crypto.util.ts:188-217 | a made header is accepted, for any secret and body, exactly when the timestamp is not 0, the skew is within tolerance, and the two HMACs of time, full stop and body agree |
| Crypto.HeaderAcceptedIff | src/common/utils/crypto.util.ts:188-217 | a header with any signature is accepted exactly when that is the HMAC, under the secret's bytes, of the decimal time, a full stop and the body, the time is not 0 and the skew is within tolerance |
| Crypto.SignedVerifies | src/common/utils/crypto.util.ts:167-217 | for its own secret and body it is accepted exactly when the timestamp is not 0 and the skew is within tolerance |
| Crypto.SignedInputIsInjective | src/common/utils/crypto.util.ts:172-176 | no two pairs of timestamp and body are signed as the same text |
| Crypto.ParsePrint | src/common/utils/crypto.util.ts:194-198 | `parseInt` undoes the printing of every integer |
| Crypto.HeaderFields | src/common/utils/crypto.util.ts:194-208 | splitting a made header at commas and equals signs gives back its timestamp, its signature and the expected signature |
| Crypto.DecryptSeesWhatWasSealed | src/common/utils/crypto.util.ts:126-153 | of the text of iv, tag and ciphertext in hex with colons between them, the cipher is handed exactly those three, under any 32-byte key |
| Crypto.DecryptUndoesEncrypt | src/common/utils/crypto.util.ts:103-153 | the envelope is iv, tag and ciphertext in hex with colons between them; decryption undoes encryption for every plaintext, and exactly the keys that are not 32 bytes are refused |
| Crypto.FormatErrorIff | src/common/utils/crypto.util.ts:130-133 | with a good key the format error means exactly that the envelope does not hold two colons |
| Text.SplitJoin | src/common/utils/crypto.util.ts:114-130 | splitting undoes joining when no piece contains the separator's first character |

## Left out

- PaymentWorkers.PaymentStore.PollOpenPayments: the rows found by the query are a parameter, so its order by creation time and its limit of 200 are not modelled; any list of pending rows is covered.
- PaymentWorkers.PaymentStore.ExpireOverduePayments: the same, for any list of distinct overdue rows.
- PaymentWorkers.PaymentStore.FinalizePayment: ends with the checkout link; the customer totals that follow it are in `FinalityWorkers`.
- PaymentWorkers.PaymentStore.Create: customer upsert, destination lookup, memo allocation and its retry loop are not modelled; the link and payment ids come with the draft, and a taken id is a database error.
- PaymentWorkers.PaymentStore.Cancel: the lookup by public id within the merchant's business is a lookup by id.
- FinalityWorkers.FinalityStore.FinalizePayment: the reload inside the transition, its event and the checkout link are in `PaymentWorkers`; their failing is a failing load of the customer (`FinalityAgreement`).
- WebhookTheorems.ExactlyOneCarrier: assumes decryptable secrets, a queue that is present and accepts jobs, and no manual retry; a signing secret that cannot be decrypted throws outside the try block and leaves its delivery pending without a job.
- WebhookWorkers.WebhookStore.AttemptDelivery: the reads of endpoint and event are one operation, events never changing, so a turn of the model is not always one query of the code.
- Deleting an endpoint together with its deliveries: a worker that has read such a row then fails to update it.
- HorizonRetry.CallBudget: for sequential callers; the nested retry of memo lookups inside one listing is not modelled.
- Idempotency.AnswersAgree: the request hash is an abstract value; that equal hashes mean equal bodies is not claimed, since the hash ignores nested keys that no top-level key shares.
- Crypto.SignedVerifies: timestamps are whole numbers and are not rounded beyond 2^53; the constant-time comparison is plain equality.
- Cursors.DecodeUndoesEncode: Date and JSON parsing are given by their inverse laws, for ids that need no escaping; a malformed cursor decodes to nothing and the listing then starts from its first page.
- PageWalks.PagesAreComplete: a row's id is a number below 16^24, written as 24 hex digits and ordered as a number; the filter by merchant and environment selects the table.
- Removal of idempotency records after 24 hours, and what a key means afterwards.
- The queue of finality checks and its delays: a finality worker may start for any payment at any time.
- Failure messages, log lines, metrics, response bodies, and the response fields of a delivery.
- That dispatching an event fails and is swallowed: fan-out is its own process, which may never run.
- Horizon's own paging and memo loading, Redis and BullMQ beyond job ids, Mongo beyond the indexes listed.
- Controllers, guards, sessions, throttling, API keys, merchant settings, customers by email: no hard property.
- The delivery list and the customer list: the same paging, or a filter on a status that changes.

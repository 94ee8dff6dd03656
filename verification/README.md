# A verified model of the shop's transactional core

The shop sells stock it may not oversell, through a checkout that reserves, charges, commits and marks
paid across four services with no transaction over all of them. Crashes, timeouts, retries, webhooks,
reapers and recovery pollers meet at every step. This project models that core in Dafny and proves what
the design relies on, over every run.

## How the model is laid out

Where several actors interleave, the model is a step machine: a state, the steps each actor can take
next, and runs that mix steps, faults (with or without the write having landed) and crashes freely. One
unit of work on the database, or one call to a provider, is one step. Where the source is a loop or an
object that updates its fields, the model is a class or a method with that loop, proved against a
function of the old state, and the theorems are about that function.

Two kinds of theorem go together. Over every run, whatever interleaves: what no step can break. Over every
run in which one actor takes all the steps, whatever it is answered: that it ends, and ends where its job
demands. The first says that nothing goes wrong, the second that something is done.

* **Stock** - `Inventory` (the ledger and its transitions), `InventoryService` (the service's loops).
* **Payments** - `Payments` (one row, the provider's record, every step that can touch them),
  `PaymentsService` (charge, refund, webhook, reconciliation pass).
* **Checkout** - `Checkout` (one order and every frame that can act on it), `CheckoutSafety` (what holds
  in all interleavings), `CheckoutExclusion` and `CheckoutMoney` (what needs settlement kept apart from
  live drives, what goes wrong without it, and what goes wrong even with it), `CheckoutWorld` (all orders
  over one ledger), `CheckoutGuards` (when an order may be unwound), `CheckoutAlone` (what every actor
  achieves when nobody interferes, and where every fault is caught; built from `CheckoutTracks`,
  `CheckoutFaults` and `CheckoutSolo`), `Recovery` and `RecoveryPoller` (the poller's pass),
  `RefundIntent` (why a guarded cancel and a guarded success may be taken as single steps),
  `Idempotency` (keys, replays, the lossy record store).
* **Events** - `EventPipeline` and `EventLeases` (outbox, relay, fan-out, lease, completion marker,
  dead-letter queue, replay), `EventDelivery` (its actors undisturbed), `OutboxRelay`, `EventConsumer`,
  `DeadLetters` (the loops).
* **Product cache** - `ProductCache` (coherence under late and unordered invalidations),
  `ProductFillLock` (the fill lock in time: one filler), `ProductFillWait` (callers that lose the
  election, in time), `ProductCacheReader` (the scripts, the read path and the waiter's loop).
* **Images** - `ImageKeys` (the key layout as text), `ImageLifecycle` (presign to reclaim),
  `ImageProgress` (its workers undisturbed), `ImageReclaimer` (the drain loop).
* **Kernels** - `UnitOfWork`, `CircuitBreaker`, `ResilientGateway`, `ConcurrencyBudget`, `Keyset`,
  `CartProjection`, `TraceContext`; `Text`, `FrameIds` and `Options` are shared helpers.

## What turned out false, and exactly when it holds

* An order can end paid and refunded at once if the poller settles while a retry drives: the journal
  check is check-then-act. With settlement kept apart from drives it cannot
  (`PaidAndRefundedWithoutExclusion`, `PaidIsNeverRefunded`).
* The comment in `_settle_crashed` calls refund-before-cancel the crash-safe order. If the poller dies
  between the provider's refund and the row's flip, a same-key retry finds a `succeeded` row, re-reserves
  and pays: a paid order with nothing at the provider, exclusion or not
  (`PaidForNothingDespiteExclusion`, `StrandedRefundIsPaidFor`). Without that cut, a paid order's money is
  there in full (`PaidMoneyStands`).
* A charge the reconciler gave up as never seen can still be captured afterwards
  (`AbandonedChargeCanStillBeCaptured`). A failed row stays without money at the provider, whatever
  follows, exactly when the provider declined the charge or there was nothing to take
  (`FailedRowTakesNothingIff`).
* The breaker is documented to admit exactly one probe. A straggler that answers into an epoch whose
  probe was abandoned leaves the probe counter at minus one, and the next epoch runs two probes although
  every call in flight is its own (`TwoProbesAfterAStraggler`). From a reachable open breaker whose window
  has elapsed, an epoch free of stragglers can hold two probes exactly when the counter stood at minus one
  on entry (`TwoProbesIffCounterBelowZero`); runs without stragglers have at most one
  (`OneProbeWithoutStragglers`).
* The wait for another caller's fill is documented as capped in total. Every lost election sets a fresh
  deadline: a caller that sees the lock gone and loses it to a rival waits again, and for every number of
  elections there is a run that costs that many deadlines in full (`EveryLossCanCostADeadline`). A caller
  waits at most one deadline and one poll for every election it loses (`WaitBoundedByLostElections`); one
  wait caps the total for callers that lose at most one election and for no others
  (`TotalWaitCappedIff`), and a caller that saw the lock gone loses again only to a rival that stands
  before it (`NoRivalNoLoss`).
* A remembered 404 outlives the product's creation with nothing in flight, because creations are not
  announced to the cache (`MissOutlivesCreation`).
* The stock a cancelled order had consumed is not always given back. If the undo's restock raises, whether
  anyone comes back for it turns on the provider: the refund intent stays due, and the poller restocks, if
  and only if the money went back; a refusal closes the intent with the stock still consumed
  (`RestockRetriedIffRefunded`).
* Version-less cart events alone do not converge: the last one delivered wins (`LastVersionlessWins`,
  `VersionlessDoNotConverge`).

## What turns on SQLAlchemy

A batch reserve is documented as all or nothing. A short line, a contradiction and a race raise through the
attempt's savepoint, but a SKU without a stock row makes the adapter `return` from inside it. Whether that
return keeps the lines placed before depends on whether SQLAlchemy has already unwound the attempt's
savepoint when the INSERT fails, which this repository does not show. The model takes it as a parameter
(`keeps`) and proves everything for both answers: the stock ledger, the checkout results and `NeverOversold`
hold either way, and an undisturbed refused drive gives kept lines back (`RefusedDriveCleansUp`). If the
return does not keep them, the batch is all or nothing. If it does, the service commits them before it
refuses the call (`RefusedBatchCanKeepALine`), and a refused batch leaves the ledger unchanged exactly when
its first refused line in SKU order has a stock row or is held at another quantity, or every line before it
was held already (`RefusedBatchChangesNothingIff`).

## Assumptions

The provider decides a key once and answers replays alike; in the checkout
protocol a webhook says what the provider decided. Tokens, upload tokens and idempotency keys drawn at random are never drawn twice. A publish that
SNS accepted reaches every subscribed queue. Hashes, JSON and base64 are taken as faithful. Time appears
only where the code compares clocks (the breaker's window, the budget's stamps, the fill lock's lifetime
and a waiter's deadline); elsewhere a timeout is a
choice the environment makes.

## Model

| member | source | states |
|---|---|---|
| `Inventory.StockLedger` | src/inventory/ports/repository.py:60-198 | over every sequence of reserve (a refused batch keeping lines or not), release, commit, restock, expire and upsert across orders: reserved equals the held quantities, 0 <= reserved <= on_hand, on_hand plus committed quantities of every SKU, stocked before the run or first during it, changes only by what upserts put in, and a row whose version did not move did not change |
| `Inventory.ApplyKeepsValid` | src/inventory/ports/repository.py:87-198 | each single operation keeps the ledger valid and moves every SKU's books by exactly what it injects, a first upsert included |
| `Inventory.ReserveHoldsEveryLine` | src/inventory/ports/repository.py:114-141 | an accepted batch leaves the order holding every line at its own quantity; a refused batch changes nothing |
| `Inventory.RefusedBatchChangesNothingIff` | src/inventory/adapters/db/repository.py:429-505 | a refused well-formed batch leaves the ledger unchanged if and only if the line that refuses it, first in SKU order, has a stock row or is held at another quantity, or every line before it was held already; always if the return does not keep what was placed |
| `Inventory.RefusedBatchCanKeepALine` | src/inventory/adapters/db/repository.py:481-488 | the batch of a stocked and an unstocked SKU: refused, with the first line held and reserved |
| `Inventory.BySkuSorts` | src/inventory/adapters/db/repository.py:392-393 | the working order is the batch itself in ascending SKU order |
| `Inventory.UpsertKeepsValid` | src/inventory/ports/repository.py:60-75 | an upsert never erases live holds, moves its SKU's books by exactly the difference it sets, from nothing for a new SKU, and no other's |
| `InventoryService.Service.Validate` | src/inventory/application/service.py:183-191 | the loop with its `seen` set accepts exactly the batches with positive quantities and no repeated SKU |
| `InventoryService.Service.TryBatch` | src/inventory/adapters/db/repository.py:429-505 | one attempt places every missing line, or names the first line that could not be served and how: a race, a contradiction and a short line leave nothing; a missing stock row hands back what was placed before it |
| `InventoryService.Service.ReserveMany` | src/inventory/application/service.py:168-211 | placed exactly when every line is covered; otherwise the answer names the SKU that refuses, first in SKU order, and why, and the ledger is unchanged or, for a missing stock row when the return keeps what was placed, holds the lines before it |
| `InventoryService.Service.ReleaseForOrder` | src/inventory/application/service.py:218-226 | releases exactly the order's held rows, counts them, and a replay changes nothing |
| `InventoryService.Service.RestockForOrder` | src/inventory/application/service.py:228-237 | puts exactly the order's committed rows back on the shelf and counts them |
| `InventoryService.Service.CommitForOrder` | src/inventory/application/service.py:239-251 | consumes every held row or, short of `expected`, nothing; reports the committed end state |
| `InventoryService.Service.ReleaseExpired` | src/inventory/application/service.py:258-272 | releases at most the batch, only held rows that are due, and leaves none due when the batch was not full |
| `InventoryService.Service.UpsertStock` | src/inventory/application/service.py:81-127 | applies exactly when the holds fit and the expected version matches |
| `Payments.PaymentLedger` | src/payments/application/service.py:142-370 | under any interleaving the row's history is a prefix of pending-failed or pending-succeeded-refunded with one event per flip; the provider's net is 0 or the amount; refunded means net 0 |
| `Payments.DecidedOnce` | src/payments/adapters/stub_gateway.py:126-193 | decided rows, provider decisions and refund decisions never change again |
| `Payments.FailedRowTakesNothingIff` | src/payments/application/service.py:345-367 | for every failed row: no continuation leaves anything at the provider if and only if the provider declined the charge or the amount is zero |
| `Payments.AbandonedChargeCanStillBeCaptured` | src/payments/application/service.py:345-367 | the run in which an abandoned, failed row's charge is captured afterwards |
| `PaymentsService.ChargedFollows` | src/payments/application/service.py:247-250 | a resumed charge is a legal run of the payment steps and never captures twice |
| `PaymentsService.ChargedObeysProvider` | src/payments/application/service.py:247-250 | a new or never-seen charge ends succeeded exactly if the provider captured it, failed exactly if it declined, pending exactly if it is still processing; one decided before ends as decided |
| `PaymentsService.Service.ChargeFor` | src/payments/application/service.py:226-250 | idempotent on the key: conflict exactly on another order or amount, decided rows answered untouched; a new charge, or one the provider had not seen, is answered as the provider decides and one decided before as it was decided; the amount is captured exactly when the answer is succeeded |
| `PaymentsService.Service.Refund` | src/payments/application/service.py:142-222 | true exactly when the row is refunded, and then the provider holds nothing; a succeeded row asked for the first time is refunded exactly if the provider grants it and the charge has a reference; otherwise a succeeded row stays truthful |
| `PaymentsService.RefundObeysProvider` | src/payments/application/service.py:174-222 | whether a succeeded row ends refunded is the provider's first answer, and stays so |
| `PaymentsService.Service.HandleWebhook` | src/payments/application/service.py:274-296 | applied exactly to a pending row, once; late, repeated and unknown notifications change nothing; the table stays true if and only if what was applied is what the provider decided |
| `PaymentsService.NotifiedTrueIff` | src/payments/application/service.py:433-458 | one flip with one event, and the ledger's laws survive it exactly when the notification tells the truth |
| `PaymentsService.Service.Sweep` | src/payments/application/service.py:327-338 | one reconciliation leg changes exactly the looked-up rows and counts exactly those it decided |
| `PaymentsService.Service.Reconcile` | src/payments/application/service.py:300-370 | `resolved` is exactly the number of rows that left pending; a looked-up row leaves pending for what the provider decided, captured or declined; a still-processing one stays; a never-seen row is given up exactly past the window; an unreachable gateway decides nothing |
| `CheckoutSafety.DoKeepsInv` | src/orders/application/checkout_saga.py:322-1075 | every step, fault, crash and outside event of every actor keeps the order's invariant |
| `CheckoutSafety.CommitConsumesAll` | src/orders/application/checkout_saga.py:1077-1093 | a commit that finds enough rows leaves every line of the order consumed at its own quantity |
| `CheckoutSafety.MoneyHasOwner` | src/orders/application/checkout_saga.py:425-743 | in every interleaving a succeeded payment on a cancelled order has a requested or refused refund marker |
| `CheckoutSafety.PaidImpliesConsumed` | src/orders/application/checkout_saga.py:487-595 | a paid order consumed all its lines, holds nothing, and its payment reached succeeded; every order consumed all or none; one OrderPlaced per paid order and none otherwise |
| `CheckoutSafety.RefundJournalIsTrue` | src/orders/application/checkout_saga.py:649-783 | completed means refunded and net 0, refused means the provider keeps it all, never both, and an intent is opened only for captured money |
| `CheckoutGuards.ChargedForGood` | src/orders/application/checkout_saga.py:331-335 | once a drive knows its charge landed, no write it makes along any run, under any fault, releases stock or cancels, and it stays on the way to pay or refund |
| `CheckoutGuards.CancelTurnedAwayWhileChargeStands` | src/orders/application/service.py:109-117 | in every reachable state, if a charge is pending or captured the journal turns a user's cancel away |
| `CheckoutAlone.DriveIsRight` | src/orders/application/checkout_saga.py:349-597 | over every run in which a drive takes all the steps: refused a reservation it ends cancelled with nothing held and the payment as it was; otherwise the row says what the provider answered, the journal's latest charge entry says the same, and the order follows the row: paid with every line consumed and one OrderPlaced, cancelled with nothing held, or pending with every line held |
| `CheckoutAlone.UndoIsRight` | src/orders/application/checkout_saga.py:516-588 | from every point after its charge landed, a drive that finds its order cancelled ends with the money back or refused, journaled so, and no consumed row kept |
| `CheckoutAlone.FaultIsHandled` | src/orders/application/checkout_saga.py:598-647 | a step that raises, landed or not, with nobody else about: before the payment call the drive compensates; timed out in the call it compensates only if the row says failed and otherwise leaves everything; a timed-out commit is tried again and the drive pays, undoes or journals the shortfall; other charged drives leave the order as it is; a timed-out compensation runs again |
| `CheckoutAlone.RestockRetriedIffRefunded` | src/orders/application/checkout_saga.py:677-722 | an undo whose restock raised leaves its open intent due, for the poller to restock, if and only if the money went back |
| `CheckoutAlone.SettlementAloneIsRight` | src/orders/application/checkout_saga.py:984-1075 | every undisturbed run of the settlement ends as the payment row demands |
| `CheckoutAlone.RetryAloneClosesIntent` | src/orders/application/checkout_saga.py:940-982 | every undisturbed run of the refund retry closes the intent, with the stock back and the money back or refused |
| `CheckoutAlone.CancelIsRight` | src/orders/application/service.py:97-141 | every undisturbed run of a user's cancel: paid orders and orders whose charge may stand are untouched, a cancelled one has its holds released, any other pending one is cancelled with nothing held and journaled |
| `CheckoutAlone.ReconcileIsRight` | src/payments/application/service.py:327-367 | every undisturbed run of the reconciler on a pending row: succeeded if captured, failed if declined, given up exactly if never seen and past its age, else untouched |
| `CheckoutSolo.EveryFrameEnds` | src/orders/application/checkout_saga.py:322-1075 | no actor is ever stuck or loops: alone, its next step is always enabled and it is gone after at most as many steps as its rank, 29 for a whole drive |
| `CheckoutSolo.ChargeIsTheAnswer` | src/orders/application/checkout_saga.py:417-424 | alone, an actor leaves the provider's record of the charge at the answer it got, or as it was if the charge was seen before or not made |
| `CheckoutSolo.RefundIsTheAnswer` | src/orders/application/checkout_saga.py:678-681 | the same for the refund: the money goes back exactly if the provider granted it and the charge has a reference |
| `CheckoutExclusion.PaidIsNeverRefunded` | src/orders/application/checkout_saga.py:883-1034 | with settlement kept apart from drives, paid and refunded never coexist |
| `CheckoutMoney.PaidAndRefundedWithoutExclusion` | src/orders/application/checkout_saga.py:890-899 | without it every order with a valid basket has a run to paid and refunded |
| `CheckoutMoney.PaidMoneyStands` | src/orders/application/checkout_saga.py:984-1063 | kept apart, and with no cut between the provider's refund and the row's flip, a paid order's money is at the provider in full |
| `CheckoutMoney.RetryPays` | src/orders/application/checkout_saga.py:311-317 | from any pending order behind a succeeded row an undisturbed same-key retry reaches paid and leaves the money as it was |
| `CheckoutMoney.StrandedRefundIsPaidFor` | src/payments/application/service.py:174-196 | whenever the provider refunded and the row does not know, a retry marks the order paid with net 0 |
| `CheckoutMoney.PaidForNothingDespiteExclusion` | src/orders/application/checkout_saga.py:994-1034 | that gap is reachable from every new order even with the exclusion |
| `CheckoutWorld.WorldRun` | src/inventory/ports/repository.py:87-198 | all orders over one ledger: rows agree on both sides, every order keeps its invariant, every SKU's books move only by stocktakes |
| `CheckoutWorld.NeverOversold` | src/inventory/ports/repository.py:87-198 | for every SKU, stocked before the run or first during it, what paid orders own plus the shelf never exceeds what merchants stocked; and every line of every paid order is a consumed row at its quantity |
| `Recovery.SettlementIsRight` | src/orders/application/checkout_saga.py:984-1075 | by payment row: full holds are paid; a shortfall is cancelled with the money back exactly if the provider gives it, else the refusal journaled, and no stock kept; other decided rows are cancelled with nothing held; pending is left alone; and the outcome reported is completed, compensated or deferred exactly as the order ended paid, cancelled or pending |
| `Recovery.FitsIffEveryLineOwned` | src/orders/application/checkout_saga.py:1077-1093 | the count comparison succeeds exactly when every line still has its own reservation |
| `Recovery.CompensationEnds` | src/orders/application/checkout_saga.py:785-809 | compensation cancels, leaves nothing held, touches no money and erases no journal row |
| `Recovery.RefusedDriveCleansUp` | src/orders/application/checkout_saga.py:632-647 | a drive refused at its reservation, with lines kept or none, ends cancelled with nothing held and its payment untouched |
| `Recovery.RetryClosesIntent` | src/orders/application/checkout_saga.py:940-982 | a retried intent is closed for good, with the stock back and the money back exactly if the provider gives it, else refused and journaled so |
| `Recovery.PassRuns` | src/orders/application/checkout_saga.py:854-938 | a pass over an order is a run of the checkout protocol that respects the exclusion |
| `Recovery.PassIsIdempotent` | src/orders/application/checkout_saga.py:854-938 | a second pass changes nothing, whatever the provider would answer |
| `RecoveryPoller.Poller.SettleCrashed` | src/orders/application/checkout_saga.py:984-1075 | the step-by-step settlement computes the settled order and its outcome, and touches no other order |
| `RecoveryPoller.Poller.RetryJournaledRefund` | src/orders/application/checkout_saga.py:940-982 | the retry computes the retried order and reports refunded, refused or deferred truthfully |
| `RecoveryPoller.Poller.SettleClaimed` | src/orders/application/checkout_saga.py:879-910 | a claimed order with a live drive behind it is exactly as it was, every other is settled as its payment row demands, nobody else is touched, and each counter moves by the number of orders that ended so |
| `RecoveryPoller.Poller.RecoverStuck` | src/orders/application/checkout_saga.py:854-938 | every busy stuck order is exactly as it was; every quiet one is paid in full, called off, cancelled with nothing held or left pending as its payment row demands; every intent due is closed, refunded exactly if the provider gives the money; all others are untouched; each counter is the number of orders that ended so |
| `RecoveryPoller.RetryIsRight` | src/orders/application/checkout_saga.py:940-982 | a retry reports refunded exactly when the row ends refunded, refund-failed exactly when the refusal is journaled, and nothing else |
| `RecoveryPoller.CountedCounts` | src/orders/application/checkout_saga.py:879-910 | each counter moves by exactly the number of its outcomes |
| `RefundIntent.IntentExactlyWhenOrphaned` | src/orders/adapters/db/repository.py:284-327 | under any interleaving of cancel, success and paid transactions statement by statement, exactly one intent row if cancelled and captured, none otherwise |
| `RefundIntent.TransactionLands` | src/orders/adapters/db/repository.py:284-327 | a transaction nobody interrupts commits what it is for within four statements, and touches no other row |
| `RefundIntent.SomeoneCanGoOn` | src/orders/adapters/db/repository.py:305-317 | the two row locks never deadlock |
| `Idempotency.CacheIsInvisible` | src/orders/application/checkout_saga.py:187-318 | losing, evicting or failing any records along a run changes no answer and no order |
| `Idempotency.EveryAnswerIsRight` | src/orders/application/checkout_saga.py:281-318 | every answer of every run: a replay is the paid order still standing under that key and hash, a resumed order was pending and is that key's, dead means that key's order is cancelled, a mismatch that its hash differs |
| `Idempotency.AskIsRight` | src/orders/application/checkout_saga.py:281-318 | which answer is given is decided by the standing order: absent, other hash, pending, paid or cancelled, each exactly |
| `Idempotency.PendingIsResumed` | src/orders/application/checkout_saga.py:311-317 | a same-body call on a pending order always resumes it and becomes its driver, whatever the record store does |
| `Idempotency.TerminalAnswersWereSettled` | src/orders/application/checkout_saga.py:296-318 | dead, or a replay, is answered only after the run cancelled, or paid, that key's order |
| `Idempotency.DriversJoinPendingOrders` | src/orders/application/checkout_saga.py:311-317 | a frame starts driving only an order that is pending at that moment, under its own hash |
| `Idempotency.NewKeyGetsItsOrder` | src/orders/adapters/db/repository.py:173-248 | a new key gets one pending order with the caller's hash and lines, an id never used before, and its caller driving it |
| `Idempotency.RaceLoserIsAnswered` | src/orders/adapters/db/repository.py:173-248 | who loses the create race is answered from the winner's row, truthfully, and makes no second order |
| `Idempotency.FastPathAgrees` | src/orders/adapters/idempotency.py:35-71 | a cached record answers every request as the orders table would |
| `Idempotency.OneOrderPerKey` | src/orders/adapters/db/repository.py:173-248 | one (user, key) never yields two orders, and every record restates a paid order |
| `EventPipeline.NoEventLost` | src/shared/bus/relay.py:66-106 | every committed event at every subscription is unpublished, queued, dead-lettered or handled, in every run with crashes, failed publishes, lost leases, redrive and replay |
| `EventPipeline.StepKeeps` | scripts/dlq_replay.py:101-121 | a message disappears only when its event was handled there or a younger copy carries it |
| `EventPipeline.DoKeepsInv` | src/shared/bus/consumer.py:120-249 | every relay, consumer, queue and replay step keeps the pipeline invariant |
| `EventDelivery.DeliveryIsRight` | src/shared/bus/consumer.py:120-249 | a received message, nobody interfering, within five calls: leased elsewhere it is left; if the calls succeed a fresh event is handled, marked done and its message gone, a done one only loses its message; if they fail all is as it was, the lease included |
| `EventDelivery.BatchIsShipped` | src/shared/bus/relay.py:66-106 | a claimed batch, no publish refused: one step per delivery and one more, then every claimed row and no other is stamped and waits, newly sent, at every subscription |
| `EventDelivery.ReplayMoves` | scripts/dlq_replay.py:101-121 | a replay, nobody interfering, replaces the dead message by one queued copy and touches nothing else |
| `EventLeases.OverlapNeedsExpiry` | src/shared/bus/consumer.py:144-195 | two handler runs for one event at one subscription overlap only if the earlier lease ran out |
| `EventLeases.OnlyOwnerTouches` | src/shared/bus/consumer.py:61-78 | a lease leaves its marker only by expiring or by its own holder |
| `EventLeases.DoneOnlyExpires` | src/shared/bus/consumer.py:61-78 | a completion marker is never overwritten or removed, it only expires |
| `EventLeases.DeletedMeansHandled` | src/shared/bus/consumer.py:228-249 | a message is deleted only after a handler completed its event there, or by a replay whose copy stands in |
| `EventLeases.AtMostOneHandler` | src/shared/bus/consumer.py:144-159 | while no lease has run out, at most one worker handles an event at a subscription |
| `OutboxRelay.Relay.DrainSchema` | src/shared/bus/relay.py:66-106 | the claimed rows are stamped, all of them and all sent, unless one was refused, and then none; no other row changes |
| `OutboxRelay.Relay.DrainOnce` | src/shared/bus/relay.py:108-141 | each schema drains or is left alone on its own, only sent rows are stamped, the count is exactly what left the backlog, and the pass raises exactly when something failed and nothing shipped |
| `OutboxRelay.DrainProgress` | src/shared/bus/relay.py:71-80 | an unrefused pass ships exactly the batch, or all that is left |
| `OutboxRelay.ClaimIsOldest` | src/shared/bus/relay.py:74-76 | no claimed row is younger than an unpublished row left behind |
| `EventConsumer.Consumer.Process` | src/shared/bus/consumer.py:120-195 | completed events are acknowledged unhandled, leased ones left, fresh ones handled once and acknowledged only if the lease survived |
| `EventConsumer.Consumer.ProcessAndAck` | src/shared/bus/consumer.py:228-249 | deleted exactly when the delete works and the event was done before, or was fresh and its handler neither raised nor lost its lease |
| `EventConsumer.Consumer.PollOnce` | src/shared/bus/consumer.py:197-226 | `handled` is exactly the number of messages gone, each for an event whose handler completed; a message of an event already done is gone exactly if its delete works; one of a fresh event nobody else in the batch carries exactly if nothing goes wrong; everything outside the batch is still there |
| `DeadLetters.Replayer.ReplayQueue` | scripts/dlq_replay.py:88-125 | moves at most min(limit, depth) messages, exactly that many unless a receive comes back empty, oldest first, nothing lost and nothing made up |
| `DeadLetters.Replayer.ReplayAll` | scripts/dlq_replay.py:128-137 | one report entry per queue, each at most min(limit, depth) and exactly that unless one of its receives comes back empty; other queues untouched |
| `DeadLetters.MovedConserves` | scripts/dlq_replay.py:112-120 | a replay conserves the messages of the pair of queues |
| `ProductCache.CacheCoherence` | src/catalog/adapters/cache.py:36-81 | what is cached, or held by a filler that owns the lock, is current or has a newer update or delete not yet delivered once, or is a miss from before the creation |
| `ProductCache.QuiescentHitIsCurrent` | src/catalog/application/service.py:245-284 | once every invalidation arrived a hit equals the database, the pre-creation miss aside |
| `ProductCache.UndisturbedFillIsCurrent` | src/catalog/application/service.py:303-376 | a fill nobody disturbs, from any state with the lock free, caches the row as it stands and leaves the lock free |
| `ProductCache.OnlyTheirOwn` | src/catalog/adapters/cache.py:36-81 | an entry goes only by an invalidation, its expiry or rot, an owner's store or the eviction of exactly that entry; the lock only by an invalidation, its expiry or its owner's release |
| `ProductCache.MissOutlivesCreation` | src/catalog/adapters/cache.py:141-152 | the run that makes the exception real |
| `ProductFillLock.OnePromptFiller` | src/catalog/adapters/cache.py:8-20 | at every moment of every run at most one filler (a caller that won the lock) renewed in time and was not struck by an invalidation |
| `ProductFillLock.OneFillerAtTheServicePace` | src/catalog/application/service.py:171-187 | renewing at half the lifetime, the lock never lapses under an active filler: at most one filler was not struck by an invalidation, however long the loads take |
| `ProductFillLock.SecondFillerIff` | src/catalog/adapters/cache.py:45-53 | while the lock carries a filler's token, a second filler is let in exactly when a whole lifetime went by since its last renewal |
| `ProductFillLock.LostOnlyToAFiller` | src/catalog/adapters/cache.py:45-81 | unless a caller died with the lock, an election is lost only to one that is filling at that moment, never after it finished or an invalidation struck |
| `ProductFillLock.LateRenewalLetsASecondIn` | src/catalog/adapters/cache.py:45-53 | the run in which a late renewal lets a second filler in |
| `ProductFillWait.WaitBoundedByLostElections` | src/catalog/application/service.py:378-419 | in every run of any number of callers, each has waited at most one deadline and one poll for every election it lost |
| `ProductFillWait.EveryLossCanCostADeadline` | src/catalog/application/service.py:396-419 | for every number of elections there is a run that loses them all to rivals and waits out every deadline in full |
| `ProductFillWait.TotalWaitCappedIff` | src/catalog/application/service.py:388-393 | one wait caps the total if and only if at most one election is lost |
| `ProductFillWait.NoRivalNoLoss` | src/catalog/application/service.py:413-419 | a caller that saw the lock gone wins its next election unless a rival stands before it |
| `ProductCacheReader.Cache.FillHoldingLock` | src/catalog/application/service.py:344-376 | unless an invalidation strikes, the row is stored exactly when the renewals come within the lock's lifetime or the load does not outlast it |
| `ProductCacheReader.Cache.AwaitFill` | src/catalog/application/service.py:378-419 | the row itself is answered only past the deadline, or after an election won, which leaves the lock free and, unless an invalidation strikes, the row cached; any other answer was in the cache, or stored there, meanwhile; one wait ends within its deadline and one poll, and what follows within one more for every election lost again |
| `ProductCacheReader.Cache.ReadThrough` | src/catalog/application/service.py:303-342 | the winner fills and never leaves the lock behind; a caller loses at most one election for a held lock, one for every rival that takes a freed lock first and one for an evicted payload, and waits at most one deadline and one poll for each |
| `ProductCacheReader.Cache.GetProduct` | src/catalog/application/service.py:245-265 | always answers: a usable entry, else the row, or what a concurrent fill left; a cache fault costs only the cache; the time is the load plus one wait for every lost election, a single wait when no rival takes a freed lock first |
| `ProductCacheReader.Cache.Look` | src/catalog/application/service.py:267-284 | a payload that does not decode is evicted and never answers |
| `ProductCacheReader.RoundTrip` | src/catalog/application/service.py:267-284 | a stored row, a remembered 404 included, reads back as itself |
| `ImageKeys.UploadRoundTrip` | src/catalog/domain/image_keys.py:37-39 | an upload key parses back to its product and token |
| `ImageKeys.ParsedKeysHaveTheLayout` | src/catalog/domain/image_keys.py:86-100 | nothing else is accepted |
| `ImageKeys.RenditionsOf` | src/catalog/domain/image_keys.py:62-83 | the derived renditions are the main key and the two thumbnail keys the worker writes |
| `ImageKeys.RenditionsDisjoint` | src/catalog/domain/image_keys.py:62-83 | two main keys with a rendition in common are one key |
| `ImageLifecycle.LiveImageNeverReclaimed` | src/catalog/application/image_ingest.py:161-202 | in every run every rendition of a live product's image exists |
| `ImageLifecycle.RetiredNeverServedAgain` | src/catalog/application/image_ingest.py:234-260 | an image queued for reclaim is never served again |
| `ImageLifecycle.DoKeepsInv` | src/catalog/adapters/db/repository.py:239-525 | presign, flip, fail, expire, delete, schedule and drain each keep the image invariant |
| `ImageProgress.UploadGoesLive` | src/catalog/application/image_ingest.py:108-260 | an upload event, handled undisturbed in one step per rendition and at most three more: the awaited image goes live with all its renditions and the one it replaces is queued; any other leaves the product alone and is queued unless it is the one served |
| `ImageProgress.DrainedIsGone` | src/catalog/application/image_ingest.py:305-339 | a claimed reclaim, drained undisturbed, leaves none of the image's files and no task |
| `ImageProgress.WaitEndsOnlyByItsOwn` | src/catalog/adapters/db/repository.py:239-525 | a product waits for its upload until that upload goes live, fails, expires or is superseded, or the product is deleted; no other upload's end takes the wait away, and its own failure leaves what is served |
| `ImageReclaimer.Reclaimer.DrainReclaims` | src/catalog/application/image_ingest.py:305-339 | only renditions of leased, non-live tasks go; a failed delete keeps its request; what is finished is live or gone |
| `UnitOfWork.Session.Exec` | src/shared/db/unit_of_work.py:89-118 | execution with the shared depth and savepoints yields exactly the meaning of the nested blocks, and restores the depth |
| `UnitOfWork.Session.Block` | src/shared/db/unit_of_work.py:100-118 | the outermost block commits or drops everything open; a deeper one adds its writes or none |
| `UnitOfWork.OutermostIsAllOrNothing` | src/shared/db/unit_of_work.py:110-118 | the database sees all of a use-case's writes or none |
| `UnitOfWork.CalmBlockLandsEverything` | src/shared/db/unit_of_work.py:100-118 | without a raise one block commits every write named in it, and each key reads as the last of them says |
| `UnitOfWork.LastWriteReads` | src/shared/db/unit_of_work.py:100-118 | a key reads as its last write |
| `UnitOfWork.OthersReadAsBefore` | src/shared/db/unit_of_work.py:100-118 | a key nobody wrote reads as before |
| `UnitOfWork.FailedBlockDropsOnlyItsOwn` | src/shared/db/unit_of_work.py:104-109 | a caught failure of an inner block costs only that block's writes |
| `UnitOfWork.NestingIsInvisible` | src/shared/db/unit_of_work.py:21-29 | without a raise, nesting changes nothing |
| `UnitOfWork.CommittedOnlyByBlocks` | src/shared/db/unit_of_work.py:115-118 | outside any block writes only accumulate: nothing commits without a block |
| `CircuitBreaker.NeverWedges` | src/shared/resilience.py:128-184 | the counter is at most one and at most the probes in flight, so with no probe in flight after the window a call is admitted |
| `CircuitBreaker.OpensExactlyOnAStreak` | src/shared/resilience.py:155-167 | a breaker that has just closed stays closed along a run exactly as long as no `threshold` recorded faults come in a row; cancelled calls and admissions do not count |
| `CircuitBreaker.OpenForAWindow` | src/shared/resilience.py:128-141 | once open it admits nothing for a whole window, whatever stragglers record |
| `CircuitBreaker.OneProbeWithoutStragglers` | src/shared/resilience.py:137-141 | if no straggler records into a half-open breaker, at most one probe is in flight |
| `CircuitBreaker.TwoProbesAfterAStraggler` | src/shared/resilience.py:143-179 | the run that leaves two probes with no straggler outstanding |
| `CircuitBreaker.TwoProbesIffCounterBelowZero` | src/shared/resilience.py:128-184 | from every reachable open breaker whose window has elapsed, a half-open epoch free of stragglers can hold two probes if and only if the counter stood at minus one on entry |
| `CircuitBreaker.EpochBound` | src/shared/resilience.py:128-184 | an epoch entered with the counter at p has at most 1 - p probes in flight, whatever its calls do |
| `ResilientGateway.Gateway.Resilient` | src/payments/adapters/resilient_gateway.py:115-163 | refused exactly by the breaker's gate; an admitted call records one outcome, a fault exactly when its last attempt was still transient, an answer for a value or a definitive refusal, an abandonment when shed or cancelled; and returns its permit |
| `ResilientGateway.Gateway.RecordOutcome` | src/shared/resilience.py:143-184 | the field updates are the breaker's transition |
| `ResilientGateway.Gateway.RetryTransient` | src/shared/resilience.py:321-332 | stops at the first answer that is not transient, or when the attempts run out |
| `ResilientGateway.RetriesAreBounded` | src/shared/resilience.py:302-332 | never more attempts than allowed, and only transient faults are retried |
| `ConcurrencyBudget.AtMostLimitInFlight` | src/shared/resilience.py:218-226 | with clocks within d of each other, at most `limit` calls younger than ttl - d are in flight, each still holding its permit |
| `ConcurrencyBudget.YoungKeepsPermit` | src/shared/resilience.py:252-299 | neither reaping nor the key's expiry takes a young call's permit |
| `ConcurrencyBudget.RefusedOnlyWhenFull` | src/shared/resilience.py:218-226 | if no release is lost a caller is refused only while `limit` calls or more are in flight |
| `ConcurrencyBudget.HealsItself` | src/shared/resilience.py:210-226 | whatever releases were lost, after a lifetime and the clock spread with nobody asking the next caller is admitted |
| `ConcurrencyBudget.OldCallsCanLoseTheirPermits` | src/shared/resilience.py:218-226 | for every limit: at age ttl - d all permits can be reaped at once and limit + 1 calls run |
| `Keyset.WalkIsTheSortedTable` | src/shared/db/pagination.py:138-177 | the pages of a fixed table concatenate to exactly the sorted table, ties included |
| `Keyset.RoamIsSound` | src/shared/db/pagination.py:138-177 | with rows inserted and deleted between pages none appears twice and every row present throughout appears |
| `Keyset.FetchIsPrefix` | src/shared/db/pagination.py:166-177 | a page is the first `limit` rows past the cursor and points on exactly when more remain |
| `CartProjection.Converges` | src/cart/domain/cart.py:46-61 | the same events in any order and multiplicity, one of them versioned or a deletion, give the same view |
| `CartProjection.NewestWins` | src/cart/domain/cart.py:46-61 | the highest version's payload wins whatever comes between |
| `CartProjection.DeletionWins` | src/cart/ports/repository.py:84-104 | a tombstone absorbs everything |
| `CartProjection.ScriptIsTheGate` | src/cart/adapters/valkey/repository.py:215-225 | the projection script and the domain predicate are the same gate |
| `CartProjection.LastVersionlessWins` | src/cart/domain/cart.py:57-58 | version-less events alone end at the last one delivered |
| `TraceContext.RoundTrip` | src/shared/bus/tracecontext.py:43-66 | for every text, parsing what was formatted gives the normalised id exactly when that id is not all zero, which only an all-zero random draw can cause |
| `TraceContext.NormalisedIsValid` | src/shared/bus/tracecontext.py:28-40 | 32 lower-case hex digits, not all zero, given such a fallback |
| `TraceContext.NormaliseIsIdempotent` | src/shared/bus/tracecontext.py:28-40 | normalising twice is normalising once |
| `TraceContext.DigitsSurvive` | src/shared/bus/tracecontext.py:36-37 | the hex digits of the input are the prefix of its id |
| `TraceContext.ValidIdIsFixed` | src/shared/bus/tracecontext.py:28-40 | valid ids are fixed points |

## Left out

- HTTP routes, schemas, problem details, settings, metrics, container wiring: plumbing.
- Token, JWKS and HMAC verification, the card-number shape check, log redaction: a webhook is taken as verified.
- Image processing, S3, SNS, SQS, Keycloak and mail clients: only their visible effect is modelled.
- Basket consumption and the replay mop-up: two frames that both end at paid each consume the basket, so there is no exactly-once law to prove.
- Price revalidation before an order exists: one comparison per line.
- The `shipped` status: no code sets it.
- Wall-clock liveness: timeouts are choices of the environment and nothing is claimed about when they end.
- `ReservationContendedError` and the row locks of a batch reserve: the batch is one atomic step here, so lock waits and uniqueness churn are not visible.
- `InventoryService.Service.ReserveMany`: whether returning through the savepoint keeps what was placed is a parameter; SQLAlchemy's session, which decides it, is not modelled.
- `InventoryService.Service.UpsertStock`: follows the port. The adapter's `upsert_stock` takes no expected version, which the service always passes (src/inventory/application/service.py:115, src/inventory/adapters/db/repository.py:238), so the two do not fit together as written; the ownership gate before the call is left out as well.
- `InventoryService.Service.ReleaseExpired`: which due rows a reaper claims first is left open; row locks between reapers are not modelled.
- `PaymentsService.Service.HandleWebhook`: signature, timestamp and body parsing are left out; the notification is taken as verified, true or not.
- `PaymentsService.Service.Reconcile`: the age windows that pick the candidates are parameters.
- `Payments.PaymentLedger`: the provider remembers its decision for ever; the stub's deferred-charge record expires after an hour.
- `RecoveryPoller.Poller.RecoverStuck`: an order whose settlement raises midway is not a case of this loop; every such partial settlement is a run of the checkout protocol (a `Fail` or `Crash` step), where all the safety results apply.
- `CheckoutAlone.DriveIsRight`: the runs it speaks of have one actor at work; what survives every interleaving is in `CheckoutSafety`, `CheckoutExclusion` and `CheckoutMoney`.
- `Recovery.PassIsIdempotent`: speaks of a pass no live drive or settlement disturbs.
- `EventPipeline.NoEventLost`: queue retention is unbounded here, so expiry of a message in SQS is outside the model.
- `DeadLetters.Replayer.ReplayQueue`: crashes between send and delete are in `EventPipeline`, not in this loop.
- `EventConsumer.Consumer.PollOnce`: the messages of a batch are taken one after another; their concurrent interleavings are in `EventPipeline`.
- `OutboxRelay.Relay.PublishAll`: the publishes of a batch go out one after another instead of concurrently.
- `ProductCacheReader.Cache.GetProduct`: what other callers do between a caller's calls is given event by event; while it fills, the only interference is one invalidation (`ProductFillLock` and `ProductCache` have the rest), the value key's own lifetime is left to `ProductCache`, and a repository fault, which surfaces as itself, is left out.
- `ProductFillWait.WaitBoundedByLostElections`: counts sleeps only; a call to the cache takes no time.
- `ProductFillLock.OnePromptFiller`: counts fillers; a waiter past its deadline and a caller whose cache is down read the database without the lock and store nothing.
- `ProductCacheReader.RoundTrip`: a payload is its meaning, not its JSON text.
- `ImageKeys.ParsedKeysHaveTheLayout`: product ids are accepted in their canonical spelling only; the other spellings Python's UUID parser takes are not modelled.
- `ImageLifecycle.LiveImageNeverReclaimed`: image keys set by hand instead of by the worker are outside the model.
- `TraceContext.RoundTrip`: lower-casing is that of ASCII letters; no other character lower-cases to a hex digit.
- `ConcurrencyBudget.AtMostLimitInFlight`: counts calls whose permit the store granted; a store fault grants a synthetic permit outside the bound.
- Cart lines, quantities and caps, and how a line is reconciled with the projection on read: easy members beside the projection's convergence.
- Retention pruning, demo seeding, migrations, load tests, mail themes.

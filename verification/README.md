# A verified model of the shop backend's commerce protocol

The backend takes orders with idempotency keys, moves orders, payments and stock
through verification, rejection, expiry and cancellation, and turns every change into
notifications through a transactional outbox, a message broker and two kinds of
workers. All of this runs concurrently: requests and workers interleave between
database queries, crash, retry, and share a clock. This project models that protocol
in Dafny and proves what it guarantees on every run.

Check it with `dafny verify dfyconfig.toml`.

## How the model is built

Each protocol is an action-labelled state machine (`Allowed`, `Step`, `AllowedRun`,
`Run`). One standalone query, one `$transaction` or one broker operation is one action;
a conditional update whose WHERE clause misses changes nothing. Clock readings are
arguments taken earlier and never ahead of the present. Fields such as `births`,
`commits`, `accepted`, `tries`, `log` or an order's status log only remember the past so
that theorems can speak about it; no action consults them to decide what to write
(they only keep fresh identifiers fresh).

The source's service and worker classes are Dafny classes. Their methods follow the
code query by query. `Yield` (or `Wait`) stands between two queries and lets everybody
else act; `Faults` is a query that may fail. Two kinds of contract are proved for
them: `Advanced` says that whatever ran in between, the state got here by a run of the
machine, so that every theorem about runs applies; the clauses under `quiet` give the
complete result of an execution without interference and failures. Ghost
fields such as `placed`, `answers`, `attempts`, `published`, `answered`, `deleted` or
`failures` log what an object did and met with, so that contracts can say how often and
why under interference too.

- `Idempotency`, `AtMostOnce`, `Holders`, `IdempotencyService`: reservation rows with fence
  tokens, and who holds them.
- `Inventory`, `Pricing`, `Sums`: stock arithmetic, prices, vouchers, sums over rows.
- `Shop`, `ShopServices`, `PaymentLifecycle`: orders, payments, stock, vouchers, tokens,
  reminders, and the services that move them.
- `StockLedger`, `PaymentLedger`, `EventLedger`, `OrderQuote`: what every run of the shop
  keeps, counted from its rows and events, and what an order charges.
- `World`, `Checkout`: reservations and shop together, and checkout end to end.
- `LeaseQueue`, `Waiting`, `Backoff`, `QueueWorkers`, `Breaker`, `NotificationSender`: the
  lease-stamped queues (OutboxEvent and NotificationOutbox) and their two workers.
- `Consumer`, `NotificationConsumer`, `Pipeline`: broker queues, dedup, dead letters,
  and the relay and a consumer as one system.
- `EndToEnd`: all of it as one machine, from a payment's transaction to the mail about it.
- `Retention`, `Redrive`: deletion windows and recovery tooling, composed with the above.
- `Sorting`, `CanonicalJson`, `CartFingerprint`: what the request fingerprint tells apart.

## What came out

Properties that hold on every run, those that need a hypothesis, and those that fail
were kept apart. Where the code does not promise what its documentation says, the
model follows the code:

- `claim` compares and swaps, then re-reads in a second query, so two requests can leave
  with the same fence token (`Holders.TwoClaimsCanShareAToken`); a claimant leaves with its
  own exactly when no other claim wins in between (`Holders.RereadIsOwnIff`). At most one
  order per key still holds: it rests on the guard inside `finalize` (`Holders.OneHolderCommits`).
- A legacy PROCESSING row without `ownershipAcquiredAt` is judged reclaimable by age of
  `createdAt`, as the comment at idempotency.service.ts:216-221 announces, but the claim's
  `lt` comparison never matches a null column, so it is never reclaimed: the claim
  succeeds exactly on the rows that have the time (`AtMostOnce.ReclaimSucceedsIff`,
  `AtMostOnce.LegacyRowBlocksItsKey`).
- Stock is conserved exactly on the runs in which no verification and no status update
  takes an order out of CANCELLED; such a run exists and invents stock
  (`StockLedger.ConservedIffNeverReactivated`, `StockLedger.CancelledTwice`).
- Rows are marked by id without a lease check: a worker that stalls past its lease can
  turn PUBLISHED or SENT into FAILED (`LeaseQueue.StaleWorkerFailsADoneRow`), and
  `LeaseQueue.DoneIsLostIff` says exactly when.
- A stalled worker's late mark can also end another worker's backoff early
  (`Waiting.StaleMarkEndsBackoffEarly`); without such a mark it is waited, and within leases
  there is none (`Waiting.BackoffIsWaited`, `Waiting.NextClaimWaits`).
- A percentage voucher above 100 makes totals negative, with one family of exceptions
  (`Pricing.NeverNegativeIffSafe`).
- The fingerprint ignores the order of items exactly when items the comparator ties are
  equal. Quantity is not compared, so two lines of one product in different quantities
  make the order visible (`CartFingerprint.OrderIsForgottenIff`,
  `CartFingerprint.SplitLinesBetrayOrder`). The payment method is not part of it.
- The dead-letter dry run puts each message back before it gets the next, so it inspects
  the oldest message over and over; its count is right exactly for an empty queue and for
  one that reaches the limit (`Redrive.DryRunCountsIff`, `Redrive.DryRunOvercounts`).

## Model

| member | source | states |
|---|---|---|
| AtMostOnce.OneOrderPerReservation | src/infrastructure/idempotency/idempotency.service.ts:83-264 | over every interleaving of inserts, reclaims, finalizes, failures and sweeps, two orders committed under keys belong to different rows; if they share user and key, the first row had outlived its last acquisition by the retention time and was swept before the second was inserted |
| AtMostOnce.CommittedIffCompleted | src/infrastructure/idempotency/idempotency.service.ts:128-152 | in every reachable state a row is COMPLETED if and only if an order was committed under it, exactly one, and its stored answer is that commit's |
| AtMostOnce.OneAnswerUntilSwept | src/infrastructure/idempotency/idempotency.service.ts:171-214 | a committed row never changes until it is swept, is the only row of its key, and every later request is answered with that commit, or with a mismatch if its fingerprint differs |
| AtMostOnce.OwnersHaveTheirTime | src/infrastructure/idempotency/idempotency.service.ts:216-260 | on every run: after an insert or claim of a row at clock reading a, no later claim takes it as stuck unless its request read a clock later than a + reclaimMs |
| AtMostOnce.OnlyItsOwnerEndsIt | src/infrastructure/idempotency/idempotency.service.ts:128-168 | a PROCESSING row changes only by a finalize or failure carrying its fence token, or by a claim of an overdue owner; a superseded caller changes nothing |
| AtMostOnce.ItsOwnerCanEndIt | src/infrastructure/idempotency/idempotency.service.ts:128-168 | the fence owner's finalize completes the row with exactly its answer, and its failure makes the key claimable at once |
| AtMostOnce.KeysExpire | src/infrastructure/lifecycle/retention.worker.ts:115-116 | on every run, a retention period from now every row there is may be swept |
| Holders.RereadIsOwnIff | src/infrastructure/idempotency/idempotency.service.ts:245-263 | with the compare-and-swap and the re-read as separate steps: a winning claim leaves with the token it wrote, expected + 1, if and only if no other claim of the row wins between the two; otherwise with a larger one |
| Holders.TwoClaimsCanShareAToken | src/infrastructure/idempotency/idempotency.service.ts:245-263 | a run in which two requests hold the same row under the same token, and the row still accepts that token |
| Holders.OneHolderCommits | src/infrastructure/idempotency/idempotency.service.ts:128-152 | on every run, of all requests holding a row, under whatever tokens, at most one commits an order |
| AtMostOnce.SweepSafeIffReclaimWithinRetention | src/infrastructure/lifecycle/retention.worker.ts:115-116 | sweeping removes only PROCESSING rows that were already reclaimable, in every reachable state, if and only if reclaimMs is at most retentionMs |
| AtMostOnce.ReclaimSucceedsIff | src/infrastructure/idempotency/idempotency.service.ts:216-264 | a stuck row judged reclaimable can be claimed if and only if it has an acquisition time |
| AtMostOnce.LegacyRowBlocksItsKey | src/infrastructure/idempotency/idempotency.service.ts:216-264 | a starting table with a legacy row that is judged reclaimable and that no claim changes |
| AtMostOnce.LegacyRowIsNeverReclaimed | src/infrastructure/idempotency/idempotency.service.ts:216-264 | a PROCESSING row with a null acquisition time keeps its exact contents on every run that does not finalize or fail it, until it is swept |
| Idempotency.StepKeepsInv | src/infrastructure/idempotency/idempotency.service.ts:83-264 | each query keeps keys unique, fences positive, answers tied to commits, and reused keys a retention apart |
| Idempotency.RunIsLater | src/infrastructure/idempotency/idempotency.service.ts:228-264 | along every run fence tokens never decrease, fingerprints never change, COMPLETED rows are frozen, and swept rows never come back |
| IdempotencyService.Service.Begin | src/infrastructure/idempotency/idempotency.service.ts:83-120 | every answer of begin is justified by the table: a reservation of this request whose token the row carries at that moment, a committed answer of the same request, or a different fingerprint under the key; undisturbed, which answer is read off the key's row by status, fingerprint and acquisition time, and proceeding leaves a PROCESSING row acquired now, under the returned token |
| IdempotencyService.Service.HandleExisting | src/infrastructure/idempotency/idempotency.service.ts:187-214 | replay, mismatch, busy or a claim, each only where the row allows it, and a claim only with the token the row carries; a lost claim reports nothing |
| IdempotencyService.SecondBeginWaits | src/infrastructure/idempotency/idempotency.service.ts:187-264 | two undisturbed begins of one request with no time in between never both proceed: the second is told to wait, and any other answer is given again |
| IdempotencyService.Service.ClaimRow | src/infrastructure/idempotency/idempotency.service.ts:228-264 | a won claim returns the row as re-read, with a token above the expected one; undisturbed, it wins exactly on a FAILED or overdue row, which is then PROCESSING, one fence further, and acquired now |
| IdempotencyService.Service.FinalizeInTx | src/infrastructure/idempotency/idempotency.service.ts:128-152 | completes the row if and only if the caller still owns it with its token; otherwise the transaction's copy is unchanged |
| IdempotencyService.Service.MarkFailed | src/infrastructure/idempotency/idempotency.service.ts:154-168 | frees the key only for the owner of the token, and only if the write gets through |
| IdempotencyService.Service.ResolveAfterSupersession | src/infrastructure/idempotency/idempotency.service.ts:171-185 | replays only a committed answer of the key, otherwise still in progress |
| World.KeyedOrdersHappenOnce | src/modules/orders/orders.service.ts:396-546 | on every run of reservations and shop together, two keyed orders come from different reservations, each answer names an existing order of the key's user as it was created, and orders of one key are a retention apart |
| World.RunIsRunOfParts | src/modules/orders/orders.service.ts:396-546 | every joint run projects to a run of the reservation table and a run of the shop, so theorems about the parts hold of the whole |
| Checkout.OrdersService.PersistOrderOnce | src/modules/orders/orders.service.ts:396-546 | one all-or-nothing transaction: the world either stays or takes the whole order step with finalize in it, and writes exactly one order.created event naming the order, or none with no order; committed exactly when stock, voucher, toppings and the fence allow it, when undisturbed |
| Checkout.OrdersService.PersistOrderWithRetry | src/modules/orders/orders.service.ts:381-394 | up to three attempts, and all three before a taken order number is reported; at most one order is added to the shop, and exactly the returned one on success; undisturbed, the world is one checkout step further |
| Checkout.OrdersService.CheckoutWithKey | src/modules/orders/orders.service.ts:278-308 | whatever interferes and fails, the call adds at most one order to the shop, and a fresh result is it; a lost reservation is answered by the winner or as in progress, an error as failed; a replay is the answer of the row begin saw; undisturbed, the exact result and final world by the row's state |
| Checkout.RetryIsAnswered | src/modules/orders/orders.service.ts:278-308 | undisturbed, a retry of a request after a fresh order replays exactly that answer and writes nothing, after a failure it is a new attempt, and any other answer is given again |
| Checkout.ReplayShowsTheOrder | src/modules/orders/orders.service.ts:278-334 | a replay has status 201, names the commit's order and shows it as created or, when rehydrating, as it is now |
| Checkout.OrdersService.Checkout | src/modules/orders/orders.service.ts:270-276 | without a key, or with the feature off, the plain order transaction, its result and its world; with one, as above |
| Inventory.Decrement | src/modules/orders/orders.service.ts:404-417 | takes each product's total over all lines, or fails exactly when some product is short |
| Inventory.Restock | src/modules/orders/order-cancellation.service.ts:49-58 | the one-pass accumulation adds, for every product, its total over all lines |
| Inventory.RestockInvertsCheckout | src/modules/orders/order-cancellation.service.ts:49-58 | restocking after the checkout decrement restores every product's stock, for any repeated or reordered lines |
| StockLedger.StockIsAccountedFor | src/modules/orders/order-cancellation.service.ts:18-58 | on every run stock equals the initial stock less ordered quantities plus, per order, restocks times quantity, and is never negative |
| StockLedger.ConservedIffNeverReactivated | src/modules/admin/admin.service.ts:281-287 | shelf stock plus live orders add up to the initial stock for every product along a run if and only if no step takes an order out of CANCELLED |
| StockLedger.RestockedOnceIffCancelled | src/modules/orders/order-cancellation.service.ts:18-47 | on runs without such a step an order was restocked once if it is cancelled and never otherwise |
| StockLedger.CancelledTwice | src/modules/admin/admin.service.ts:250-305 | a concrete run: cancel, put back to PROCESSING, cancel again; stock rises from 5 to 7 |
| PaymentLedger.BooksBalance | src/modules/admin/admin.service.ts:322-442 | on every run of verify, reject, expire, receipts, reminders and sweeps: one terminal event per terminal status (and audit row for PAID), tokens issued equal checkout plus reminders, used tokens equal by-token receipt events, no early expiry, voucher counters equal usage rows within the maximum and one usage per user |
| PaymentLedger.OneTerminalEvent | src/modules/payments/payment-lifecycle.worker.ts:126-163 | for each payment the paid, failed and expired events number exactly one with the matching name in a terminal status and zero before; COD never expires, nor GATEWAY with window 0; at most three tokens |
| PaymentLedger.TerminalIsFinal | src/modules/payments/payments.service.ts:46-80 | PAID, FAILED and EXPIRED payments never change again, get no token and have none consumed |
| EventLedger.EventsTellTheStory | src/modules/orders/orders.service.ts:519-539 | on every run each order has exactly one order.created event, its status log starts at PENDING, ends at its status and has one entry per status event, and payments have a receipt or an approver exactly when the outbox says so |
| EventLedger.TimesAreKept | src/modules/payments/payment-lifecycle.worker.ts:92-256 | on every run upload tokens live three days from the checkout or reminder that issued them, are used before and swept after that, and nothing expires and nobody is reminded before the configured delay of the method or stage |
| EventLedger.CancelsAreInTime | src/modules/orders/order-cancellation.service.ts:18-47 | on every run orders are cancelled only from PENDING, PROCESSING, PACKING, SHIPPED or DELIVERING |
| PaymentLedger.StepKeepsExpiry | src/modules/payments/payment-lifecycle.worker.ts:92-163 | no payment.expired event is ever earlier than its own method's window |
| PaymentLedger.StepKeepsVouchers | src/modules/orders/orders.service.ts:477-494 | each step keeps currentUsageCount equal to the initial count plus usage rows, within the maximum, one usage per user, although availability was a stale read |
| PaymentLedger.ReconcilesIffReadsAgree | src/modules/orders/orders.service.ts:419-457 | a committed order's total is the sum over its stored lines plus fee minus discount if and only if both catalogue reads price the cart alike |
| PaymentLedger.MoneyReconciles | src/modules/orders/orders.service.ts:126-180 | on runs with agreeing reads and safe vouchers every payment amount is that sum and not negative |
| Pricing.NeverNegativeIffSafe | src/modules/orders/orders.service.ts:126-148 | a voucher keeps every total non-negative if and only if its percentage is at most 100 or its cap is low enough against its minimum order |
| OrderQuote.OrderIsAsQuoted | src/modules/orders/orders.service.ts:126-180 | a committed order holds the cart's lines at the first read's prices and charges the cart's cost at the second plus shipping, less exactly what its kind of voucher promises: free shipping up to a maximum, a rounded-down percentage up to a cap, or a fixed amount up to the subtotal |
| OrderQuote.CommitsIff | src/modules/orders/orders.service.ts:396-546 | checkout commits if and only if every line is orderable, each product's total over the cart is in stock, and the voucher has uses left, is new to the user and its minimum is reached |
| Pricing.StoredTotalIsSubtotal | src/modules/orders/orders.service.ts:158-180 | the sum over stored order items equals the cart's subtotal |
| Pricing.SubtotalIgnoresOrder | src/modules/orders/orders.service.ts:158-180 | the subtotal is unchanged by permuting lines |
| Pricing.SubtotalIgnoresSplitting | src/modules/orders/orders.service.ts:158-180 | the subtotal is unchanged by splitting one line's quantity over two lines |
| ShopServices.CancelInTx | src/modules/orders/order-cancellation.service.ts:18-47 | cancels and restocks exactly when the order's status is cancellable, and says so |
| ShopServices.AdminService.VerifyPayment | src/modules/admin/admin.service.ts:322-393 | done, replayed, conflict or not found, each justified by the final state; undisturbed, exactly the verification transaction |
| ShopServices.AdminService.RejectPayment | src/modules/admin/admin.service.ts:395-442 | the same for rejection, with restock |
| ShopServices.AdminService.UpdateOrderStatus | src/modules/admin/admin.service.ts:250-305 | CANCELLED goes through the guarded restock, any other status is written unguarded |
| ShopServices.PaymentsService.UploadManualReceipt | src/modules/payments/payments.service.ts:24-80 | a receipt moves an eligible payment of its owner and writes one event, or conflicts |
| ShopServices.PaymentsService.SubmitReceiptByToken | src/modules/payments/payments.service.ts:116-127 | token and receipt go through together or not at all |
| PaymentLifecycle.TakeOldest | src/modules/payments/payment-lifecycle.worker.ts:98-112 | the oldest matching rows up to the limit, all of them when they fit |
| PaymentLifecycle.LifecycleWorker.RunExpiry | src/modules/payments/payment-lifecycle.worker.ts:98-124 | undisturbed and with candidates fitting the batch, expires exactly the payments due by their own method's window (the coarse query misses none) and returns their number; always at most the batch |
| PaymentLifecycle.LifecycleWorker.ExpirePayment | src/modules/payments/payment-lifecycle.worker.ts:126-163 | a lost race or failed transaction expires nothing; otherwise payment, order, stock and event in one step |
| PaymentLifecycle.LifecycleWorker.SendReminder | src/modules/payments/payment-lifecycle.worker.ts:204-256 | sends exactly when the payment is eligible and the slot free, filling the slot, issuing the token and writing the event together |
| PaymentLifecycle.LifecycleWorker.RunReminders | src/modules/payments/payment-lifecycle.worker.ts:167-202 | undisturbed, if each stage's due payments fit the batch, exactly those are reminded, the second stage as the first pass left them, and the result is their number |
| LeaseQueue.DoneMeansAccepted | src/infrastructure/outbox/outbox-relay.worker.ts:134-175 | on every run, stalls included, PUBLISHED (SENT) rows were confirmed by the broker (accepted by the provider under the row's id) and PENDING rows have attempts left |
| LeaseQueue.DoneIsLostIff | src/infrastructure/outbox/outbox-relay.worker.ts:170-199 | a delivered row stops being delivered if and only if a claim still listing it writes a refusal or a failure at the attempts cap |
| LeaseQueue.LeasesExclude | src/infrastructure/outbox/outbox-relay.worker.ts:108-199 | while claimed rows are handled within their leases no row is in two unhandled batches, delivered rows stay delivered until swept, and FAILED means refused for good or attempts used up |
| LeaseQueue.StaleWorkerFailsADoneRow | src/infrastructure/notifications/notification-sender.worker.ts:159-205 | a run past a lease in which a delivered row ends FAILED |
| LeaseQueue.TriesAreBounded | src/infrastructure/outbox/outbox-relay.worker.ts:177-199 | within leases a row is delivered between redrives at most maxAttempts times, plus once for every delivery whose failure was never recorded because its worker crashed or lost the write |
| Waiting.BackoffIsWaited | src/infrastructure/outbox/outbox-relay.worker.ts:108-132 | on every run a row rescheduled at clock c with delay d is claimed by no worker whose clock reads below c + d, until somebody marks or redrives it again |
| Waiting.NextClaimWaits | src/infrastructure/outbox/outbox-relay.worker.ts:177-206 | where rows were handled within their leases nobody else can mark it, so the next claim waits for the backoff's end, or follows a redrive |
| Waiting.StaleMarkEndsBackoffEarly | src/infrastructure/outbox/outbox-relay.worker.ts:177-199 | a run past a lease in which a row rescheduled by a thousand milliseconds is claimable at once, though nobody redrove it |
| Waiting.LeaseIsWaited | src/infrastructure/notifications/notification-sender.worker.ts:106-127 | and a claimed, unmarked row is claimed by no worker whose clock has not passed its lease |
| Waiting.RedrivenRowIsClaimable | src/infrastructure/lifecycle/redrive.service.ts:77-111 | a redriven row can be claimed at once and has all its attempts again |
| Backoff.RetrySeriesIsBounded | src/infrastructure/outbox/outbox-relay.worker.ts:201-206 | for maxAttempts of at least 2 the summed jittered backoff is below (max - 1) * cap and below base * (2^(max-1) - 1) |
| Backoff.DelayIsBelow | src/infrastructure/notifications/notification-sender.worker.ts:207-212 | one delay lies in [0, min(cap, base * 2^(attempts-1))) |
| Backoff.EveryDelayIsDrawn | src/infrastructure/notifications/notification-sender.worker.ts:207-212 | every delay in that interval is some draw's: full jitter |
| QueueWorkers.Database.ClaimBatch | src/infrastructure/outbox/outbox-relay.worker.ts:108-132 | the batch comes back in order; undisturbed, of the rows that are PENDING, due and under no running lease, the first min(number, limit) by the worker's column are stamped with a fresh token and read as they were, and nothing else changes |
| QueueWorkers.OutboxRelayWorker.PublishRow | src/infrastructure/outbox/outbox-relay.worker.ts:134-160 | published once; a confirmed row is marked PUBLISHED, an unconfirmed one or a lost mark is rescheduled within the backoff, in the row as it then is; a lost reschedule ends the tick |
| QueueWorkers.OutboxRelayWorker.ProcessBatch | src/infrastructure/outbox/outbox-relay.worker.ts:99-106 | the batch is published in order, each row once and by the broker's answers as recorded; undisturbed, it is the first claimable rows, each marked by its answer and tried once more, and every other row is untouched |
| Breaker.TripsIff | src/infrastructure/notifications/notification-sender.worker.ts:215-234 | by history alone: an event trips the breaker if and only if it is a non-permanent failure, the failures since the last success reach the threshold, and every trip since then is at least pauseMs ago |
| Breaker.PausedIff | src/infrastructure/notifications/notification-sender.worker.ts:75-95 | the sender is paused if and only if some trip since the last success is less than pauseMs ago |
| Breaker.NoBatchDuringPause | src/infrastructure/notifications/notification-sender.worker.ts:75-95 | no batch starts within pauseMs of a trip unless a success came in between |
| NotificationSender.NotificationSenderWorker.SendRow | src/infrastructure/notifications/notification-sender.worker.ts:129-152 | sent once; the outcome written is the provider's answer, or a rescheduling within the backoff if the mark was lost; the breaker's history grows by what was written, and a lost reschedule ends the batch |
| NotificationSender.NotificationSenderWorker.TripBreaker | src/infrastructure/notifications/notification-sender.worker.ts:219-226 | adds one failure to the history the two fields replay |
| NotificationSender.NotificationSenderWorker.ResetBreaker | src/infrastructure/notifications/notification-sender.worker.ts:228-234 | adds one success to the history, although the fields are written only if one was set |
| NotificationSender.NotificationSenderWorker.RunTick | src/infrastructure/notifications/notification-sender.worker.ts:75-104 | a paused sender does nothing; otherwise the first claimable rows in order are delivered once each and the history grows by the batch and its sends; the breaker's fields stay the replay of a well-timed history |
| Consumer.OneNotificationPerWindow | src/infrastructure/consumers/order-created-notification.consumer.ts:156-203 | on every run of re-publishes, redeliveries, retries and redrives two notifications for one event are more than the ProcessedEvent window apart |
| Consumer.WindowIsTight | src/infrastructure/lifecycle/retention.worker.ts:110-111 | a run with two notifications for one event exactly one millisecond more than the window apart |
| Consumer.NoMessageIsLost | src/infrastructure/consumers/order-created-notification.consumer.ts:110-225 | on every run each routed message is in main, retry or dead-letter queue or in hand, or was acked after its event was enqueued or skipped, or after a confirmed copy that is itself accounted for |
| Consumer.TripsAreBounded | src/infrastructure/consumers/order-created-notification.consumer.ts:274-278 | if each retry trip raises the death count, a message passes the retry queue at most maxAttempts times over all its copies, after which a poison verdict leaves only the dead-letter queue |
| Consumer.NoEarlyDeadLetter | src/infrastructure/consumers/order-created-notification.consumer.ts:139-147 | on every run only malformed messages and those with all retries used up are in the dead-letter queue |
| Consumer.PoisonEndsInTheDlq | src/infrastructure/consumers/order-created-notification.consumer.ts:110-225 | a message whose every handling is poison can take at most 7 * maxAttempts + 6 handling steps whatever other messages do, can always take the next, and has none left if and only if it lies in the dead-letter queue behind a copy of itself |
| NotificationConsumer.NotificationConsumer.Process | src/infrastructure/consumers/order-created-notification.consumer.ts:156-203 | whatever interferes, only a failed query makes a delivery infra or (unless its body is empty) poison, it is skipped only for want of order or reader, and enqueued with its own notice and dedup row; undisturbed, exactly the verdict by table and event |
| NotificationConsumer.EnqueuedIff | src/infrastructure/consumers/order-created-notification.consumer.ts:156-203 | a notification is enqueued exactly for an event that is not in the dedup table and has a reader, one entry under the event's id |
| NotificationConsumer.HandledTwice | src/infrastructure/consumers/order-created-notification.consumer.ts:156-203 | handling a message again enqueues nothing more and is a duplicate exactly if the first time enqueued |
| NotificationConsumer.NoticeReachesItsReader | src/infrastructure/consumers/payment-notification.consumer.ts:180-213 | the admins' notice depends on no customer's address and goes to the admin inbox; any other depends on nobody's address but the order owner's and goes there |
| NotificationConsumer.SkippedIff | src/infrastructure/consumers/payment-notification.consumer.ts:180-213 | a routed event is skipped if and only if its order is missing or unknown or its reader has no address; none for want of a template |
| NotificationConsumer.TemplateTellsTheEvent | src/infrastructure/consumers/payment-notification.consumer.ts:20-31 | two notifications have the same template if and only if they come from the same consumer and the same event name |
| NotificationConsumer.NotificationConsumer.DeadLetter | src/infrastructure/consumers/order-created-notification.consumer.ts:212-225 | a confirmed copy before the ack; unconfirmed, the delivery goes back |
| NotificationConsumer.NotificationConsumer.PauseForInfra | src/infrastructure/consumers/payment-notification.consumer.ts:269-282 | requeues without raising the death count and stops consuming once |
| NotificationConsumer.NotificationConsumer.HandleDelivery | src/infrastructure/consumers/payment-notification.consumer.ts:130-171 | undisturbed, exactly where each kind of message ends up and what is written; no other message moves |
| Pipeline.PublishedEventsAreAccountedFor | src/infrastructure/outbox/outbox-relay.worker.ts:134-175 | relay, broker and consumer together: a PUBLISHED event was confirmed, its message is accounted for, and its notifications are more than the window apart |
| EndToEnd.NoticesTellTheTruth | src/infrastructure/consumers/payment-notification.consumer.ts:173-241 | over every run of checkouts, payment transactions, relay, broker, payments consumer and sender: "approved", "rejected" and "expired" notices go only to the owner of an order whose payment is PAID, FAILED or EXPIRED, receipts only to the admin inbox; each has its mail row, which is SENT only once the provider accepted it |
| EndToEnd.FinalPaymentsAreAnnounced | src/modules/admin/admin.service.ts:342-393 | over the same runs a payment in a final status has exactly one event of that name with an outbox row; once that is PUBLISHED its message is accounted for, and its notifications are more than the window apart |
| Retention.RetentionWorker.SweepPolicy | src/infrastructure/lifecycle/retention.worker.ts:123-145 | every row it deletes, whatever interferes, matches the policy when it is deleted, and the result counts them; undisturbed min(matching, batch * maxBatches), and stopping early leaves no match; a dry run counts the matches and deletes nothing |
| Retention.RetentionWorker.RunOnce | src/infrastructure/lifecycle/retention.worker.ts:95-121 | undisturbed and if each policy's matches fit its batches, what survives is exactly pending, leased or young events and notifications, dedup rows and tokens in their windows, and unexpired keys |
| Retention.EventPoliciesAreSweeps | src/infrastructure/lifecycle/retention.worker.ts:103-109 | the outbox policies delete no more than the queue machine lets a sweep delete |
| Retention.NotificationPoliciesAreSweeps | src/infrastructure/lifecycle/retention.worker.ts:103-121 | the notification policies delete no more than the queue machine lets a sweep delete |
| Retention.WindowPoliciesAreSweeps | src/infrastructure/lifecycle/retention.worker.ts:110-121 | the dedup, key and upload-token policies delete no more than the consumer, idempotency and shop machines let a sweep delete |
| Redrive.RedriveService.RedriveFailedRows | src/infrastructure/lifecycle/redrive.service.ts:77-111 | resets FAILED rows only; undisturbed min(matching, batch * maxBatches) of them, in effect in one step, and none left if it stops early |
| Redrive.RedriveService.RedriveConsumerDlq | src/infrastructure/lifecycle/redrive.service.ts:114-144 | moves min(limit, dead letters) messages, each behind a copy in the main queue; a dry run changes nothing and counts the limit whenever the queue is not empty |
| Redrive.DryRunCountsIff | src/infrastructure/lifecycle/redrive.service.ts:114-144 | a dry run counts what a real run would move if and only if the queue is empty or holds at least the limit |
| Redrive.DryRunOvercounts | src/infrastructure/lifecycle/redrive.service.ts:119-131 | a queue with one message whose dry run with limit 2 counts 2 |
| CanonicalJson.SortKeysIsCanonical | src/infrastructure/idempotency/idempotency.service.ts:275-291 | two values get the same sorted tree if and only if they agree up to object-key order at every depth |
| CanonicalJson.SortKeysKeepsValue | src/infrastructure/idempotency/idempotency.service.ts:280-291 | the sorted tree is the same value up to key order |
| CanonicalJson.SortKeysIsIdempotent | src/infrastructure/idempotency/idempotency.service.ts:280-291 | sorting a sorted tree changes nothing |
| CartFingerprint.EqualProjectionsMeanSameRequest | src/modules/orders/orders.service.ts:336-363 | equal projections come from the same customer, endpoint, address, courier and multiset of lines, with no voucher code on either side or codes that normalise alike |
| CartFingerprint.HashedTreeIsTheProjection | src/modules/orders/orders.service.ts:336-363 | the key-sorted trees built from two projections are equal if and only if the projections are |
| CartFingerprint.OrderIsForgottenIff | src/modules/orders/orders.service.ts:336-363 | the projection does not depend on the order of items and toppings if and only if items the comparator ties are equal |
| CartFingerprint.OrderIsForgottenIffNotSplit | src/modules/orders/orders.service.ts:336-363 | in the cart's terms: for plain ids, levels and notes, order is forgotten if and only if no two lines differ in quantity alone |
| CartFingerprint.SplitLinesBetrayOrder | src/modules/orders/orders.service.ts:345-351 | one product in two lines of different quantity: swapping the lines changes the projection, under any collation |
| Sorting.OrderDoesNotMatterIff | src/modules/orders/orders.service.ts:345-351 | a stable sort forgets the original order if and only if tied elements are equal |

## Left out

- Modules, controllers, guards, DTO validation, logging, metrics and health checks: wiring.
- Timers and reconnects (`scheduleNext`, `scheduleReinit`, the RabbitMQ connection manager): replaced by nondeterministic steps; `stopped`, `running` and `inFlight` are covered by one tick at a time per worker.
- Database and broker internals: only atomic conditional updates, unique indexes, all-or-nothing transactions, publisher confirms and redelivery are assumed. A query reported as failed is taken as not applied, except for the consumer's and the order transaction's commit, which may be applied and still be reported as failed.
- Routing: a confirmed publish is taken to reach the bound queue; the relay does not publish with the mandatory flag, so an event published before any consumer has declared its queue is outside `Pipeline`.
- SHA-256, JSON.stringify and token hashing are treated as injective: the fingerprint is a string, a token is its row. JavaScript's special treatment of integer-like keys and `__proto__`, and objects that are not plain data, are outside `CanonicalJson`.
- Collation: `localeCompare` is any consistent collation, `trim().toUpperCase()` any string function.
- Columns that decide nothing here (request method, endpoint and owner of a reservation, notes, courier names, providers' ids, notification payloads) and the order-number format; a taken number is a fault of the transaction.
- Address ownership, voucher validity dates and new-user checks: pre-reads that only refuse.
- Soft deletion of orders and payments: no code in scope ever sets it.
- Voucher limits and product stock edited by hand while checkouts run: excluded from the quota and conservation runs.
- NotificationConsumer.NotificationConsumer.HandleDelivery: one class stands for both consumer classes, whose code differs only in the notification they build; an acknowledgement lost with its channel is the machine's `Close` step.
- PaymentLifecycle.LifecycleWorker.RunExpiry: says nothing about completeness when the coarse query finds more candidates than the batch, because rows that are not due can then fill it.
- Consumer.PoisonEndsInTheDlq: counts steps, not time, because when the broker delivers is the broker's; a channel that keeps closing can hand the message out again and again.
- EndToEnd.NoticesTellTheTruth: covers the payments consumer alone, with users' addresses and order ids fixed and nobody but the relay publishing to its exchange; the order.created consumer shares its code and is covered by `Consumer` and `NotificationConsumer`.
- The sender compares attempts with its configured maximum and the relay with the row's; `LeaseQueue` keeps one maximum per row, equal to the configured one for notifications.

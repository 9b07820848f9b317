# Delivery marketplace: a verified model

This project models, in Dafny 4.11, the parts of a delivery marketplace whose correctness rests on several services
at once, and proves what they keep to over every run. Every database transaction is one atomic step. Times, money
and identifiers are integers (milliseconds, minutes or days; cents; indices or naturals). The payment provider and
the mail provider may answer anything at any moment. `dafny verify dfyconfig.toml` checks all of it.

Each area comes in two layers. A module of functions says what every transaction does, and lemmas about it prove
the properties over runs. Where the original updates rows step by step, a class with mutable fields does the same
with loops and early returns, and each method is proved to leave exactly the state that the function gives.

The `…Laws` modules say what these functions come to without using their helpers: an outcome happens if and only if
conditions hold that are written out in status values, texts, days, minutes, cents and owners. They look at the
transactions from the other end. Where a function says what one event does, a law says which events change one
column and when, or from which texts, answers or times a result follows. A lemma there that no other one uses is a
result of its own; the table below lists the main ones.

| area | functions and lemmas | classes |
| --- | --- | --- |
| Payment saga: order, payment and a queue of provider operations | `OrderStatuses`, `Retry`, `Snapshots`, `PaymentData`, `OperationQueue`, `Transition`, `Operations`, `Items`, `OrderFlows`, `Checkout`, `SagaInvariant`, `SagaSteps`, `SagaRuns`, `SagaAttempts`, `StaleReports`, `DependencyReview`, `SnapshotLaws`, `TransitionLaws`, `OperationLaws`, `FlowLaws`, `CheckoutLaws`, `SagaLaws` | `OnlineOrders.OnlineOrder`, `DependencyReview.OperationTable` |
| Schedules, driver links, offers and shifts | `Schedules`, `Agenda`, `Shifts`, `AgendaLaws`, `ShiftLaws`, `PermitLaws` | `DriverAgendas.DriverAgenda`, `ShiftBooks.ShiftBook` |
| Ledger and settlement | `Ledger`, `LedgerRuns`, `Settlement`, `LedgerLaws`, `SettlementLaws` | `LedgerBooks.LedgerBook`, `FinancePeriods.FinanceTables` |
| Dispatch: orders, batches and shifts | `Dispatch`, `DispatchRuns`, `PoolShifts`, `Handovers`, `Bookkeeping`, `DispatchLaws`, `BatchLaws`, `DispatchHistory` | `DispatchTables.Tables` |
| Rate limiter | `RateLimits`, `RateLimitLaws` | `RateLimiters.RateLimiter` |
| E-mail outbox | `Outbox`, `OutboxLaws` | `EmailOutbox.OutboxTable` |

## How the parts fit

**Payment saga.** `SagaRuns.World` holds any number of online orders, each with its payment, its queue of refund and
cancel operations and its amendments. A step is any transaction on one of them: a provider report, a customer's or a
store's cancellation, expiry, recovery of an uncertain creation, an amendment being proposed, withdrawn, approved or
rejected, a worker claiming or finishing an operation, a lease running out, a reviewed operation dragging its
successors along. `SagaInvariant.Inv` is kept by all of them, and the main theorems of `SagaRuns` follow from it.

**Schedules and shifts.** `Schedules` compares the bounded searches of the program with the infinite calendar. `Agenda`
and `Shifts` build run-level invariants on top: no double booking, no overlapping shifts, one daily per approved shift.

**Ledger and settlement.** `LedgerRuns` lets orders, shifts, half fees and adjustments interleave freely and proves what
the entries of an order add up to. `Settlement` closes arbitrary, also overlapping, periods over arbitrary entries.

**Dispatch.** `DispatchRuns` proves the couplings between orders, batches and shifts that the ledger relies on:
`DispatchRuns.OrdersAgreeWithBatchesAndShifts` is what `LedgerRuns.Agrees` asks for, and
`DispatchRuns.DeliveredOrdersKeepTheirShift` is why a delivered order cannot change hands unless it is in a batch that
may still be released. `PoolShifts` is about shifts and the general pool. `Bookkeeping` runs dispatch and the ledger
together: `Bookkeeping.DispatchIsBooked` says that the ledger's orders are in the same hands as those of dispatch at
every moment, so that the theorems of `LedgerRuns` hold of everything that dispatch can do.

## Where the code does less than it says

- The comment in `apps/api/src/services/finance.service.ts` (lines 212-216) promises that a retroactive adjustment
  brings every delivered order to the new extra. The adjustment reads the balance of one driver, and the release of a
  batch also takes *delivered* orders from their driver and shift, so that another shift may inherit them.
  `LedgerRuns.RetroactiveTermsReachTheTarget` gives the exact condition under which an order reaches the new extra:
  apart from a version that was used before, other drivers' extras for it come to nothing.
  `LedgerRuns.SettledOrdersWillReach` says that every order outside a batch that may still be released meets it.
  `Handovers.DeliveredOrderIsHandedOver` is a run of dispatch that delivers an order in one shift and leaves it in
  another, and `LedgerRuns.HandedOverOrderIsPaidTwice` the run of the ledger in which it is then paid for twice.
- `findStartOccurrence` looks at three days. That is enough exactly for the tolerances up to a day
  (`Schedules.ThreeDaysAreEnoughExactly`).
- Garbage collection of rate-limit rows is invisible exactly when rows are retained for at least a window
  (`RateLimits.InvisibleExactlyWhenRetaining`, which also has the special case of windows of one millisecond).
- The 24-hour limit of an extended shift can never be hit (`Shifts.NeverLongerThanADay`).
- A driver on shift is to have no delivery from the general pool: starting a shift and accepting from the pool both look
  for the other. Reactivating a shift does not. `PoolShifts.ReopenedWithPoolWork` is a run that ends with both;
  `PoolShifts.ShiftOrPool` says over every run that the two stay apart exactly when no shift is reactivated with pool
  orders in hand, which is the guard of a start.
- An order may go back from waiting for a driver to ready, and on from preparation to waiting at once, which the status
  table does not list; `DispatchRuns.StatusesFollowTheTable` says exactly when.
- The refunded amount that a payment row holds may fall (`StaleReports.StaleReportLowersRefund`), exactly when a report
  is acted on that names a smaller one (`Transition.RefundedAmountFallsExactly`).

## Model

| member | source | states |
|---|---|---|
| SagaRuns.OrderAndPaymentAgree | apps/api/src/payments/transition.service.ts:81-122 | In every run and for any provider behaviour: an order awaiting payment has a pending payment, a pending payment belongs to an awaiting or cancelled order, a rejected, cancelled or expired payment to a cancelled one, and any other order has an approved or refunded payment. |
| SagaRuns.CancelledOrdersAreSettled | apps/api/src/services/payment.service.ts:22-43 | In every run a cancelled order whose payment the provider knows has the operation that undoes the payment, at most one of each kind, and a full refund that succeeded means refunded in full. |
| SagaRuns.QueuesAreSerialized | apps/api/src/payments/operation-queue.service.ts:44-57 | In every run the operations of a payment are successes, then one in hand, then operations never started or under review together with it. |
| SagaRuns.MoneyIsConserved | apps/api/src/services/amendment.service.ts:112-149 | In every run, until the payment is refunded in full, order total plus queued partial refunds is the amount charged; the subtotal is that of the remaining items. |
| SagaRuns.PaymentsNeverGoBack | apps/api/src/payments/transition.service.ts:56-103 | Between any two points of a run a payment's rank does not drop, its provider ids, once written, stay, and a creation that is no longer uncertain never is again. |
| SagaRuns.ProviderIdsAreUnshared | apps/api/src/payments/transition.service.ts:45-54 | In every run no two payments carry the same provider order or transaction. |
| SagaRuns.NextKeepsInvariant | apps/api/src/payments/transition.service.ts:39-123 | Every transaction on an online order, with any provider answer, keeps the saga invariant. |
| SagaAttempts.AtMostEightRuns | apps/api/src/payments/retry.ts:19-27 | In every run an operation completes at most eight processings, and one that has completed eight is closed. |
| SagaSteps.SettleOperationKeepsInvariant | apps/api/src/payments/operation.service.ts:58-97 | Settling a running operation never meets the review error and keeps the invariant. |
| SagaSteps.ApplyFailsOnlyUnderReview | apps/api/src/payments/operation-queue.service.ts:44-57 | A provider report can be refused as a whole only while an operation of the order is under review. |
| SagaSteps.RecoveryOutcomes | apps/api/src/payments/checkout.service.ts:175-280 | After a recovery nothing is uncertain any more, or the payment is under review, or a later attempt is scheduled; a usable report always settles it. |
| SagaSteps.OperationsNeedTheProvider | apps/api/src/services/payment.service.ts:22-43 | Operations are queued only for payments that the provider knows. |
| SagaSteps.CustomerCancelRefusedExactly | apps/api/src/payments/cancellation.service.ts:53-92 | A customer's cancellation is refused if and only if the order is past confirmation or an operation of it under review blocks the settlement. |
| SagaSteps.ApproveKeepsInvariant | apps/api/src/services/amendment.service.ts:112-149 | Approving an amendment keeps item sums, frozen totals and queued refunds consistent. |
| SagaSteps.RejectKeepsInvariant | apps/api/src/services/amendment.service.ts:151-175 | Rejecting one cancels the order and queues what its payment needs. |
| SagaInvariant.DispositionFailsOnlyUnderReview | apps/api/src/services/payment.service.ts:22-43 | Queueing what a cancelled order needs fails only while an operation is under review. |
| SagaInvariant.EnsureKeepsInvariant | apps/api/src/services/payment.service.ts:22-43 | It restores the promise that every cancelled order is covered by an operation. |
| Transition.ApplyTwiceIsApplyOnce | apps/api/src/payments/transition.service.ts:39-123 | Applying the same report twice at the same time changes nothing the second time: no event, no operation, no status. |
| Transition.RankNeverDrops | apps/api/src/payments/transition.service.ts:56-103 | Whatever the decision, a payment moves only from unpaid to approved to refunded. |
| Transition.DecisionIsSound | apps/api/src/payments/transition.service.ts:42-54 | A report that is acted on matches the payment's ids, shares none with another payment, and refunds no more than was charged. |
| Transition.RefundedAmountFallsExactly | apps/api/src/payments/transition.service.ts:56-123 | The stored refunded amount falls if and only if a report is acted on that names a smaller one. |
| TransitionLaws.PaymentWritten | apps/api/src/payments/transition.service.ts:56-123 | Every column of the payment after any report: moved with the decision's status, questioned, or untouched because the payment is further on. |
| TransitionLaws.OrderWritten | apps/api/src/payments/transition.service.ts:81-122 | A report releases or cancels an order if and only if it awaits payment and the decision says paid or unpaid; no other status changes. |
| TransitionLaws.ReleasedOnlyByPaidReports | apps/api/src/payments/transition.service.ts:39-123 | An unpaid order is released only by a report of its own payment, with matching identity and no chargeback, that says processed, refunded or partially refunded. |
| TransitionLaws.PaidReportsRelease | apps/api/src/payments/transition.service.ts:39-123 | And a report that says accredited releases it, approves the payment and queues nothing. |
| SagaLaws.ReportsTakeEffect | apps/api/src/payments/transition.service.ts:39-123 | In a run every report takes effect as these rows say, unless an operation under review holds it up; then nothing changes. |
| TransitionLaws.OperationsWritten | apps/api/src/payments/transition.service.ts:56-103 | A report queues an operation exactly for a cancelled order, and then the one that the payment as written calls for, once. |
| TransitionLaws.EventsWritten | apps/api/src/payments/transition.service.ts:56-123 | Which single event, if any, a report adds. |
| StaleReports.StaleReportLowersRefund | apps/api/src/payments/transition.service.ts:56-123 | A run of a new order and two reports in which the stored refunded amount falls from five to zero. |
| Snapshots.AcceptedReportsMatch | apps/api/src/payments/snapshot-validation.ts:14-57 | Any decision but a review implies a matching identity and an amount that fits the decision. |
| Snapshots.ChargebackIsReviewed | apps/api/src/payments/snapshot-validation.ts:14-57 | A chargeback named in any status or detail always goes to review. |
| SnapshotLaws.DecidedExactly | apps/api/src/payments/snapshot-validation.ts:14-57 | From the texts, identity and amounts of a report alone, for every report: each decision is given if and only if the status and detail words that stand for it are there, and those that come before it are not. |
| SnapshotLaws.FirstFailureIsReported | apps/api/src/payments/snapshot-validation.ts:14-36 | A report whose identity does not fit is reviewed under the first of the twelve comparisons that fails. |
| OperationQueue.EnqueueTwice | apps/api/src/payments/operation-queue.service.ts:34-114 | Filing the same non-partial operation again finds the first one and adds nothing. |
| OperationQueue.EnqueueKeepsChain | apps/api/src/payments/operation-queue.service.ts:59-114 | A new operation depends on the last unfinished one, which keeps the queue a chain. |
| OperationQueue.EnqueueKeepsTargets | apps/api/src/payments/operation-queue.service.ts:59-81 | Refund targets strictly increase, stay within the charge, and nothing partial follows a full refund, for any reported refunded amount. |
| OperationQueue.PartialSumBounded | apps/api/src/payments/operation-queue.service.ts:59-81 | Partial refunds never add up to more than the last target, hence than the charge. |
| OperationQueue.ProcessingIsHead | apps/api/src/payments/operation-queue.service.ts:116-161 | Only the first unfinished operation of a payment is ever processing. |
| OperationQueue.SuccessIsAPrefix | apps/api/src/payments/operation-queue.service.ts:116-161 | Operations of a payment succeed in the order they were queued. |
| Operations.ClaimableIsHead | apps/api/src/payments/operation-queue.service.ts:142-161 | Only the head of the queue can be claimed. |
| Operations.RetryNeedsAttemptsLeft | apps/api/src/payments/operation.service.ts:58-97 | A finished processing leaves the operation waiting only below eight attempts. |
| OperationLaws.PartialRefundEnds | apps/api/src/payments/operation.service.ts:36-97 | A partial refund succeeds if and only if the report says refunded, partly or fully, at exactly its target; below the target it waits and from eight attempts on is reviewed, and anything else is reviewed. |
| OperationLaws.FullRefundEnds | apps/api/src/payments/operation.service.ts:36-97 | A full refund succeeds if and only if the report says refunded at the full amount, waits while the money is still there, and is otherwise reviewed. |
| OperationLaws.CancellationEnds | apps/api/src/payments/operation.service.ts:36-97 | A cancellation waits on pending, succeeds with the result that belongs to each unpaid end and to a full refund, and escalates to a refund once money is seen. |
| OperationLaws.AnswerWrites | apps/api/src/payments/operation.service.ts:58-97 | Settling an answer writes the report, the operation's end and, when it escalates, the refund, and no other operation. |
| OperationLaws.RefundIsAsked | apps/api/src/payments/operation.service.ts:99-117 | The provider is asked for a refund exactly when the first reading still shows money to give back. |
| OperationLaws.CancellationIsAsked | apps/api/src/payments/operation.service.ts:22-34 | And for a cancellation exactly when the first reading shows an order that can still be cancelled. |
| OperationLaws.FailureWrites | apps/api/src/payments/operation.service.ts:118-135 | A failed mutation is put off, read once more or reviewed, according to the kind of failure. |
| Retry.DelayBounds | apps/api/src/payments/retry.ts:9-17 | A retry waits 30 seconds to 7.5 hours and never less than the provider advises. |
| Retry.DelayDoubles | apps/api/src/payments/retry.ts:9-17 | The first wait is 30 seconds, and each further attempt doubles it up to six hours. |
| Retry.DelayMonotone | apps/api/src/payments/retry.ts:9-17 | With equal jitter and advice a later attempt never waits less. |
| Items.ApplyChangesSubtotal | apps/api/src/services/amendment.service.ts:112-149 | Carrying out the changes of an amendment gives exactly the announced subtotal. |
| Items.FrozenSubtotal | apps/api/src/services/amendment.service.ts:30-91 | The changes as they are stored announce the same subtotal as the changes as requested. |
| Items.ReductionLowersSubtotal | apps/api/src/services/amendment.service.ts:30-91 | A proposal never raises the subtotal. |
| FlowLaws.CustomerCancelsExactly | apps/api/src/payments/cancellation.service.ts:18-92 | A customer cancels an order if and only if the store has not accepted it and no operation under review holds up what the payment calls for; status, lapsed proposals, queued operation and event are written out. |
| FlowLaws.StoreCancelsExactly | apps/api/src/services/order-status.service.ts:227-263 | A store cancels until the order is on the road, with the same writes. |
| FlowLaws.OverdueOrdersAreCancelledExactly | apps/api/src/payments/cancellation.service.ts:94-113 | The clock cancels exactly the orders whose pending payment is overdue, and repeats what a cancelled one still owes. |
| FlowLaws.DeliveryFailsExactly | apps/api/src/services/dispatch.service.ts:335-370 | A delivery fails only on the road, and what was paid is then queued to be given back. |
| FlowLaws.ProposesExactly | apps/api/src/services/amendment.service.ts:30-91 | A proposal is accepted if and only if the order is in the kitchen without another proposal, each change lowers or keeps an item of the order, one lowers, and something is left; it freezes exactly the real changes and their amounts. |
| FlowLaws.ApprovesExactly | apps/api/src/services/amendment.service.ts:112-149 | An approval succeeds if and only if the refund that is due, if any, can be queued within the charge; item by item the order is as proposed, and the refund goes on top of the largest before it. |
| FlowLaws.RejectsExactly | apps/api/src/services/amendment.service.ts:151-175 | A rejection cancels the order, answers the one proposal and queues what the payment calls for. |
| OrderStatuses.WalksAreAcyclic | packages/shared/src/order-status.ts:16-38 | No walk through the status table revisits a status; the longest has eight. |
| DependencyReview.OperationTable.PropagateReviewedDependencies | apps/api/src/payments/operation-queue.service.ts:163-188 | The batched loop ends, counts what it marks, marks only unfinished rows of the closure, and below its limit leaves exactly the closure reviewed. |
| DependencyReview.ClosureOfAQueue | apps/api/src/payments/operation-queue.service.ts:163-188 | In one payment's queue that closure is everything from a reviewed head on. |
| CheckoutLaws.UsedExactly | apps/api/src/payments/checkout.service.ts:175-280 | A recovery uses a report if and only if it is that of the one charge found, or of one created again for a standing, not overdue pix order at the expected account. |
| CheckoutLaws.HandedOverExactly | apps/api/src/payments/checkout.service.ts:175-280 | It goes to review exactly for an ambiguous search, an unknown payer, a foreign account, or a failure that does not pass, each with its own name. |
| CheckoutLaws.PutOffExactly | apps/api/src/payments/checkout.service.ts:175-280 | It is put off exactly for failures that pass, card charges not found and charges of cancelled orders not found. |
| CheckoutLaws.WaitWrites | apps/api/src/payments/checkout.service.ts:150-173 | Put off, the row waits the doubled half minute and a tenth or the longer advice, below eight attempts, and is then under review as exhausted. |
| CheckoutLaws.ExpiryWrites | apps/api/src/payments/checkout.service.ts:225-232 | An overdue charge that was never created expires, and cancels its order if that still waits for it. |
| CheckoutLaws.RetryWrites | apps/api/src/payments/reconciliation.service.ts:100-109 | A reconciled row that could not be read stays in its state for one of eight attempts. |
| OnlineOrders.OnlineOrder.EnqueuePaymentOperation | apps/api/src/payments/operation-queue.service.ts:34-114 | Inserts, finds or refuses exactly as the specification says, and changes the queue alone. |
| OnlineOrders.OnlineOrder.EnsureCancelledOrderPaymentDisposition | apps/api/src/services/payment.service.ts:22-43 | Queues the cancel or the full refund that the payment calls for. |
| OnlineOrders.OnlineOrder.ClaimPaymentOperationById | apps/api/src/payments/operation-queue.service.ts:142-161 | Claims exactly the claimable operation and leases it. |
| OnlineOrders.OnlineOrder.ApplyProviderSnapshot | apps/api/src/payments/transition.service.ts:39-123 | The row-by-row application of a report leaves the specified saga, or on an error the old one. |
| OnlineOrders.OnlineOrder.SettleSnapshot | apps/api/src/payments/operation.service.ts:58-97 | Applying a report and finishing the operation is one all-or-nothing step. |
| OnlineOrders.OnlineOrder.ProcessPaymentOperation | apps/api/src/payments/operation.service.ts:99-135 | A whole processing, with any mixture of provider answers and errors, does what the specification does. |
| OnlineOrders.OnlineOrder.AfterFailure | apps/api/src/payments/operation.service.ts:118-134 | A provider error leads to a retry, to a second reading or to review as specified. |
| OnlineOrders.OnlineOrder.CancelCustomerOrder | apps/api/src/payments/cancellation.service.ts:53-92 | Cancels, drops the waiting amendment and settles the payment, or changes nothing. |
| OnlineOrders.OnlineOrder.ExpireAwaitingPayment | apps/api/src/payments/cancellation.service.ts:94-113 | Expires exactly the overdue pending payments. |
| OnlineOrders.OnlineOrder.ProposeAmendment | apps/api/src/services/amendment.service.ts:30-91 | Freezes changes, totals and refund, or refuses. |
| OnlineOrders.OnlineOrder.ApproveAmendment | apps/api/src/services/amendment.service.ts:112-149 | Rewrites items and totals and queues the partial refund, all or nothing. |
| OnlineOrders.OnlineOrder.RejectAmendment | apps/api/src/services/amendment.service.ts:151-175 | Cancels the order and settles its payment, all or nothing. |
| OnlineOrders.OnlineOrder.RecoverUncertainCreate | apps/api/src/payments/checkout.service.ts:175-280 | From a row read earlier and whatever became of it since: search, expiry, re-creation, review and retry leave the specified saga and report its outcome. |
| OnlineOrders.OnlineOrder.ScheduleCreateRecoveryRetry | apps/api/src/payments/checkout.service.ts:150-173 | Reschedules if the creation is still uncertain, with the attempts read earlier; otherwise changes nothing and reports the current outcome. |
| OnlineOrders.OnlineOrder.PersistRecoveryReview | apps/api/src/payments/checkout.service.ts:141-148 | Sends to review if and only if the creation is still uncertain, and says whether it did. |
| Schedules.ConflictIsClash | packages/shared/src/offers.ts:47-57 | The search over three weeks finds a conflict if and only if some occurrences overlap in the infinite calendar. |
| Schedules.ConflictIsSymmetric | packages/shared/src/offers.ts:54-57 | Hence a conflict does not depend on the order of the items. |
| Schedules.SchedulesConflictIsClash | packages/shared/src/offers.ts:59-61 | The same for whole schedules. |
| Schedules.OfferHasNoInternalConflict | packages/shared/src/offers.ts:42-46 | An offer that names no day twice never collides with itself, overnight windows included. |
| Schedules.OccurrenceIsItsWindow | packages/shared/src/offers.ts:83-92 | The instants of an occurrence are the window that conflicts are computed with, at the item's times of day and at most a day long. |
| Schedules.ThreeDaysAreEnough | packages/shared/src/offers.ts:94-104 | For tolerances up to a day, looking at three days finds an occurrence if and only if any day of the calendar is startable, and finds the first one. |
| Schedules.LargerToleranceMissesADay | packages/shared/src/offers.ts:94-104 | With any tolerance above a day a startable day is missed. |
| Schedules.ThreeDaysAreEnoughExactly | packages/shared/src/offers.ts:94-104 | The search finds an occurrence whenever there is one to start, for all schedules and moments, if and only if the tolerance is at most a day. |
| Schedules.ExpiryIsTheLastEnd | packages/shared/src/offers.ts:106-111 | A schedule expires with the last of its dated windows, and never if it has none. |
| Agenda.NeverDoubleBooked | apps/api/src/services/store-driver.service.ts:27-54 | Over every run of invitations, confirmations, removals, changes of terms and offers, and at every later time, no two current items of a driver's live links ever overlap. |
| AgendaLaws.NoTwoBookingsMeet | apps/api/src/services/store-driver.service.ts:27-54 | The same from the calendar: two items of confirmed links without a past expiry never share a minute on any two days that are not over, today included. |
| AgendaLaws.RefusedExactly | apps/api/src/services/store-driver.service.ts:48-54 | A candidate is refused if and only if one of its items that is to come meets a live link's item to come or a granted permit, on any days. |
| AgendaLaws.AcceptsExactly | apps/api/src/services/offer.service.ts:51-95 | An offer becomes a link if and only if it has slots, is open, unanswered, not over and fits; the first guard that fails gives the error, and slot, link and expiry are written out. |
| AgendaLaws.ConfirmsTermsExactly | apps/api/src/services/store-driver.service.ts:142-172 | A pending schedule is adopted if and only if it fits now and does not change the schedule during a shift; it brings a new expiry only if it is another one. |
| AgendaLaws.InvitesExactly | apps/api/src/services/store-driver.service.ts:63-79 | An invitation is stored if and only if it fits, to expire with the last end of its dates. |
| AgendaLaws.SlotsAreNeverExceeded | apps/api/src/services/offer.service.ts:51-95 | Over every run no offer is accepted more often than it has slots, and a full one is closed. |
| Agenda.CheckedLinkMayBind | apps/api/src/services/store-driver.service.ts:48-54 | A link whose current items passed the check may become live. |
| Agenda.EffectiveCoversCurrent | apps/api/src/services/offer.service.ts:63-71 | The dates left out of an offer's check can no longer bind the driver. |
| DriverAgendas.DriverAgenda.AssertNoScheduleConflict | apps/api/src/services/store-driver.service.ts:48-54 | Refuses exactly the schedules that collide with the driver's other live links or with permits granted there. |
| DriverAgendas.DriverAgenda.DriverActiveSchedule | apps/api/src/services/store-driver.service.ts:27-46 | Collects exactly the current items of the live links and the items of usable permits, leaving one link out. |
| DriverAgendas.DriverAgenda.InviteDriver | apps/api/src/services/store-driver.service.ts:63-79 | Adds an invited link that fits, with the expiry of its dates. |
| DriverAgendas.DriverAgenda.ConfirmLink | apps/api/src/services/store-driver.service.ts:81-96 | Confirms an invited link that fits, or changes nothing. |
| DriverAgendas.DriverAgenda.RemoveLink | apps/api/src/services/store-driver.service.ts:98-114 | Removes a link and its pending change unless a shift is running. |
| DriverAgendas.DriverAgenda.ProposeLinkTerms | apps/api/src/services/store-driver.service.ts:116-140 | Stores a fitting schedule as the pending one of a confirmed link. |
| DriverAgendas.DriverAgenda.ConfirmLinkTermsChange | apps/api/src/services/store-driver.service.ts:142-172 | Adopts the pending schedule if it fits, with a new expiry only when the schedule changed. |
| DriverAgendas.DriverAgenda.RejectLinkTermsChange | apps/api/src/services/store-driver.service.ts:174-191 | Drops the pending change and nothing else. |
| DriverAgendas.DriverAgenda.AcceptOffer | apps/api/src/services/offer.service.ts:51-95 | Takes a slot, closes a full offer and creates the confirmed link, or changes nothing. |
| Shifts.StartedShiftsNeverOverlap | apps/api/src/services/shift.service.ts:49-72 | Over every run, however the agenda changes: started shifts are pairwise disjoint, at most one is active, and each began within its window or half an hour before. |
| ShiftLaws.StartsExactly | apps/api/src/services/shift.service.ts:27-94 | A shift starts if and only if the link is confirmed, the driver near and free of pool orders, and the first item of the earliest day on time opens it on the link's terms, or else the newest usable permit on the permit's terms, used up by it; and no shift is active, of the same day and link, or in the way. |
| ShiftLaws.StartRefusedExactly | apps/api/src/services/shift.service.ts:27-94 | Which guard refuses a start, for every state. |
| PermitLaws.PermitIsAskedExactly | apps/api/src/services/shift-proposal.service.ts:26-76 | A permit is taken down if and only if the day's occurrence began more than half an hour ago, the limit lies before its end, nothing else promised meets it and no other permit is in the way; stale ones lapse. |
| PermitLaws.PermitIsGrantedExactly | apps/api/src/services/shift-proposal.service.ts:78-111 | A request is granted if and only if it is in time, still on the agenda and fits; the link then lasts to its end. |
| PermitLaws.PermitIsTakenBackExactly | apps/api/src/services/shift-proposal.service.ts:113-132 | A permit taken back leaves the link to expire with the last end that is left, among its dates and other granted permits. |
| Shifts.FarShiftsNeverMeet | apps/api/src/services/shift.service.ts:66-72 | Reading the neighbouring work dates is enough to see every overlap. |
| Shifts.DailiesArePaidOnce | apps/api/src/services/shift.service.ts:107-131 | Over every run a daily is paid if and only if its shift was approved, once and at its final rate. |
| Shifts.DailyIsApprovedAfterADay | apps/api/src/services/shift.service.ts:242-262 | The daily of an ended shift is approved by every sweep from 24 hours after the end on, and by none before. |
| Shifts.ReactivationWindow | apps/api/src/services/shift.service.ts:188-235 | An offered reactivation succeeds if and only if it is taken up within half an hour, before the end of the window and without another active shift; a late one leaves the shift as it was. |
| Shifts.NextKeepsOrder | apps/api/src/services/shift.service.ts:139-262 | Every transaction on shifts and permits keeps windows, statuses, deadlines and dailies consistent. |
| Shifts.NeverLongerThanADay | apps/api/src/services/shift-proposal.service.ts:22-53 | The 24-hour limit of an extended occurrence is never exceeded, whatever end is asked for. |
| Shifts.PermitItemRoundTrip | apps/api/src/services/shift-proposal.service.ts:92-97 | A permit written back as an agenda item covers exactly its window. |
| ShiftBooks.ShiftBook.StartShift | apps/api/src/services/shift.service.ts:27-94 | Every guard, the choice of occurrence or permit, and the insertion, exactly as specified. |
| ShiftBooks.ShiftBook.UniquenessError | apps/api/src/db/schema/store-drivers.ts:95-98 | The two unique indexes that an inserted shift meets. |
| ShiftBooks.ShiftBook.EndShift | apps/api/src/services/shift.service.ts:139-161 | Ends a shift without unfinished orders and sets the 24-hour deadline of its daily. |
| ShiftBooks.ShiftBook.ReleaseShift | apps/api/src/services/shift.service.ts:107-131 | Closes a shift without unfinished orders and pays its daily at once. |
| ShiftBooks.ShiftBook.DecideShiftDaily | apps/api/src/services/shift.service.ts:168-186 | Approves and pays, or refuses with a reason. |
| ShiftBooks.ShiftBook.OfferShiftReactivation | apps/api/src/services/shift.service.ts:188-205 | Offers half an hour, or what is left of the window. |
| ShiftBooks.ShiftBook.ReactivateShift | apps/api/src/services/shift.service.ts:207-235 | Reopens in time, and otherwise takes the lapsed offer back. |
| ShiftBooks.ShiftBook.AutoApproveStaleShiftDailies | apps/api/src/services/shift.service.ts:242-262 | Approves and pays every overdue daily and counts them. |
| ShiftBooks.ShiftBook.CreateShiftAuthorization | apps/api/src/services/shift-proposal.service.ts:26-76 | Permits a late start that conflicts with nothing, once per occurrence, after lapsed permits are closed. |
| ShiftBooks.ShiftBook.CancelShiftAuthorization | apps/api/src/services/shift-proposal.service.ts:113-132 | Withdraws a permit and sets the link's expiry back to its dates and remaining permits. |
| ShiftBooks.ShiftBook.DecideShiftAuthorization | apps/api/src/services/shift-proposal.service.ts:78-111 | Grants a permit that still fits, and pushes the link's expiry out to its end. |
| Ledger.CommissionIsNearest | apps/api/src/services/finance.service.ts:19-21 | The commission is within half a cent of its exact value and never exceeds the subtotal. |
| Ledger.DeliveryBalances | apps/api/src/services/finance.service.ts:32-127 | Whoever delivers, the entries of a delivery add up to the total if paid online, else to nothing, less the commission; extras cancel between store and driver. |
| Ledger.DeliveryPaysTheDriver | apps/api/src/services/finance.service.ts:89-124 | A delivery pays its driver the freight from the pool or the extra on a shift of the store, and nobody else anything. |
| Ledger.ReturnPaysTheDriver | apps/api/src/services/finance.service.ts:129-162 | A returned delivery pays its driver exactly what was frozen at the failure. |
| LedgerLaws.DeliveryBooks | apps/api/src/services/finance.service.ts:32-127 | For every party, entry type and owner: the amount that a delivery books is the one spelled out from subtotal, fee, commission, driver and shift, and nothing for anybody else. |
| LedgerLaws.DeliveryPaysTheStore | apps/api/src/services/finance.service.ts:32-127 | A delivery pays and charges its own store what is due to it, and no other store. |
| LedgerLaws.ReturnBooks | apps/api/src/services/finance.service.ts:129-162 | The same for a returned delivery. |
| LedgerLaws.HalfFeeBooks | apps/api/src/services/finance.service.ts:164-183 | For a half fee. |
| LedgerLaws.DailyBooks | apps/api/src/services/finance.service.ts:185-210 | For a daily. |
| LedgerLaws.AdjustmentBooks | apps/api/src/services/finance.service.ts:217-264 | For an adjustment. |
| LedgerLaws.DeliveriesAreBooked | apps/api/src/services/finance.service.ts:32-127 | After every run a delivery adds exactly those amounts to what was booked for the order, once, and marks it delivered. |
| LedgerLaws.ReturnsAreBooked | apps/api/src/services/finance.service.ts:129-162 | After every run a return adds exactly the pay that was frozen when the delivery failed. |
| LedgerLaws.EntriesAreTheStoresOwn | apps/api/src/services/finance.service.ts:32-264 | Over every run each store's entry for an order is of that order's store, parties have entries of their own types only, credits are positive and debits negative except in adjustments, and no entry is zero. |
| Ledger.FreshEntriesAreAppended | apps/api/src/services/finance.service.ts:26-30 | Entries under new keys are all inserted, in order. |
| LedgerRuns.DeliveredOrdersBalance | apps/api/src/services/finance.service.ts:32-127 | Over every run of drivers, half fees, adjustments and handovers, that balance holds for every delivered order. |
| LedgerRuns.ExtrasAreConserved | apps/api/src/services/finance.service.ts:185-264 | Over every run the stores' debits for extras are the drivers' credits, order by order, and no key is used twice. |
| LedgerRuns.RetroactiveTermsAreExact | apps/api/src/services/shift-proposal.service.ts:165-197 | Once a driver accepts retroactive terms, each order of the shift delivered outside a batch that may still be released pays exactly the new extra and charges the store as much. |
| LedgerRuns.RetroactiveTermsReachTheTarget | apps/api/src/services/shift-proposal.service.ts:165-197 | Over every run and for every order that counts as delivered in the shift, handed over or not: accepted terms bring its extras to the new value if and only if the key of the next version is free and other drivers' extras come to nothing, or that key is taken and the extras are there already; the store is charged exactly the extras. |
| LedgerRuns.SettledOrdersWillReach | apps/api/src/services/shift-proposal.service.ts:184-190 | An order that no batch can hand over always meets that condition. |
| LedgerRuns.AdjustmentAdds | apps/api/src/services/finance.service.ts:217-264 | An adjustment of a list of orders adds to each one's extras what its own driver lacks, once, and nothing if the key of its version is taken. |
| LedgerRuns.NextVersionIsFree | apps/api/src/services/shift-proposal.service.ts:180-183 | The key of the next version is free for an order that kept its shift. |
| LedgerRuns.HandedOverOrderIsPaidTwice | apps/api/src/services/batch.service.ts:281-284 | A run of the ledger in which an adjustment pays one delivery twice, after the delivered order was handed over; the condition above fails there. |
| LedgerBooks.LedgerBook.RecordOrderLedger | apps/api/src/services/finance.service.ts:32-127 | Builds and inserts exactly the entries of a delivery, and none for a failure. |
| LedgerBooks.LedgerBook.InsertEntries | apps/api/src/services/finance.service.ts:26-30 | Inserts a list in order and drops entries whose key is taken. |
| LedgerBooks.LedgerBook.RecordReturnLedger | apps/api/src/services/finance.service.ts:129-162 | Releases the frozen pay of a returned delivery, to a pool driver or within the shift. |
| LedgerBooks.LedgerBook.RecordHalfFee | apps/api/src/services/finance.service.ts:164-183 | Pays a half fee to the driver and charges it to the store, once. |
| LedgerBooks.LedgerBook.RecordShiftDaily | apps/api/src/services/finance.service.ts:185-210 | Pays a daily to the driver and charges it to the store, once. |
| LedgerBooks.LedgerBook.PaidByOrder | apps/api/src/services/finance.service.ts:227-243 | One pass over the ledger yields each order's extras. |
| LedgerBooks.LedgerBook.RecordPerDeliveryAdjustment | apps/api/src/services/finance.service.ts:217-264 | Reads all balances first and then inserts the pairs that are needed. |
| Settlement.AccountsAreTidy | apps/api/src/services/finance-settlement.service.ts:31-194 | Over any sequence of closes, overlapping ones included, and payments: totals are sums of items, no entry is itemised twice, and documents promise exactly what their entries come to. |
| Settlement.PaidDocumentsAreFrozen | apps/api/src/services/finance-settlement.service.ts:56-123 | From any point of a run to any later one, a paid document keeps its total and its items, and nothing is added to it. |
| Settlement.CloseTwiceIsCloseOnce | apps/api/src/services/finance-settlement.service.ts:151-179 | Closing the same period again changes nothing. |
| Settlement.CloseIsComplete | apps/api/src/services/finance-settlement.service.ts:151-179 | After a close an entry that can be settled has an item if and only if it had one or its own document was not yet paid. |
| SettlementLaws.EveryEntryIsSettled | apps/api/src/services/finance-settlement.service.ts:151-179 | Every store entry that is not zero and every positive driver entry of the period lies, after the close, in an invoice if negative, a store payout if positive or a driver payout of its owner and period, unless that document was paid before. |
| SettlementLaws.OnlyOwedEntriesHaveItems | apps/api/src/services/finance-settlement.service.ts:151-179 | And over every run no other entry ever has an item. |
| FinancePeriods.FinanceTables.CloseFinancePeriod | apps/api/src/services/finance-settlement.service.ts:31-194 | The loop over the period's entries leaves the specified accounts and counts the documents. |
| FinancePeriods.FinanceTables.EnsureDocument | apps/api/src/services/finance-settlement.service.ts:56-123 | Finds the open document of owner and period or creates it, and finds none if it is paid. |
| FinancePeriods.FinanceTables.RefreshTotal | apps/api/src/services/finance-settlement.service.ts:125-147 | Recomputes one total from the items. |
| FinancePeriods.FinanceTables.MarkPaid | apps/api/src/services/finance-settlement.service.ts:196-221 | Marks an existing document paid and nothing else. |
| DispatchRuns.OrdersAgreeWithBatchesAndShifts | apps/api/src/services/batch.service.ts:19-355 | Over every run a batched order has the batch's store and driver and never waits for one, a collected batch holds only orders out, delivered or failed, and an order's shift is of its store and driver. |
| DispatchRuns.EndedShiftsAreDone | apps/api/src/services/shift.service.ts:107-161 | Over every run a shift that is not active has only finished orders, and no driver has two active shifts. |
| PoolShifts.ShiftOrPool | apps/api/src/services/shift.service.ts:31-47 | Over every run and for every driver: from any moment at which deliveries of a shift and of the pool are apart they stay so if and only if no ended shift is taken up again with pool orders in hand. |
| PoolShifts.SeparatedUnlessReopened | apps/api/src/services/shift.service.ts:207-235 | One event mixes the two for a driver if and only if it reopens a shift while the driver has pool orders, where a start would be refused. |
| PoolShifts.ShiftsAddNoPoolWork | apps/api/src/services/dispatch.service.ts:119-139 | Whatever happens during a shift, its driver gets no further work from the pool. |
| PoolShifts.ReopenedWithPoolWork | apps/api/src/services/shift.service.ts:207-235 | A run of seven dispatch events that ends with a driver on shift and an order from the pool. |
| DispatchRuns.StatusesFollowTheTable | apps/api/src/services/order-status.service.ts:139-225 | A dispatch step keeps an order's status to the table if and only if it is not an accepted withdrawal or store release of an order that waits for a driver, and not the readiness of an order in preparation for which a driver was requested and none has come. |
| DispatchRuns.DeliveredOrdersKeepTheirShift | apps/api/src/services/batch.service.ts:270-278 | From any point of a run to any later one, an order delivered outside a batch, or in a batch that was collected, keeps its driver and shift. |
| DispatchRuns.DeliveredOrdersInBatches | apps/api/src/services/batch.service.ts:270-301 | Releasing a batch takes a delivered order from its driver or shift if and only if it is in that batch. |
| Handovers.DeliveredOrderIsHandedOver | apps/api/src/services/batch.service.ts:224-301 | A run of fifteen dispatch events, from two shifts starting on, that delivers an order in one shift and leaves it, still delivered, in the other. |
| Handovers.LedgerFollowsDispatch | apps/api/src/services/batch.service.ts:19-355 | Whatever dispatch does with a finished order, at most one step of the ledger model leaves it in the same hands. |
| Handovers.FinishingKeepsHands | apps/api/src/services/dispatch.service.ts:309-333 | The dispatch step that delivers or fails an order leaves driver, shift and batch alone. |
| Bookkeeping.DispatchIsBooked | apps/api/src/services/finance.service.ts:32-264 | Over every run of dispatch, with terms, dailies and prices changing in between, the ledger takes a plausible run of its own steps whose orders and shifts are those of dispatch, in the same hands and as far along. |
| Bookkeeping.DeliveredOrdersReachNewTerms | apps/api/src/services/shift-proposal.service.ts:165-197 | After every such run, each order delivered on a running shift outside a batch, or in one that was collected, pays exactly the new extra once retroactive terms are accepted, and charges the store as much. |
| Bookkeeping.DispatchedOrdersBalance | apps/api/src/services/finance.service.ts:32-127 | After every such run, the entries of every order that dispatch delivered balance. |
| DispatchLaws.DriverChangesExactly | apps/api/src/services/dispatch.service.ts:119-307 | An order is with a driver after an event if and only if the event gives it to that driver (from the pool off shift; on shift if directed at the store's drivers or at this one, and not declined; or with its batch likewise), or it was there and is neither given nor taken back. |
| DispatchLaws.ShiftChangesExactly | apps/api/src/services/dispatch.service.ts:195-224 | And its shift is the one on which it was taken. |
| DispatchLaws.StatusChangesExactly | apps/api/src/services/order-status.service.ts:75-225 | Every way into each of the ten statuses, and no other. |
| DispatchLaws.OffersChangeExactly | apps/api/src/services/order-status.service.ts:75-158 | Only its store puts an order on offer and takes the offer back, and only the driver asked for declines it. |
| DispatchLaws.BatchChangesExactly | apps/api/src/services/batch.service.ts:19-123 | When an order joins a batch and leaves it. |
| BatchLaws.BatchesChangeExactly | apps/api/src/services/batch.service.ts:45-355 | What every event makes of every batch. |
| DispatchHistory.EveryDriverTookTheOrder | apps/api/src/services/dispatch.service.ts:119-224 | Over every run whoever has an order took it in an event in which it was on offer to that driver, and has not lost it since. |
| DispatchHistory.DirectedWorkIsForItsDriver | apps/api/src/services/dispatch.service.ts:195-224 | Over every run an order or batch directed at one driver is with nobody else, and directed orders are done on shift, those of the pool off it. |
| DispatchHistory.DeliveredByItsDriver | apps/api/src/services/dispatch.service.ts:309-333 | Over every run an order to be delivered is delivered only by the report of the driver who had it on the road. |
| DispatchRuns.ReleaseUndoesAccept | apps/api/src/services/dispatch.service.ts:119-155 | Accepting and releasing an order, from the pool or on a shift, restores everything. |
| DispatchRuns.ReleaseUndoesAcceptBatch | apps/api/src/services/batch.service.ts:224-301 | Accepting and releasing a batch restores every order and the batch. |
| DispatchRuns.CancelUndoesCreateBatch | apps/api/src/services/batch.service.ts:19-123 | Cancelling a new batch gives its orders back, without their requests, and touches no others. |
| DispatchRuns.WithdrawUndoesRequest | apps/api/src/services/order-status.service.ts:75-158 | Withdrawing the request of an order that had none restores it. |
| DispatchTables.Tables.AcceptDelivery | apps/api/src/services/dispatch.service.ts:119-139 | Takes an unassigned order of the general pool for a driver off shift; no other order changes, and orders, batches and shifts stay consistent. |
| DispatchTables.Tables.AcceptShiftDelivery | apps/api/src/services/dispatch.service.ts:195-224 | Takes an order of the shift's store directed at the driver, with the same guarantees. |
| DispatchTables.Tables.ReleaseDelivery | apps/api/src/services/dispatch.service.ts:141-155 | A driver gives back an order that is not on the road and not batched, with the same guarantees. |
| DispatchTables.Tables.CollectDelivery | apps/api/src/services/dispatch.service.ts:242-256 | A driver takes an unbatched order on the road, with the same guarantees. |
| DispatchTables.Tables.CompleteDelivery | apps/api/src/services/dispatch.service.ts:309-333 | The driver of an order on the road delivers it, with the same guarantees. |
| DispatchTables.Tables.FailDelivery | apps/api/src/services/dispatch.service.ts:335-370 | The driver of an order on the road fails it and makes its return pending; a second report while it is pending changes nothing; no other order changes. |
| DispatchTables.Tables.StoreReleaseDriver | apps/api/src/services/dispatch.service.ts:274-307 | Frees an order from its driver and from its request, with the same guarantees. |
| DispatchTables.Tables.SetDriverRequestTarget | apps/api/src/services/order-status.service.ts:75-124 | Requests a driver, and lets a ready order wait for one. |
| DispatchTables.Tables.WithdrawDriverRequest | apps/api/src/services/order-status.service.ts:139-158 | Takes an unanswered request back, and lets a waiting order be ready again. |
| DispatchTables.Tables.StoreUpdateOrderStatus | apps/api/src/services/order-status.service.ts:186-225 | The store's moves with all their guards. |
| DispatchTables.Tables.CreateBatch | apps/api/src/services/batch.service.ts:19-43 | Groups unassigned orders of one store, or changes nothing. |
| DispatchTables.Tables.BroadcastBatch | apps/api/src/services/batch.service.ts:45-98 | Offers a batch of two or more orders to the pool, to the store's drivers or to one of them. |
| DispatchTables.Tables.AcceptBatch | apps/api/src/services/batch.service.ts:224-268 | Assigns a whole batch to a driver, on shift or from the pool. |
| DispatchTables.Tables.ReleaseBatch | apps/api/src/services/batch.service.ts:270-301 | Takes a whole batch from its driver. |
| DispatchTables.Tables.CancelBatch | apps/api/src/services/batch.service.ts:100-123 | Dissolves a batch that nobody has taken. |
| DispatchTables.Tables.CollectBatch | apps/api/src/services/batch.service.ts:316-355 | Sends a whole ready batch out. |
| DispatchTables.Tables.EndShift | apps/api/src/services/shift.service.ts:107-115 | Ends an active shift only when each of its orders is finished, and keeps orders, batches and shifts consistent. |
| RateLimits.AtMostTheLimitPerWindow | apps/api/src/security/rate-limit.ts:56-186 | Between clears, with garbage collection at any moment, a window lets at most the limit through, and any interval of its length at most twice that. |
| RateLimits.BlockDeniesAndStays | apps/api/src/security/rate-limit.ts:88-128 | While a block lasts every request is denied, across windows, and the block does not move. |
| RateLimits.NothingPassesABlock | apps/api/src/security/rate-limit.ts:78-186 | Over any run without a clear, no request gets through until the block ends. |
| RateLimits.BlocksStartAtTheLimit | apps/api/src/security/rate-limit.ts:110-128 | A block begins exactly with the request that reaches the limit, and lasts for the cooldown. |
| RateLimits.CollectionIsInvisible | apps/api/src/security/rate-limit-cleanup.ts:7-21 | With rows retained for their window, no sequence of answers depends on whether expired rows are deleted. |
| RateLimits.InvisibleExactlyWhenRetaining | apps/api/src/security/rate-limit-cleanup.ts:7-21 | For every policy with a window longer than a millisecond, the deletion of expired rows is invisible to all sequences of answers from 1970 on if and only if rows are retained for at least a window; the condition for windows of one millisecond is stated as well. |
| RateLimits.InspectPredictsConsume | apps/api/src/security/rate-limit.ts:188-217 | A request is allowed exactly when an inspection is and leaves room for one more. |
| RateLimits.RetryAfterIsTight | apps/api/src/security/rate-limit.ts:43-73 | The advised wait is the least number of seconds to the end of the block, or of the window. |
| RateLimitLaws.AllowedExactly | apps/api/src/security/rate-limit.ts:56-186 | Over every run, from the times of earlier requests alone: a request is allowed if and only if no block is in force and fewer than the limit came before it in its window. |
| RateLimitLaws.DeniedUntil | apps/api/src/security/rate-limit.ts:43-73 | A denied one is told of exactly the block that the history puts in force, and to wait for its end or the window's. |
| RateLimitLaws.BelowTheLimitEveryRequestIsAllowed | apps/api/src/security/rate-limit.ts:78-186 | Whoever stays below the limit in every window is never denied. |
| RateLimiters.RateLimiter.Consume | apps/api/src/security/rate-limit.ts:78-186 | The insert-or-update writes the specified row and returns the specified decision. |
| RateLimiters.RateLimiter.Inspect | apps/api/src/security/rate-limit.ts:188-217 | Reads the same decision without writing. |
| RateLimiters.RateLimiter.Clear | apps/api/src/security/rate-limit.ts:219-233 | Forgets every row of the subject. |
| RateLimiters.RateLimiter.DeleteExpired | apps/api/src/security/rate-limit-cleanup.ts:7-21 | Deletes at most the given number of expired rows, those that expired first. |
| Outbox.TokensFence | apps/api/src/email/outbox.service.ts:123-156 | Over every run of stalling workers no two unfinished ones hold the same token, and whoever still holds the lease knows the row as it is. |
| Outbox.LateFinishChangesNothing | apps/api/src/email/outbox.service.ts:150-175 | A worker whose lease was taken over changes nothing by finishing. |
| Outbox.AtMostFiveAttempts | apps/api/src/email/outbox.service.ts:227-255 | Over every run a message has at most five attempts and five writes, and a pending one is due at its offset. |
| Outbox.RetriesPrecedeExpiry | apps/api/src/email/outbox.service.ts:232-255 | A retry of a code is scheduled only before its challenge expires. |
| OutboxLaws.EndsExactly | apps/api/src/email/outbox.service.ts:257-305 | Over every run a message is sent if and only if the holder of its lease saw it delivered, failed if and only if it was refused, not rendered or unanswered for the fifth time, and cancelled if and only if its code had lapsed or would. |
| OutboxLaws.FinishesExactly | apps/api/src/email/outbox.service.ts:158-255 | Status, attempts and the five appointments that each outcome writes, by the holder of the lease and nobody else. |
| EmailOutbox.OutboxTable.DispatchOutboxById | apps/api/src/email/outbox.service.ts:257-305 | Claim, sending and write-back with other workers doing anything in between: a lost lease leaves the table to them. |
| EmailOutbox.OutboxTable.ClaimOutbox | apps/api/src/email/outbox.service.ts:123-148 | Leases a due row, or one whose lease has run out, and returns it with its token. |
| EmailOutbox.OutboxTable.FinishWithStatus | apps/api/src/email/outbox.service.ts:158-175 | Ends the row if the token still matches, and changes nothing otherwise. |
| EmailOutbox.OutboxTable.ScheduleRetry | apps/api/src/email/outbox.service.ts:232-255 | Reschedules, gives up or cancels, if the token still matches. |
| EmailOutbox.OutboxTable.DispatchDueOutbox | apps/api/src/email/outbox.service.ts:307-342 | Selects at most fifty due messages, the earliest first, works off those with other workers in between, and each counter counts its outcome. |
| EmailOutbox.UndisturbedSelection | apps/api/src/email/outbox.service.ts:307-342 | Without other workers every selected message is claimed and dispatched, and every other message stays as it was. |
| EmailOutbox.OutboxTable.SelectDue | apps/api/src/email/outbox.service.ts:314-322 | The due messages, each once and ordered by appointment and creation, cut off at the limit and complete below it. |
| EmailOutbox.OutboxTable.DispatchAll | apps/api/src/email/outbox.service.ts:331-341 | Works off a list with other workers before and during each dispatch; messages taken by others are not counted. |

## Left out

- HTTP routes, front ends, push messages, the Mercado Pago and Resend clients: the providers are arbitrary answers.
- Cryptography, signatures, tokens, password hashing, registration and recovery of accounts.
- SQL below the transaction: every transaction is one step, locks and `skip locked` do not appear.
- Leases of payment operations: a worker is assumed to finish within its lease, because the final writes are keyed by
  the operation alone; `Operations.Holds` states the assumption.
- One payment per order, and operations of a payment in strictly increasing creation order, are assumed.
- Columns that no decision reads: QR codes, notes, observed provider statuses, failure classes of operations, display
  timestamps, `earlyClose`, `reopenCount`.
- Provider idempotency keys, which are functions of the business keys in the model, and the webhook inbox.
- Letter case beyond ASCII in provider statuses.
- Time zones: local time is a fixed three hours behind UTC, as the shared code takes it, and dates are day numbers.
- In `Dispatch`: the guards of time, place and agenda on starting a shift, which `Shifts` has, and the texts of
  cancellations; any cancellation that the status table admits is a step.
- GPS distances: a shift's start takes "within the radius" as given.
- Agenda.NeverDoubleBooked: speaks of the items of links alone; granted late-start permits are seen by every check but
  are no commitments of their own there, because a permit extends an occurrence of its own link beyond the link's
  schedule. `Shifts` models permits, with their own conflict checks, as steps.
- DriverAgendas.DriverAgenda.AssertNoScheduleConflict: takes the usable permits as a parameter, because they are rows of
  a table that the shift services own.
- Settlement.CloseIsComplete: does not cover negative entries of drivers, which the code puts into no document.
- LedgerRuns.RetroactiveTermsAreExact: does not cover orders in batches that may still be released, for which the
  property can fail; `LedgerRuns.RetroactiveTermsReachTheTarget` covers them with the exact condition.
- OnlineOrders.OnlineOrder.RecoverUncertainCreate: looks at the row right after a refused write, while the program reads
  it once more; by `SagaRuns.PaymentsNeverGoBack` the creation is still not uncertain then, so the outcome is the same.
- DispatchTables.Tables.EndShift: leaves out the daily's deadline and payment, which `ShiftBooks` has.
- DispatchTables.Tables.FailDelivery: leaves out the frozen pay, which `LedgerRuns.FailurePay` has, and the disposition
  of the payment, which `OrderFlows.FailDelivery` has.
- The order in which the program reads the entries of a period or the rows of a batch: the model takes creation order.
- Proposing, withdrawing and listing terms of a running shift; catalogue, imports, listings and transfer objects.

/** The services as they run: transactions that update the rows of one online order in place. */
module OnlineOrders {
  import opened Checkout
  import opened Items
  import opened OperationQueue
  import opened Operations
  import opened OrderFlows
  import opened OrderStatuses
  import opened PaymentData
  import Retry
  import opened SagaInvariant
  import opened SagaSteps
  import opened Snapshots
  import opened Transition
  import opened Wrappers

  datatype TransitionResult = TransitionResult(changed: bool, decision: Decision, operationEnqueued: bool)

  class OnlineOrder {
    var order: Order
    var payment: Payment
    var ops: seq<Operation>
    var amendments: seq<Amendment>
    var events: seq<Event>

    constructor (s: Saga)
      ensures State() == s
    {
      order, payment, ops, amendments, events := s.order, s.payment, s.ops, s.amendments, s.events;
    }

    function State(): Saga
      reads this
    {
      Saga(order, payment, ops, amendments, events)
    }

    /** Undoes everything a failed transaction has written. */
    method Rollback(s: Saga)
      modifies this
      ensures State() == s
    {
      order, payment, ops, amendments, events := s.order, s.payment, s.ops, s.amendments, s.events;
    }

    method Record(status: OrderStatus, note: Note)
      modifies this`events
      ensures events == old(events) + [Event(status, note)]
    {
      events := events + [Event(status, note)];
    }

    // ----- Queue -----

    /** How much is to be refunded in all once a partial refund is done. */
    method PartialRefundTarget(amount: int, existing: Option<nat>, active: Option<nat>)
      returns (r: Result<Option<int>, QueueError>)
      requires existing.Some? ==> existing.value < |ops|
      requires active.Some? ==> active.value < |ops|
      ensures r == PartialTarget(payment, ops, amount, existing, active)
    {
      if active.Some? && ops[active.value].kind.RefundFull? {
        return Err(FullRefundPending);
      }
      if existing.Some? && ops[existing.value].status.Succeeded? {
        var target := ops[existing.value].target;
        if target.None? || target.value < amount || target.value > payment.expected.amount {
          return Err(BusinessKeyConflict);
        }
        return if payment.refundedAmount < target.value then Err(BusinessKeyConflict) else Ok(target);
      }
      var target := MaxTarget(ops, existing, payment.refundedAmount) + amount;
      return if target > payment.expected.amount then Err(TargetExceedsAmount) else Ok(Some(target));
    }

    method EnqueuePaymentOperation(intent: Intent, now: int) returns (r: Result<(nat, bool), QueueError>)
      modifies this`ops
      ensures var spec := Enqueue(payment, old(ops), intent, now);
              match spec
              case Err(e) => r == Err(e) && ops == old(ops)
              case Ok(q) => r == Ok((q.id, q.inserted)) && ops == q.ops
    {
      if !AmountValid(intent) {
        return Err(AmountInvalid);
      }
      var existing := FindKey(ops, intent.key);
      var active := LastActive(ops, existing);
      if NeedsReview(ops) {
        return Err(ChainRequiresReview);
      }
      var target: Result<Option<int>, QueueError> := Ok(None);
      if intent.kind.RefundFull? {
        target := Ok(Some(payment.expected.amount));
      } else if intent.kind.RefundPartial? {
        target := PartialRefundTarget(intent.amount.value, existing, active);
      }
      if target.Err? {
        return Err(target.error);
      }
      if existing.Some? {
        var row := ops[existing.value];
        if row.kind != intent.kind || row.amount != intent.amount || row.target != target.value {
          return Err(BusinessKeyConflict);
        }
        return Ok((existing.value, false));
      }
      ops := ops + [NewOperation(intent, target.value, active, now)];
      return Ok((|ops| - 1, true));
    }

    method EnsureCancelledOrderPaymentDisposition(now: int) returns (r: Result<bool, QueueError>)
      modifies this`ops
      ensures var spec := EnsureDisposition(old(State()), now);
              match spec
              case Err(e) => r == Err(e) && State() == old(State())
              case Ok(d) => r == Ok(d.inserted) && State() == d.saga
    {
      if payment.providerOrderId.None? {
        return Ok(false);
      }
      var intent;
      if payment.status.Pending? {
        intent := Intent(CancelOrder, None, CancelKey);
      } else if payment.status.Approved? {
        intent := Intent(RefundFull, None, RefundFullKey);
      } else {
        return Ok(false);
      }
      var enqueued := EnqueuePaymentOperation(intent, now);
      match enqueued
      case Err(e) => return Err(e);
      case Ok(op) => return Ok(op.1);
    }

    method ClaimPaymentOperationById(i: nat, now: int, owner: nat) returns (claimed: bool)
      requires i < |ops|
      modifies this`ops
      ensures claimed == Claimable(old(ops), i, now)
      ensures ops == if claimed then old(ops)[i := Claimed(old(ops)[i], now, owner)] else old(ops)
    {
      claimed := Claimable(ops, i, now);
      if claimed {
        ops := ops[i := ops[i].(status := OperationStatus.Processing, leaseOwner := Some(owner),
                                leasedUntil := Some(now + LEASE_MS), attempts := ops[i].attempts + 1)];
      }
    }

    // ----- Provider reports -----

    method SettleCancelled(note: Note, changed: bool, d: Decision, now: int)
      returns (r: Result<TransitionResult, QueueError>)
      modifies this`ops, this`events
      ensures match Settle(old(State()), note, changed, d, now)
              case Err(e) => r == Err(e) && State() == old(State())
              case Ok(a) => r == Ok(TransitionResult(a.changed, a.decision, a.enqueued)) && State() == a.saga
    {
      var inserted := EnsureCancelledOrderPaymentDisposition(now);
      if inserted.Err? {
        return Err(inserted.error);
      }
      if inserted.value {
        Record(order.status, note);
      }
      return Ok(TransitionResult(changed || inserted.value, d, inserted.value));
    }

    /** The branch of reports that the money came in, in whole or in part. */
    method ApplyPaidReport(d: Decision, snap: Snapshot, now: int, o: Options)
      returns (r: Result<TransitionResult, QueueError>)
      modifies this
      ensures match ApplyPaid(old(State()), d, snap, now, o)
              case Err(e) => r == Err(e) && State() == old(State())
              case Ok(a) => r == Ok(TransitionResult(a.changed, a.decision, a.enqueued)) && State() == a.saga
    {
      var before := State();
      var already := payment.status.Approved?;
      payment := MarkHealthy(WithProviderFields(payment, snap, now), None)
        .(status := if d.Refunded? then PaymentStatus.Refunded else PaymentStatus.Approved);
      if order.status.Cancelled? && o.ensureCancelledDisposition {
        r := SettleCancelled(LateRefundPending, !already, d, now);
        if r.Err? {
          Rollback(before);
        }
        return;
      }
      if already {
        return Ok(TransitionResult(false, d, false));
      }
      if order.status.AwaitingPayment? && o.releaseOrderOnApproval {
        order := order.(status := OrderStatus.Pending);
        Record(OrderStatus.Pending, PaymentConfirmed);
      }
      return Ok(TransitionResult(true, d, false));
    }

    /** Applies one report; when the queue refuses, the whole transaction is undone. */
    method ApplyProviderSnapshot(snap: Snapshot, taken: TakenIds, now: int, o: Options)
      returns (r: Result<TransitionResult, QueueError>)
      modifies this
      ensures match ApplySnapshot(old(State()), snap, taken, now, o)
              case Err(e) => r == Err(e) && State() == old(State())
              case Ok(a) => r == Ok(TransitionResult(a.changed, a.decision, a.enqueued)) && State() == a.saga
    {
      var before := State();
      var d := Decide(payment, snap, taken);
      if d.Review? {
        var failure := SnapshotFailure(d.code);
        var changed := !payment.reconciliation.ReviewRequired? || payment.failure != Some(failure);
        payment := payment.(providerStatus := Some(snap.orderStatus), lastReconciledAt := Some(now),
                            reconciliation := ReconciliationState.ReviewRequired, failure := Some(failure),
                            nextReconcileAt := None);
        if changed {
          Record(order.status, PaymentUnderReview);
        }
        return Ok(TransitionResult(changed, d, false));
      }
      if payment.status.Refunded? {
        return Ok(TransitionResult(false, d, false));
      }
      if payment.status.Approved? && (d.Pending? || d.Rejected? || d.Cancelled? || d.Expired?) {
        return Ok(TransitionResult(false, d, false));
      }
      if d.Pending? {
        var changed := !payment.reconciliation.Healthy? || payment.providerStatus != Some(snap.orderStatus);
        payment := MarkHealthy(WithProviderFields(payment, snap, now), Some(now + HEALTHY_INTERVAL_MS));
        if order.status.Cancelled? && o.ensureCancelledDisposition {
          r := SettleCancelled(CancellationPending, changed, d, now);
          if r.Err? {
            Rollback(before);
          }
          return;
        }
        return Ok(TransitionResult(changed, d, false));
      }
      if d.Approved? || d.PartiallyRefunded? || d.Refunded? {
        r := ApplyPaidReport(d, snap, now, o);
        return;
      }
      var status := UnpaidStatus(d);
      var changed := payment.status != status;
      payment := MarkHealthy(WithProviderFields(payment, snap, now), None).(status := status);
      if changed && order.status.AwaitingPayment? {
        order := order.(status := OrderStatus.Cancelled);
        Record(OrderStatus.Cancelled, PaymentNotApproved);
      }
      return Ok(TransitionResult(changed, d, false));
    }

    // ----- Running an operation -----

    /** Closes, retries or parks an operation whose answer has been applied. */
    method WriteOutcome(i: nat, op: Operation, outcome: Outcome, now: int) returns (r: Result<(), QueueError>)
      requires i < |ops|
      modifies this
      ensures match FinishOperation(old(State()), i, op, outcome, now)
              case Err(e) => r == Err(e)
              case Ok(s) => r == Ok(()) && State() == s
    {
      match outcome {
        case ToReview =>
          ops := ops[i := Reviewed(op)];
        case TryAgain =>
          var disposition := Retry.Dispose(now, op.attempts, Some(0.1), None);
          if disposition.GiveUp? {
            ops := ops[i := Reviewed(op)];
          } else {
            ops := ops[i := op.(status := OperationStatus.Pending, nextAttemptAt := disposition.at, leaseOwner := None,
                                leasedUntil := None)];
          }
        case EscalateToRefund =>
          if order.status.AwaitingPayment? {
            order := order.(status := OrderStatus.Cancelled);
            Record(OrderStatus.Cancelled, ApprovedAfterCancel);
          }
          var ensured := EnsureCancelledOrderPaymentDisposition(now);
          if ensured.Err? {
            return Err(ensured.error);
          }
          ops := ops[i := op.(status := OperationStatus.Succeeded, result := Some(EscalatedToRefund),
                              leaseOwner := None, leasedUntil := None)];
        case Success(code) =>
          ops := ops[i := op.(status := OperationStatus.Succeeded, result := Some(code), leaseOwner := None,
                              leasedUntil := None)];
      }
      return Ok(());
    }

    /** Applies an answer and closes the operation that asked for it, in one transaction. */
    method SettleSnapshot(i: nat, snap: Snapshot, taken: TakenIds, now: int) returns (r: Result<(), QueueError>)
      requires i < |ops|
      modifies this
      ensures match SettleOperation(old(State()), i, Decide(old(payment), snap, taken), snap, now)
              case Err(e) => r == Err(e) && State() == old(State())
              case Ok(s) => r == Ok(()) && State() == s
    {
      var before := State();
      var op := ops[i];
      AppliedKeepsOps(before, Decide(payment, snap, taken), snap, now, OptionsFor(op.kind));
      var applied := ApplyProviderSnapshot(snap, taken, now, OptionsFor(op.kind));
      if applied.Err? {
        return Err(applied.error);
      }
      var outcome :=
        if applied.value.decision.Review? then ToReview
        else Evaluate(op, applied.value.decision, snap.refundedAmount, payment.expected.amount);
      DecisionIsReported(before, Decide(before.payment, snap, taken), snap, now, OptionsFor(op.kind));
      r := WriteOutcome(i, op, outcome, now);
      if r.Err? {
        Rollback(before);
      }
    }

    method RetryOrPark(i: nat, retryAfter: Option<int>, jitter: Option<real>, now: int)
      requires i < |ops|
      modifies this`ops
      ensures ops == old(ops)[i := Retried(old(ops)[i], now, jitter, retryAfter)]
    {
      var disposition := Retry.Dispose(now, ops[i].attempts, jitter, retryAfter);
      if disposition.GiveUp? {
        ops := ops[i := Reviewed(ops[i])];
      } else {
        ops := ops[i := ops[i].(status := OperationStatus.Pending, nextAttemptAt := disposition.at, leaseOwner := None,
                                leasedUntil := None)];
      }
    }

    /** After an error of the provider: read the order again, and settle or wait. */
    method AfterFailure(i: nat, kind: ProviderFailure, retryAfter: Option<int>, replies: Replies, taken: TakenIds,
        now: int)
      requires i < |ops|
      modifies this
      ensures State() == Perform(old(State()), i, OnFailure(kind, retryAfter, replies.reread), taken, replies.jitter,
                now)
    {
      if Retryable(kind) {
        if replies.reread.Reply? && !ActionRequired(replies.reread.snapshot) {
          var settled := SettleSnapshot(i, replies.reread.snapshot, taken, now);
          if settled.Ok? {
            return;
          }
        }
        RetryOrPark(i, retryAfter, replies.jitter, now);
      } else {
        ops := ops[i := Reviewed(ops[i])];
      }
    }

    /** One run of a worker; nothing happens unless it still holds the operation. */
    method ProcessPaymentOperation(i: nat, owner: nat, replies: Replies, taken: TakenIds, now: int)
      requires i < |ops|
      modifies this
      ensures State() ==
              if old(Mine(i, owner)) then
                Perform(old(State()), i, Plan(old(payment), old(ops)[i], replies), taken, replies.jitter, now)
              else old(State())
    {
      if !Mine(i, owner) {
        return;
      }
      var op := ops[i];
      if payment.providerOrderId.None? {
        ops := ops[i := Reviewed(op)];
        return;
      }
      if op.kind.RefundPartial?
         && (op.amount.None? || op.amount.value == 0
             || op.amount.value > payment.expected.amount - payment.refundedAmount) {
        ops := ops[i := Reviewed(op)];
        return;
      }
      if op.kind.CancelOrder? {
        if replies.current.Failed? {
          AfterFailure(i, replies.current.kind, replies.current.retryAfter, replies, taken, now);
          return;
        }
        if !ActionRequired(replies.current.snapshot) {
          var _ := SettleSnapshot(i, replies.current.snapshot, taken, now);
          return;
        }
      }
      if replies.mutation.Failed? {
        AfterFailure(i, replies.mutation.kind, replies.mutation.retryAfter, replies, taken, now);
      } else {
        var _ := SettleSnapshot(i, replies.mutation.snapshot, taken, now);
      }
    }

    predicate Mine(i: nat, owner: nat)
      requires i < |ops|
      reads this
    {
      ops[i].status.Processing? && ops[i].leaseOwner == Some(owner)
    }

    // ----- Cancelling -----

    method CancelAndDispose(who: Actor, now: int) returns (r: Result<(), FlowError>)
      modifies this
      ensures match CancelNow(old(State()), who, now)
              case Err(e) => r == Err(e) && State() == old(State())
              case Ok(s) => r == Ok(()) && State() == s
    {
      var before := State();
      order := order.(status := OrderStatus.Cancelled);
      Record(OrderStatus.Cancelled, CancelledBy(who));
      amendments := ExpireProposed(amendments);
      var ensured := EnsureCancelledOrderPaymentDisposition(now);
      if ensured.Err? {
        Rollback(before);
        return Err(QueueFailed(ensured.error));
      }
      return Ok(());
    }

    method CancelCustomerOrder(now: int) returns (r: Result<(), FlowError>)
      modifies this
      ensures match CustomerCancel(old(State()), now)
              case Err(e) => r == Err(e) && State() == old(State())
              case Ok(s) => r == Ok(()) && State() == s
    {
      if order.status.Cancelled? {
        var ensured := EnsureCancelledOrderPaymentDisposition(now);
        return if ensured.Err? then Err(QueueFailed(ensured.error)) else Ok(());
      }
      if !order.status.AwaitingPayment? && !order.status.Pending? {
        return Err(Refused);
      }
      r := CancelAndDispose(Customer, now);
    }

    method ExpireAwaitingPayment(now: int) returns (r: Result<(), FlowError>)
      modifies this
      ensures match ExpireAwaiting(old(State()), now)
              case Err(e) => r == Err(e) && State() == old(State())
              case Ok(s) => r == Ok(()) && State() == s
    {
      if !payment.status.Pending? || payment.expiresAt.None? || payment.expiresAt.value > now {
        return Ok(());
      }
      if order.status.Cancelled? {
        var ensured := EnsureCancelledOrderPaymentDisposition(now);
        return if ensured.Err? then Err(QueueFailed(ensured.error)) else Ok(());
      }
      if !order.status.AwaitingPayment? {
        return Ok(());
      }
      r := CancelAndDispose(System, now);
    }

    // ----- Amendments -----

    method ProposeAmendment(changes: seq<Change>) returns (r: Result<(), FlowError>)
      modifies this`amendments
      ensures match Propose(old(State()), changes)
              case Err(e) => r == Err(e) && State() == old(State())
              case Ok(s) => r == Ok(()) && State() == s
    {
      if !Proposable(order.status) || PendingAmendment(amendments).Some? {
        return Err(Refused);
      }
      var reduced := false;
      for k := 0 to |changes|
        invariant OnlyReduces(order.items, changes[..k])
        invariant reduced == ReducesSomething(order.items, changes[..k])
        invariant State() == old(State())
      {
        assert changes[..k + 1] == changes[..k] + [changes[k]];
        var item := FindItem(order.items, changes[k].item);
        if item.None? || changes[k].newQuantity > item.value.quantity {
          assert changes[k] in changes;
          return Err(Refused);
        }
        if changes[k].newQuantity < item.value.quantity {
          reduced := true;
        }
      }
      assert changes[..|changes|] == changes;
      if !reduced {
        return Err(Refused);
      }
      var newSubtotal := SubtotalAfter(order.items, changes);
      if newSubtotal == 0 {
        return Err(Refused);
      }
      var newTotal := newSubtotal + order.deliveryFee;
      amendments := amendments
        + [Amendment(Proposed, newSubtotal, newTotal, order.total - newTotal, Frozen(order.items, changes))];
      return Ok(());
    }

    method ApproveAmendment(now: int) returns (r: Result<(), FlowError>)
      modifies this
      ensures match Approve(old(State()), now)
              case Err(e) => r == Err(e) && State() == old(State())
              case Ok(s) => r == Ok(()) && State() == s
    {
      var before := State();
      if !Proposable(order.status) {
        return Err(Refused);
      }
      var pending := PendingAmendment(amendments);
      if pending.None? {
        return Err(Refused);
      }
      var i := pending.value;
      var a := amendments[i];
      amendments := amendments[i := a.(status := AmendmentStatus.Approved)];
      var items := order.items;
      for k := 0 to |a.changes|
        invariant ApplyChanges(items, a.changes[k..]) == ApplyChanges(before.order.items, a.changes)
      {
        assert a.changes[k..][1..] == a.changes[k + 1..];
        items := ApplyChange(items, a.changes[k]);
      }
      order := order.(items := items, subtotal := a.newSubtotal, total := a.newTotal);
      if a.refund > 0 && payment.status.Approved? {
        var enqueued := EnqueuePaymentOperation(PartialIntent(i, a.refund), now);
        if enqueued.Err? {
          Rollback(before);
          return Err(QueueFailed(enqueued.error));
        }
        Record(order.status, PartialRefund(a.refund));
      }
      Record(order.status, Amended(a.refund));
      return Ok(());
    }

    method RejectAmendment(now: int) returns (r: Result<(), FlowError>)
      modifies this
      ensures match Reject(old(State()), now)
              case Err(e) => r == Err(e) && State() == old(State())
              case Ok(s) => r == Ok(()) && State() == s
    {
      var before := State();
      if !Proposable(order.status) {
        return Err(Refused);
      }
      var pending := PendingAmendment(amendments);
      if pending.None? {
        return Err(Refused);
      }
      amendments := amendments[pending.value := amendments[pending.value].(status := AmendmentStatus.Rejected)];
      order := order.(status := OrderStatus.Cancelled);
      var ensured := EnsureCancelledOrderPaymentDisposition(now);
      if ensured.Err? {
        Rollback(before);
        return Err(QueueFailed(ensured.error));
      }
      Record(OrderStatus.Cancelled, AmendmentRefused);
      return Ok(());
    }

    // ----- Recovery of an uncertain checkout -----

    /** Writes only while the creation is uncertain, and says whether it did. */
    method PersistRecoveryReview(failure: ReconciliationFailure, announced: bool, now: int) returns (applied: bool)
      modifies this
      ensures applied == Uncertain(old(payment))
      ensures State() == Recover(old(State()), SendToReview(failure, announced), TakenIds({}, {}), now)
    {
      if !Uncertain(payment) {
        return false;
      }
      var changed := !payment.reconciliation.ReviewRequired? || payment.failure != Some(failure);
      payment := payment.(reconciliation := ReconciliationState.ReviewRequired, failure := Some(failure),
                          nextReconcileAt := None, lastReconciledAt := Some(now));
      if announced && changed {
        Record(order.status, PaymentUnderReview);
      }
      return true;
    }

    method CurrentRecoveryOutcome(fallback: RecoveryOutcome) returns (outcome: RecoveryOutcome)
      ensures fallback == RowOutcome(payment) || !Uncertain(payment) ==> outcome == RowOutcome(payment)
    {
      if !Uncertain(payment) {
        return Recovered;
      }
      if payment.reconciliation.ReviewRequired? {
        return ToBeReviewed;
      }
      return fallback;
    }

    /** The number of attempts is the one that was read before the provider was asked. */
    method ScheduleCreateRecoveryRetry(failure: ReconciliationFailure, attempts: nat, retryAfter: Option<int>,
        announced: bool, now: int)
      returns (outcome: RecoveryOutcome)
      modifies this
      ensures State() == Recover(old(State()), WaitUntil(failure, attempts, retryAfter, announced),
                                 TakenIds({}, {}), now)
      ensures outcome == RowOutcome(payment)
    {
      var retry := Retry.Dispose(now, attempts, Some(0.1), retryAfter);
      if retry.GiveUp? {
        outcome := ReviewOrCurrent(RetryExhausted, announced, now);
        return;
      }
      var fallback := if payment.expected.paymentMethod.Pix? then RetryPix else RetryCard;
      if !Uncertain(payment) {
        outcome := CurrentRecoveryOutcome(fallback);
        return;
      }
      payment := payment.(reconciliation := ReconciliationState.Pending, failure := Some(failure),
                          nextReconcileAt := Some(retry.at), lastReconciledAt := Some(now));
      return fallback;
    }

    method ReviewOrCurrent(failure: ReconciliationFailure, announced: bool, now: int)
      returns (outcome: RecoveryOutcome)
      modifies this
      ensures State() == Recover(old(State()), SendToReview(failure, announced), TakenIds({}, {}), now)
      ensures outcome == RowOutcome(payment)
    {
      var applied := PersistRecoveryReview(failure, announced, now);
      if applied {
        return ToBeReviewed;
      }
      outcome := CurrentRecoveryOutcome(ToBeReviewed);
    }

    method UseReport(snap: Snapshot, taken: TakenIds, now: int) returns (outcome: RecoveryOutcome)
      requires Inv(State())
      modifies this
      ensures State() == Recover(old(State()), Use(snap), taken, now)
      ensures outcome == RowOutcome(payment)
    {
      if !Uncertain(payment) {
        outcome := CurrentRecoveryOutcome(ToBeReviewed);
        return;
      }
      ghost var s := State();
      if |ops| > 0 {
        OperationsNeedTheProvider(s);
      }
      ApplyFailsOnlyUnderReview(s, Decide(payment, snap, taken), snap, now, DEFAULTS);
      RecoveryOutcomes(s, Use(snap), taken, now);
      var applied := ApplyProviderSnapshot(snap, taken, now, DEFAULTS);
      return if applied.value.decision.Review? then ToBeReviewed else Recovered;
    }

    /**
     * Finds out what became of an uncertain creation. Since the row was read as `seen`, and while the provider was
     * asked, anything may have happened to it. The outcome tells exactly what the row looks like in the end: recovered
     * when nothing is uncertain any more, a retry with a later appointment, or a review.
     */
    method RecoverUncertainCreate(seen: Payment, r: RecoveryReplies, taken: TakenIds, now: int)
      returns (outcome: RecoveryOutcome)
      requires Inv(State()) && seen.expected.paymentMethod == payment.expected.paymentMethod
      requires !seen.expected.paymentMethod.Unknown?
      modifies this
      ensures State() == Recover(old(State()), PlanRecovery(seen, old(State()), r, now), taken, now)
      ensures Inv(State())
      ensures outcome == RowOutcome(payment)
    {
      RecoveryKeepsInvariant(State(), PlanRecovery(seen, State(), r, now), taken, now);
      var attempts := seen.reconciliationAttempts;
      if r.search.Broken? {
        if RequiresRecovery(r.search.kind) {
          outcome := ScheduleCreateRecoveryRetry(ProviderFailed(r.search.kind.value), attempts, r.search.retryAfter,
                                                 true, now);
        } else {
          outcome := ReviewOrCurrent(FailureOr(r.search.kind, SearchFailed), true, now);
        }
        return;
      }
      if |r.search.value| > 1 {
        outcome := ReviewOrCurrent(AmbiguousProviderCreate, true, now);
        return;
      }
      if |r.search.value| == 0 && seen.expected.paymentMethod.Card? {
        outcome := ScheduleCreateRecoveryRetry(FailureOr(r.trigger, CreateNotVisible), attempts, r.triggerRetryAfter,
                                               true, now);
        return;
      }
      if |r.search.value| == 0 {
        outcome := RecreatePix(seen, r, taken, now);
        return;
      }
      if r.read.Got? {
        outcome := UseReport(r.read.value, taken, now);
      } else if RequiresRecovery(r.read.kind) || r.read.kind == Some(OrderNotFound) {
        outcome := ScheduleCreateRecoveryRetry(ProviderFailed(r.read.kind.value), attempts, r.read.retryAfter, true,
                                               now);
      } else {
        outcome := ReviewOrCurrent(FailureOr(r.read.kind, AuthoritativeReadFailed), true, now);
      }
    }

    /** The provider knows no such pix order: expire it, or create it again under the same key, all under the lock. */
    method RecreatePix(seen: Payment, r: RecoveryReplies, taken: TakenIds, now: int)
      returns (outcome: RecoveryOutcome)
      requires Inv(State()) && seen.expected.paymentMethod == payment.expected.paymentMethod
      requires payment.expected.paymentMethod.Pix? && r.search.Got? && |r.search.value| == 0
      modifies this
      ensures State() == Recover(old(State()), PlanRecovery(seen, old(State()), r, now), taken, now)
      ensures outcome == RowOutcome(payment)
    {
      if !Uncertain(payment) {
        return Recovered;
      }
      var attempts := payment.reconciliationAttempts;
      if order.status.Cancelled? {
        outcome := ScheduleCreateRecoveryRetry(CancelledCreateSearchPending, attempts, None, false, now);
        return;
      }
      if payment.expiresAt.Some? && payment.expiresAt.value <= now {
        payment := payment.(status := PaymentStatus.Expired, reconciliation := ReconciliationState.Healthy,
                            failure := None, nextReconcileAt := None, lastReconciledAt := Some(now));
        if order.status.AwaitingPayment? {
          order := order.(status := OrderStatus.Cancelled);
          Record(OrderStatus.Cancelled, PaymentNotApproved);
        }
        return Recovered;
      }
      if !r.payerKnown {
        outcome := ReviewOrCurrent(PayerNotFound, false, now);
        return;
      }
      var answer: Answer<Snapshot> := r.create;
      if r.account.Broken? {
        answer := Broken(r.account.kind, r.account.retryAfter);
      } else if r.account.value != payment.expected.accountId {
        answer := Broken(Some(CredentialOrConfig), None);
      }
      if answer.Got? {
        outcome := UseReport(answer.value, taken, now);
      } else if RequiresRecovery(answer.kind) {
        outcome := ScheduleCreateRecoveryRetry(ProviderFailed(answer.kind.value), attempts, answer.retryAfter, false,
                                               now);
      } else {
        outcome := ReviewOrCurrent(FailureOr(answer.kind, CreateFailed), false, now);
      }
    }
  }
}

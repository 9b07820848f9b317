/** What applying a report writes, column by column. */
module TransitionLaws {
  import opened OrderStatuses
  import opened PaymentData
  import opened SnapshotLaws
  import opened Snapshots
  import opened Transition
  import opened Wrappers

  /** The report carries the payment's own provider ids, if any are stored, and none of another payment. */
  predicate OwnIds(p: Payment, snap: Snapshot, taken: TakenIds) {
    && (p.providerOrderId == None || p.providerOrderId == Some(snap.providerOrderId))
    && (p.providerTransactionId == None || p.providerTransactionId == Some(snap.providerTransactionId))
    && snap.providerOrderId !in taken.orders && snap.providerTransactionId !in taken.transactions
  }

  /** A valid report is decided as it says if and only if its ids are the payment's own. */
  lemma DecideExactly(p: Payment, snap: Snapshot, taken: TakenIds)
    ensures var d := ValidateSnapshot(snap, p.expected);
            Decide(p, snap, taken) ==
              if !d.Review? && !OwnIds(p, snap, taken) then Review(MismatchProviderIds) else d
  {
  }

  // ----- Which reports are acted on -----

  /** Whether a decision says that the money came in. */
  predicate SaysPaid(d: Decision) {
    d.Approved? || d.PartiallyRefunded? || d.Refunded?
  }

  predicate SaysUnpaid(d: Decision) {
    d.Rejected? || d.Cancelled? || d.Expired?
  }

  /** No report moves a refunded payment, and only reports of money move an approved one. */
  predicate Moves(p: Payment, d: Decision) {
    match p.status
    case Refunded => false
    case Approved => SaysPaid(d)
    case _ => SaysPaid(d) || SaysUnpaid(d) || d.Pending?
  }

  // ----- The payment -----

  function StatusAfter(p: Payment, d: Decision): PaymentStatus {
    match d
    case Approved => PaymentStatus.Approved
    case PartiallyRefunded(_) => PaymentStatus.Approved
    case Refunded => PaymentStatus.Refunded
    case Rejected => PaymentStatus.Rejected
    case Cancelled => PaymentStatus.Cancelled
    case Expired => PaymentStatus.Expired
    case _ => p.status
  }

  /** Every column of the payment after a report that moves it. */
  predicate Written(p: Payment, q: Payment, d: Decision, snap: Snapshot, now: int) {
    && q.status == StatusAfter(p, d)
    && q.expected == p.expected
    && q.providerOrderId == Some(snap.providerOrderId)
    && q.providerTransactionId == Some(snap.providerTransactionId)
    && q.providerStatus == Some(snap.orderStatus)
    && q.refundedAmount == snap.refundedAmount
    && q.reconciliation.Healthy? && q.failure == None && q.reconciliationAttempts == 0
    && q.nextReconcileAt == (if d.Pending? then Some(now + 300_000) else None)
    && q.lastReconciledAt == Some(now)
    && q.expiresAt == if snap.pix.Some? && snap.pix.value.expiresAt.Some? then snap.pix.value.expiresAt else p.expiresAt
  }

  /** And after one that is not accepted. */
  predicate Questioned(p: Payment, q: Payment, code: ReviewCode, snap: Snapshot, now: int) {
    q == p.(reconciliation := ReconciliationState.ReviewRequired, failure := Some(SnapshotFailure(code)),
            nextReconcileAt := None, lastReconciledAt := Some(now), providerStatus := Some(snap.orderStatus))
  }

  lemma EnsureKeepsRows(s: Saga, now: int)
    ensures var r := EnsureDisposition(s, now);
            r.Ok? ==> r.value.saga == s.(ops := r.value.saga.ops)
  {
  }

  lemma SettleKeepsRows(s: Saga, note: Note, changed: bool, d: Decision, now: int)
    ensures var r := Settle(s, note, changed, d, now);
            r.Ok? ==> r.value.saga.payment == s.payment && r.value.saga.order == s.order
                      && r.value.saga.amendments == s.amendments
  {
    EnsureKeepsRows(s, now);
  }

  lemma PendingWritten(s: Saga, d: Decision, snap: Snapshot, now: int, o: Options)
    requires d.Pending? && ApplyPending(s, d, snap, now, o).Ok?
    ensures var next := ApplyPending(s, d, snap, now, o).value.saga;
            Written(s.payment, next.payment, d, snap, now) && next.order == s.order && next.amendments == s.amendments
  {
    var p := MarkHealthy(WithProviderFields(s.payment, snap, now), Some(now + 300_000));
    var changed := !s.payment.reconciliation.Healthy? || s.payment.providerStatus != Some(snap.orderStatus);
    SettleKeepsRows(s.(payment := p), CancellationPending, changed, d, now);
  }

  lemma PaidWritten(s: Saga, d: Decision, snap: Snapshot, now: int, o: Options)
    requires SaysPaid(d) && ApplyPaid(s, d, snap, now, o).Ok?
    ensures var next := ApplyPaid(s, d, snap, now, o).value.saga;
            && Written(s.payment, next.payment, d, snap, now)
            && next.order == s.order.(status := next.order.status) && next.amendments == s.amendments
  {
    var status := if d.Refunded? then PaymentStatus.Refunded else PaymentStatus.Approved;
    var p := MarkHealthy(WithProviderFields(s.payment, snap, now), None).(status := status);
    SettleKeepsRows(s.(payment := p), LateRefundPending, !s.payment.status.Approved?, d, now);
  }

  lemma UnpaidWritten(s: Saga, d: Decision, snap: Snapshot, now: int)
    requires SaysUnpaid(d)
    ensures var next := ApplyUnpaid(s, d, snap, now).saga;
            && Written(s.payment, next.payment, d, snap, now)
            && next.order == s.order.(status := next.order.status) && next.amendments == s.amendments
  {
  }

  /** The payment after a report, and the order's items and amounts, which no report touches. */
  lemma PaymentWritten(s: Saga, d: Decision, snap: Snapshot, now: int, o: Options)
    requires ApplyDecision(s, d, snap, now, o).Ok?
    ensures var next := ApplyDecision(s, d, snap, now, o).value.saga;
            && next.amendments == s.amendments && next.order == s.order.(status := next.order.status)
            && (if d.Review? then Questioned(s.payment, next.payment, d.code, snap, now)
                else if Moves(s.payment, d) then Written(s.payment, next.payment, d, snap, now)
                else next.payment == s.payment)
  {
    if !d.Review? && Moves(s.payment, d) {
      if d.Pending? {
        PendingWritten(s, d, snap, now, o);
      } else if SaysPaid(d) {
        PaidWritten(s, d, snap, now, o);
      } else {
        UnpaidWritten(s, d, snap, now);
      }
    }
  }

  // ----- The order -----

  /**
   * Money releases an order that waits for it, and a payment that ends unpaid cancels it. Otherwise the order's status
   * stays.
   */
  lemma OrderWritten(s: Saga, d: Decision, snap: Snapshot, now: int, o: Options)
    requires ApplyDecision(s, d, snap, now, o).Ok?
    ensures var before, after := s.order.status, ApplyDecision(s, d, snap, now, o).value.saga.order.status;
            && (before.AwaitingPayment? && after == OrderStatus.Pending <==>
                  && before.AwaitingPayment? && Moves(s.payment, d) && SaysPaid(d) && !s.payment.status.Approved?
                  && o.releaseOrderOnApproval)
            && (before.AwaitingPayment? && after == OrderStatus.Cancelled <==>
                  && before.AwaitingPayment? && Moves(s.payment, d) && SaysUnpaid(d)
                  && s.payment.status != StatusAfter(s.payment, d))
            && (after != before ==>
                  before.AwaitingPayment? && (after == OrderStatus.Pending || after == OrderStatus.Cancelled))
  {
  }

  /** An order is released only by a report that says processed, refunded, or that something was partially refunded. */
  lemma ReleasedOnlyByPaidReports(s: Saga, snap: Snapshot, taken: TakenIds, now: int, o: Options)
    requires ApplySnapshot(s, snap, taken, now, o).Ok? && s.order.status.AwaitingPayment?
    requires ApplySnapshot(s, snap, taken, now, o).value.saga.order.status == OrderStatus.Pending
    ensures Says(snap, "processed") || Says(snap, "refunded") || Mentions(snap, "partially_refunded")
    ensures Identified(snap, s.payment.expected) && OwnIds(s.payment, snap, taken) && !ChargedBack(snap)
  {
    DecideExactly(s.payment, snap, taken);
    DecidedExactly(snap, s.payment.expected);
    OrderWritten(s, Decide(s.payment, snap, taken), snap, now, o);
  }

  /** And it is released by one that says so of its own payment, in a transaction of the store's checkout. */
  lemma PaidReportsRelease(s: Saga, snap: Snapshot, taken: TakenIds, now: int)
    requires s.order.status.AwaitingPayment? && s.payment.status.Pending?
    requires Identified(snap, s.payment.expected) && OwnIds(s.payment, snap, taken)
    requires Plain(snap) && !SaysRejected(snap) && SaysAccredited(snap)
    ensures ApplySnapshot(s, snap, taken, now, DEFAULTS).Ok?
    ensures var next := ApplySnapshot(s, snap, taken, now, DEFAULTS).value.saga;
            next.order.status == OrderStatus.Pending && next.payment.status == PaymentStatus.Approved
            && next.events == s.events + [Event(OrderStatus.Pending, PaymentConfirmed)] && next.ops == s.ops
  {
    DecideExactly(s.payment, snap, taken);
    DecidedExactly(snap, s.payment.expected);
  }

  // ----- Operations and events -----

  /** The operation that a cancelled order needs for a payment as it is written. */
  function Needed(p: Payment): Option<(OperationKind, BusinessKey)> {
    if p.providerOrderId == None then None
    else if p.status == PaymentStatus.Pending then Some((CancelOrder, CancelKey))
    else if p.status == PaymentStatus.Approved then Some((RefundFull, RefundFullKey))
    else None
  }

  /** The operations after asking for one: found again under its key, or put last, to be due at once. */
  ghost predicate Asked(before: seq<Operation>, after: seq<Operation>, kind: OperationKind, key: BusinessKey,
                        amount: int, now: int)
  {
    if exists op :: op in before && op.key == key then after == before
    else
      && |after| == |before| + 1 && after[..|before|] == before
      && var op := after[|before|];
         op.kind == kind && op.key == key && op.amount == None && op.status == OperationStatus.Pending
         && op.attempts == 0 && op.nextAttemptAt == now
         && op.target == if kind == RefundFull then Some(amount) else None
  }

  lemma DispositionAsks(s: Saga, now: int)
    requires EnsureDisposition(s, now).Ok?
    ensures var r := EnsureDisposition(s, now).value;
            && (Needed(s.payment).None? ==> r.saga.ops == s.ops && !r.inserted)
            && (Needed(s.payment).Some? ==>
                  && Asked(s.ops, r.saga.ops, Needed(s.payment).value.0, Needed(s.payment).value.1,
                           s.payment.expected.amount, now)
                  && (r.inserted <==> r.saga.ops != s.ops))
  {
  }

  /** A report queues an operation exactly for a cancelled order, and then the one that the payment calls for. */
  lemma OperationsWritten(s: Saga, d: Decision, snap: Snapshot, now: int, o: Options)
    requires ApplyDecision(s, d, snap, now, o).Ok?
    ensures var r := ApplyDecision(s, d, snap, now, o).value;
            var need := Needed(r.saga.payment);
            var asks := s.order.status == OrderStatus.Cancelled && o.ensureCancelledDisposition && Moves(s.payment, d)
                        && !SaysUnpaid(d) && need.Some?;
            && (r.enqueued <==> r.saga.ops != s.ops)
            && if asks then Asked(s.ops, r.saga.ops, need.value.0, need.value.1, s.payment.expected.amount, now)
               else r.saga.ops == s.ops
  {
    PaymentWritten(s, d, snap, now, o);
    if !d.Review? && Moves(s.payment, d) && !SaysUnpaid(d) {
      var p := ApplyDecision(s, d, snap, now, o).value.saga.payment;
      if s.order.status.Cancelled? && o.ensureCancelledDisposition {
        AskedForPayment(s, d, snap, now, o, p);
      }
    }
  }

  lemma AskedForPayment(s: Saga, d: Decision, snap: Snapshot, now: int, o: Options, p: Payment)
    requires ApplyDecision(s, d, snap, now, o).Ok? && p == ApplyDecision(s, d, snap, now, o).value.saga.payment
    requires !d.Review? && Moves(s.payment, d) && !SaysUnpaid(d)
    requires s.order.status.Cancelled? && o.ensureCancelledDisposition
    ensures EnsureDisposition(s.(payment := p), now).Ok?
    ensures var r := ApplyDecision(s, d, snap, now, o).value;
            var ensured := EnsureDisposition(s.(payment := p), now).value;
            r.saga.ops == ensured.saga.ops && r.enqueued == ensured.inserted
    ensures Needed(p).Some? ==>
              Asked(s.ops, EnsureDisposition(s.(payment := p), now).value.saga.ops, Needed(p).value.0,
                    Needed(p).value.1, p.expected.amount, now)
    ensures EnsureDisposition(s.(payment := p), now).value.inserted <==>
              EnsureDisposition(s.(payment := p), now).value.saga.ops != s.ops
  {
    if d.Pending? {
      PendingWritten(s, d, snap, now, o);
      assert p == MarkHealthy(WithProviderFields(s.payment, snap, now), Some(now + 300_000));
    } else {
      PaidWritten(s, d, snap, now, o);
      var status := if d.Refunded? then PaymentStatus.Refunded else PaymentStatus.Approved;
      assert p == MarkHealthy(WithProviderFields(s.payment, snap, now), None).(status := status);
    }
    DispositionAsks(s.(payment := p), now);
  }

  /** One event at most, and which one. */
  lemma EventsWritten(s: Saga, d: Decision, snap: Snapshot, now: int, o: Options)
    requires ApplyDecision(s, d, snap, now, o).Ok?
    ensures var r := ApplyDecision(s, d, snap, now, o).value;
            var before, after := s.order.status, r.saga.order.status;
            r.saga.events ==
              s.events
              + if before != after && after == OrderStatus.Pending then [Event(OrderStatus.Pending, PaymentConfirmed)]
                else if before != after then [Event(OrderStatus.Cancelled, PaymentNotApproved)]
                else if r.enqueued then
                  [Event(OrderStatus.Cancelled, if d.Pending? then CancellationPending else LateRefundPending)]
                else if d.Review? && !(s.payment.reconciliation.ReviewRequired?
                                       && s.payment.failure == Some(SnapshotFailure(d.code))) then
                  [Event(before, PaymentUnderReview)]
                else []
  {
  }
}

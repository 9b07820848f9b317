/** How one provider report moves an order and its payment. */
module Transition {
  import opened OperationQueue
  import opened OrderStatuses
  import opened PaymentData
  import opened Snapshots
  import opened Wrappers

  const HEALTHY_INTERVAL_MS := 5 * 60_000

  datatype Options = Options(ensureCancelledDisposition: bool, releaseOrderOnApproval: bool)

  const DEFAULTS := Options(true, true)

  datatype Disposed = Disposed(saga: Saga, inserted: bool)

  datatype Applied = Applied(saga: Saga, changed: bool, decision: Decision, enqueued: bool)

  function AddEvent(s: Saga, status: OrderStatus, note: Note): Saga {
    s.(events := s.events + [Event(status, note)])
  }

  function SetOrderStatus(s: Saga, status: OrderStatus): Saga {
    s.(order := s.order.(status := status))
  }

  // ----- What a cancelled order owes its payment -----

  /** A payment the provider knows is cancelled while pending and refunded once approved. */
  function DispositionIntent(p: Payment): Option<Intent> {
    if p.providerOrderId.None? then None
    else if p.status.Pending? then Some(Intent(CancelOrder, None, CancelKey))
    else if p.status.Approved? then Some(Intent(RefundFull, None, RefundFullKey))
    else None
  }

  function EnsureDisposition(s: Saga, now: int): Result<Disposed, QueueError> {
    var intent := DispositionIntent(s.payment);
    if intent.None? then Ok(Disposed(s, false))
    else
      var r := Enqueue(s.payment, s.ops, intent.value, now);
      if r.Err? then Err(r.error) else Ok(Disposed(s.(ops := r.value.ops), r.value.inserted))
  }

  // ----- Applying a report -----

  /** The decision about a report, once the stored and the taken provider ids are compared too. */
  function Decide(p: Payment, snap: Snapshot, taken: TakenIds): Decision {
    var d := ValidateSnapshot(snap, p.expected);
    if d.Review? then d
    else if || (p.providerOrderId.Some? && p.providerOrderId.value != snap.providerOrderId)
            || (p.providerTransactionId.Some? && p.providerTransactionId.value != snap.providerTransactionId) then
      Review(MismatchProviderIds)
    else if snap.providerOrderId in taken.orders || snap.providerTransactionId in taken.transactions then
      Review(MismatchProviderIds)
    else d
  }

  function WithProviderFields(p: Payment, snap: Snapshot, now: int): Payment {
    p.(providerOrderId := Some(snap.providerOrderId),
       providerTransactionId := Some(snap.providerTransactionId),
       providerStatus := Some(snap.orderStatus),
       refundedAmount := snap.refundedAmount,
       expiresAt := if snap.pix.Some? && snap.pix.value.expiresAt.Some? then snap.pix.value.expiresAt else p.expiresAt,
       lastReconciledAt := Some(now))
  }

  function MarkHealthy(p: Payment, next: Option<int>): Payment {
    p.(reconciliation := ReconciliationState.Healthy, failure := None, reconciliationAttempts := 0,
       nextReconcileAt := next)
  }

  function UnderReview(p: Payment, failure: ReconciliationFailure, now: int): Payment {
    p.(reconciliation := ReconciliationState.ReviewRequired, failure := Some(failure), nextReconcileAt := None,
       lastReconciledAt := Some(now))
  }

  function UnpaidStatus(d: Decision): PaymentStatus
    requires d.Rejected? || d.Cancelled? || d.Expired?
  {
    match d
    case Rejected => PaymentStatus.Rejected
    case Cancelled => PaymentStatus.Cancelled
    case Expired => PaymentStatus.Expired
  }

  /** Tells of a disposition that is new; the status is that of the cancelled order. */
  function Announce(r: Result<Disposed, QueueError>, note: Note, changed: bool, d: Decision)
    : Result<Applied, QueueError>
  {
    if r.Err? then Err(r.error)
    else if r.value.inserted then
      Ok(Applied(AddEvent(r.value.saga, r.value.saga.order.status, note), true, d, true))
    else Ok(Applied(r.value.saga, changed, d, false))
  }

  function Settle(s: Saga, note: Note, changed: bool, d: Decision, now: int): Result<Applied, QueueError> {
    Announce(EnsureDisposition(s, now), note, changed, d)
  }

  function ApplyReview(s: Saga, code: ReviewCode, snap: Snapshot, now: int): Applied {
    var failure := SnapshotFailure(code);
    var changed := !s.payment.reconciliation.ReviewRequired? || s.payment.failure != Some(failure);
    var p := UnderReview(s.payment, failure, now).(providerStatus := Some(snap.orderStatus));
    var next := s.(payment := p);
    Applied(if changed then AddEvent(next, s.order.status, PaymentUnderReview) else next, changed, Review(code), false)
  }

  function ApplyPending(s: Saga, d: Decision, snap: Snapshot, now: int, o: Options): Result<Applied, QueueError> {
    var changed := !s.payment.reconciliation.Healthy? || s.payment.providerStatus != Some(snap.orderStatus);
    var p := MarkHealthy(WithProviderFields(s.payment, snap, now), Some(now + HEALTHY_INTERVAL_MS));
    var next := s.(payment := p);
    if s.order.status.Cancelled? && o.ensureCancelledDisposition then Settle(next, CancellationPending, changed, d, now)
    else Ok(Applied(next, changed, d, false))
  }

  function ApplyPaid(s: Saga, d: Decision, snap: Snapshot, now: int, o: Options): Result<Applied, QueueError> {
    var already := s.payment.status.Approved?;
    var status := if d.Refunded? then PaymentStatus.Refunded else PaymentStatus.Approved;
    var p := MarkHealthy(WithProviderFields(s.payment, snap, now), None).(status := status);
    var next := s.(payment := p);
    if s.order.status.Cancelled? && o.ensureCancelledDisposition then Settle(next, LateRefundPending, !already, d, now)
    else if already then Ok(Applied(next, false, d, false))
    else if s.order.status.AwaitingPayment? && o.releaseOrderOnApproval then
      var released := AddEvent(SetOrderStatus(next, OrderStatus.Pending), OrderStatus.Pending, PaymentConfirmed);
      Ok(Applied(released, true, d, false))
    else Ok(Applied(next, true, d, false))
  }

  function ApplyUnpaid(s: Saga, d: Decision, snap: Snapshot, now: int): Applied
    requires d.Rejected? || d.Cancelled? || d.Expired?
  {
    var status := UnpaidStatus(d);
    var changed := s.payment.status != status;
    var p := MarkHealthy(WithProviderFields(s.payment, snap, now), None).(status := status);
    var next := s.(payment := p);
    if changed && s.order.status.AwaitingPayment? then
      var cancelled := SetOrderStatus(next, OrderStatus.Cancelled);
      Applied(AddEvent(cancelled, OrderStatus.Cancelled, PaymentNotApproved), changed, d, false)
    else Applied(next, changed, d, false)
  }

  /** Refunded payments are left alone, and approved ones are not made unpaid again. */
  predicate ActedOn(p: Payment, d: Decision) {
    && !d.Review? && !p.status.Refunded?
    && !(p.status.Approved? && (d.Pending? || d.Rejected? || d.Cancelled? || d.Expired?))
  }

  function ApplyDecision(s: Saga, d: Decision, snap: Snapshot, now: int, o: Options): Result<Applied, QueueError> {
    if d.Review? then Ok(ApplyReview(s, d.code, snap, now))
    else if !ActedOn(s.payment, d) then Ok(Applied(s, false, d, false))
    else if d.Pending? then ApplyPending(s, d, snap, now, o)
    else if d.Approved? || d.PartiallyRefunded? || d.Refunded? then ApplyPaid(s, d, snap, now, o)
    else Ok(ApplyUnpaid(s, d, snap, now))
  }

  function ApplySnapshot(s: Saga, snap: Snapshot, taken: TakenIds, now: int, o: Options): Result<Applied, QueueError> {
    ApplyDecision(s, Decide(s.payment, snap, taken), snap, now, o)
  }

  /** The result of an application names the decision it was made with. */
  lemma DecisionIsReported(s: Saga, d: Decision, snap: Snapshot, now: int, o: Options)
    ensures ApplyDecision(s, d, snap, now, o).Ok? ==> ApplyDecision(s, d, snap, now, o).value.decision == d
  {
  }

  /** What is known of a decision that is not a review. */
  ghost predicate Sound(p: Payment, d: Decision, snap: Snapshot, taken: TakenIds) {
    !d.Review? ==>
      && 0 <= snap.refundedAmount <= p.expected.amount
      && (d.Refunded? ==> snap.refundedAmount == p.expected.amount)
      && (p.providerOrderId.Some? ==> p.providerOrderId.value == snap.providerOrderId)
      && (p.providerTransactionId.Some? ==> p.providerTransactionId.value == snap.providerTransactionId)
      && snap.providerOrderId !in taken.orders && snap.providerTransactionId !in taken.transactions
  }

  lemma DecisionIsSound(p: Payment, snap: Snapshot, taken: TakenIds)
    ensures Sound(p, Decide(p, snap, taken), snap, taken)
  {
    AcceptedReportsMatch(snap, p.expected);
  }

  // ----- Facts about one application, for every provider behaviour -----

  /** A payment never goes back: unpaid, then approved, then refunded. */
  lemma RankNeverDrops(s: Saga, d: Decision, snap: Snapshot, now: int, o: Options)
    ensures var r := ApplyDecision(s, d, snap, now, o);
            r.Ok? ==> Rank(s.payment.status) <= Rank(r.value.saga.payment.status)
  {
  }

  /** The payment fields that decide the next classification are the same after a first application. */
  lemma SecondDecisionIsTheSame(s: Saga, snap: Snapshot, taken: TakenIds, now: int, o: Options)
    requires ApplySnapshot(s, snap, taken, now, o).Ok?
    ensures Decide(ApplySnapshot(s, snap, taken, now, o).value.saga.payment, snap, taken)
            == Decide(s.payment, snap, taken)
  {
    var d := Decide(s.payment, snap, taken);
    AppliedIds(s, d, snap, now, o);
    SameDecision(s.payment, ApplyDecision(s, d, snap, now, o).value.saga.payment, snap, taken);
  }

  /** A report that is acted on leaves its own ids, any other the ones that were there. */
  lemma AppliedIds(s: Saga, d: Decision, snap: Snapshot, now: int, o: Options)
    requires ApplyDecision(s, d, snap, now, o).Ok?
    ensures var p, q := s.payment, ApplyDecision(s, d, snap, now, o).value.saga.payment;
            && q.expected == p.expected
            && (|| (q.providerOrderId == p.providerOrderId && q.providerTransactionId == p.providerTransactionId)
                || (!d.Review? && q.providerOrderId == Some(snap.providerOrderId)
                    && q.providerTransactionId == Some(snap.providerTransactionId)))
  {
  }

  lemma SameDecision(p: Payment, q: Payment, snap: Snapshot, taken: TakenIds)
    requires q.expected == p.expected
    requires || (q.providerOrderId == p.providerOrderId && q.providerTransactionId == p.providerTransactionId)
             || (!Decide(p, snap, taken).Review? && q.providerOrderId == Some(snap.providerOrderId)
                 && q.providerTransactionId == Some(snap.providerTransactionId))
    ensures Decide(q, snap, taken) == Decide(p, snap, taken)
  {
  }

  /** The disposition of an unchanged payment finds the operation of the first time. */
  lemma EnsureTwice(s: Saga, now: int)
    requires EnsureDisposition(s, now).Ok?
    ensures EnsureDisposition(EnsureDisposition(s, now).value.saga, now)
            == Ok(Disposed(EnsureDisposition(s, now).value.saga, false))
  {
    var intent := DispositionIntent(s.payment);
    if intent.Some? {
      EnqueueTwice(s.payment, s.ops, intent.value, now);
    }
  }

  /** Settling a second time, on the state the first left, is silent. */
  lemma SettleTwice(s: Saga, note: Note, changed: bool, d: Decision, now: int)
    requires Settle(s, note, changed, d, now).Ok?
    ensures var next := Settle(s, note, changed, d, now).value.saga;
            Settle(next, note, false, d, now) == Ok(Applied(next, false, d, false))
  {
    EnsureTwice(s, now);
    EnsureIgnoresEvents(EnsureDisposition(s, now).value.saga, Settle(s, note, changed, d, now).value.saga.events, now);
  }

  lemma EnsureIgnoresEvents(s: Saga, events: seq<Event>, now: int)
    requires EnsureDisposition(s, now).Ok?
    ensures EnsureDisposition(s.(events := events), now)
            == Ok(Disposed(EnsureDisposition(s, now).value.saga.(events := events),
                           EnsureDisposition(s, now).value.inserted))
  {
  }

  lemma PendingTwice(s: Saga, d: Decision, snap: Snapshot, now: int, o: Options)
    requires ApplyPending(s, d, snap, now, o).Ok?
    ensures var next := ApplyPending(s, d, snap, now, o).value.saga;
            ApplyPending(next, d, snap, now, o) == Ok(Applied(next, false, d, false))
  {
    var p := MarkHealthy(WithProviderFields(s.payment, snap, now), Some(now + HEALTHY_INTERVAL_MS));
    var next := ApplyPending(s, d, snap, now, o).value.saga;
    assert MarkHealthy(WithProviderFields(p, snap, now), Some(now + HEALTHY_INTERVAL_MS)) == p;
    assert next.payment == p;
    if s.order.status.Cancelled? && o.ensureCancelledDisposition {
      var changed := !s.payment.reconciliation.Healthy? || s.payment.providerStatus != Some(snap.orderStatus);
      SettleTwice(s.(payment := p), CancellationPending, changed, d, now);
      assert next.(payment := p) == next;
    }
  }

  lemma PaidTwice(s: Saga, d: Decision, snap: Snapshot, now: int, o: Options)
    requires ApplyPaid(s, d, snap, now, o).Ok? && !d.Refunded?
    ensures var next := ApplyPaid(s, d, snap, now, o).value.saga;
            ApplyPaid(next, d, snap, now, o) == Ok(Applied(next, false, d, false))
  {
    var p := MarkHealthy(WithProviderFields(s.payment, snap, now), None).(status := PaymentStatus.Approved);
    var next := ApplyPaid(s, d, snap, now, o).value.saga;
    assert MarkHealthy(WithProviderFields(p, snap, now), None).(status := PaymentStatus.Approved) == p;
    assert next.payment == p;
    if s.order.status.Cancelled? && o.ensureCancelledDisposition {
      SettleTwice(s.(payment := p), LateRefundPending, !s.payment.status.Approved?, d, now);
      assert next.(payment := p) == next;
    }
  }

  lemma ReviewTwice(s: Saga, code: ReviewCode, snap: Snapshot, now: int)
    ensures var once := ApplyReview(s, code, snap, now).saga;
            var again := ApplyReview(once, code, snap, now);
            again.saga == once && !again.changed && !again.enqueued
  {
  }

  lemma UnpaidTwice(s: Saga, d: Decision, snap: Snapshot, now: int)
    requires d.Rejected? || d.Cancelled? || d.Expired?
    ensures var once := ApplyUnpaid(s, d, snap, now).saga;
            var again := ApplyUnpaid(once, d, snap, now);
            again.saga == once && !again.changed && !again.enqueued
  {
    var p := MarkHealthy(WithProviderFields(s.payment, snap, now), None).(status := UnpaidStatus(d));
    assert MarkHealthy(WithProviderFields(p, snap, now), None).(status := UnpaidStatus(d)) == p;
  }

  lemma DecidedTwice(s: Saga, d: Decision, snap: Snapshot, now: int, o: Options)
    requires ApplyDecision(s, d, snap, now, o).Ok?
    ensures var once := ApplyDecision(s, d, snap, now, o).value.saga;
            var again := ApplyDecision(once, d, snap, now, o);
            again.Ok? && again.value.saga == once && !again.value.enqueued && !again.value.changed
  {
    if d.Review? {
      ReviewTwice(s, d.code, snap, now);
    } else if ActedOn(s.payment, d) {
      if d.Pending? {
        PendingTwice(s, d, snap, now, o);
      } else if d.Approved? || d.PartiallyRefunded? {
        PaidTwice(s, d, snap, now, o);
      } else if !d.Refunded? {
        UnpaidTwice(s, d, snap, now);
      }
    }
  }

  /** Applying a report a second time at the same instant changes nothing: no event, no operation, no status. */
  lemma ApplyTwiceIsApplyOnce(s: Saga, snap: Snapshot, taken: TakenIds, now: int, o: Options)
    requires ApplySnapshot(s, snap, taken, now, o).Ok?
    ensures var once := ApplySnapshot(s, snap, taken, now, o).value.saga;
            var again := ApplySnapshot(once, snap, taken, now, o);
            again.Ok? && again.value.saga == once && !again.value.enqueued && !again.value.changed
  {
    SecondDecisionIsTheSame(s, snap, taken, now, o);
    DecidedTwice(s, Decide(s.payment, snap, taken), snap, now, o);
  }

  // ----- Refunded amounts over time -----

  /**
   * The stored refunded amount falls if and only if a report is acted on that names a smaller one: reports carry no
   * order, so a stale one may come last.
   */
  lemma RefundedAmountFallsExactly(s: Saga, d: Decision, snap: Snapshot, now: int, o: Options)
    requires ApplyDecision(s, d, snap, now, o).Ok?
    ensures ApplyDecision(s, d, snap, now, o).value.saga.payment.refundedAmount < s.payment.refundedAmount <==>
            ActedOn(s.payment, d) && snap.refundedAmount < s.payment.refundedAmount
  {
  }
}

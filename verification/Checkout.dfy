/** Recovery of a checkout whose creation at the provider is uncertain. */
module Checkout {
  import opened OrderStatuses
  import opened PaymentData
  import opened Retry
  import opened Snapshots
  import opened Transition
  import opened Wrappers

  datatype RecoveryOutcome = Recovered | RetryPix | RetryCard | ToBeReviewed

  /** An answer of the provider; an error without a kind is not one of the provider's own. */
  datatype Answer<T> = Got(value: T) | Broken(kind: Option<ProviderFailure>, retryAfter: Option<int>)

  datatype RecoveryReplies = RecoveryReplies(
    search: Answer<seq<string>>,
    account: Answer<string>,
    create: Answer<Snapshot>,
    read: Answer<Snapshot>,
    payerKnown: bool,
    trigger: Option<ProviderFailure>,
    triggerRetryAfter: Option<int>
  )

  datatype RecoveryWork =
    | SendToReview(failure: ReconciliationFailure, announced: bool)
    | WaitUntil(failure: ReconciliationFailure, attempts: nat, retryAfter: Option<int>, announced: bool)
    | ExpireUncreated
    | Use(snapshot: Snapshot)

  predicate Uncertain(p: Payment) {
    p.status.Pending? && p.providerOrderId.None?
  }

  /** What a row of the table says about the recovery. */
  function RowOutcome(p: Payment): RecoveryOutcome {
    if !Uncertain(p) then Recovered
    else if p.reconciliation.ReviewRequired? then ToBeReviewed
    else if p.expected.paymentMethod.Pix? then RetryPix
    else RetryCard
  }

  predicate RequiresRecovery(kind: Option<ProviderFailure>) {
    kind.Some? &&
    (|| kind.value.CreateRequiresRecovery? || kind.value.ResourceLocked? || kind.value.RateLimited?
     || kind.value.ProviderUnavailable? || kind.value.TransientUncertain?)
  }

  function FailureOr(kind: Option<ProviderFailure>, other: ReconciliationFailure): ReconciliationFailure {
    if kind.Some? then ProviderFailed(kind.value) else other
  }

  /** Creating the pix charge again, under the same idempotency key. */
  function PlanCreateAgain(p: Payment, r: RecoveryReplies): RecoveryWork {
    var answer :=
      if r.account.Broken? then Broken(r.account.kind, r.account.retryAfter)
      else if r.account.value != p.expected.accountId then Broken(Some(CredentialOrConfig), None)
      else r.create;
    if answer.Got? then Use(answer.value)
    else if RequiresRecovery(answer.kind) then
      WaitUntil(ProviderFailed(answer.kind.value), p.reconciliationAttempts, answer.retryAfter, false)
    else SendToReview(FailureOr(answer.kind, CreateFailed), false)
  }

  /**
   * What to write in the end. `seen` is the row as it was read before the provider was asked; only where the charge may
   * be created again is it read once more, under the lock, which is `s`.
   */
  function PlanRecovery(seen: Payment, s: Saga, r: RecoveryReplies, now: int): RecoveryWork {
    var p, attempts := s.payment, seen.reconciliationAttempts;
    if r.search.Broken? then
      if RequiresRecovery(r.search.kind) then
        WaitUntil(ProviderFailed(r.search.kind.value), attempts, r.search.retryAfter, true)
      else SendToReview(FailureOr(r.search.kind, SearchFailed), true)
    else if |r.search.value| > 1 then SendToReview(AmbiguousProviderCreate, true)
    else if |r.search.value| == 0 && seen.expected.paymentMethod.Card? then
      WaitUntil(FailureOr(r.trigger, CreateNotVisible), attempts, r.triggerRetryAfter, true)
    else if |r.search.value| == 0 && seen.expected.paymentMethod.Pix? then
      if s.order.status.Cancelled? then WaitUntil(CancelledCreateSearchPending, p.reconciliationAttempts, None, false)
      else if p.expiresAt.Some? && p.expiresAt.value <= now then ExpireUncreated
      else if !r.payerKnown then SendToReview(PayerNotFound, false)
      else PlanCreateAgain(p, r)
    else if r.read.Got? then Use(r.read.value)
    else if RequiresRecovery(r.read.kind) || r.read.kind == Some(OrderNotFound) then
      WaitUntil(ProviderFailed(r.read.kind.value), attempts, r.read.retryAfter, true)
    else SendToReview(FailureOr(r.read.kind, AuthoritativeReadFailed), true)
  }

  function NoteReview(s: Saga, failure: ReconciliationFailure, announced: bool, now: int): Saga {
    var changed := !s.payment.reconciliation.ReviewRequired? || s.payment.failure != Some(failure);
    var next := s.(payment := UnderReview(s.payment, failure, now));
    if announced && changed then AddEvent(next, s.order.status, PaymentUnderReview) else next
  }

  function NoteRetry(s: Saga, failure: ReconciliationFailure, at: int, now: int): Saga {
    s.(payment := s.payment.(reconciliation := ReconciliationState.Pending, failure := Some(failure),
                             nextReconcileAt := Some(at), lastReconciledAt := Some(now)))
  }

  function ExpireUncreatedPayment(s: Saga, now: int): Saga {
    var p := s.payment.(status := PaymentStatus.Expired, reconciliation := ReconciliationState.Healthy, failure := None,
                        nextReconcileAt := None, lastReconciledAt := Some(now));
    var next := s.(payment := p);
    if s.order.status.AwaitingPayment? then
      AddEvent(SetOrderStatus(next, OrderStatus.Cancelled), OrderStatus.Cancelled, PaymentNotApproved)
    else next
  }

  /** Each write happens only while the creation is still uncertain. */
  function Recover(s: Saga, w: RecoveryWork, taken: TakenIds, now: int): Saga {
    if !Uncertain(s.payment) then s
    else
      match w
      case SendToReview(failure, announced) => NoteReview(s, failure, announced, now)
      case WaitUntil(failure, attempts, retryAfter, announced) =>
        (match Dispose(now, attempts, Some(0.1), retryAfter)
         case GiveUp => NoteReview(s, RetryExhausted, announced, now)
         case RetryAt(at) => NoteRetry(s, failure, at, now))
      case ExpireUncreated =>
        if s.order.status.Cancelled? || s.payment.expiresAt.None? || s.payment.expiresAt.value > now then s
        else ExpireUncreatedPayment(s, now)
      case Use(snap) =>
        var r := ApplySnapshot(s, snap, taken, now, DEFAULTS);
        if r.Ok? then r.value.saga else s
  }

  // ----- Claims of the reconciliation job -----

  function ClaimPayment(p: Payment, underReview: bool, eager: bool, now: int): Payment {
    var inState := if underReview then p.reconciliation.ReviewRequired? else !p.reconciliation.ReviewRequired?;
    var due := p.nextReconcileAt.None? || p.nextReconcileAt.value <= now || (eager && !underReview);
    if inState && due then
      p.(reconciliationAttempts := p.reconciliationAttempts + 1, nextReconcileAt := Some(now + HEALTHY_INTERVAL_MS))
    else p
  }

  function RetryPayment(p: Payment, attempts: nat, kind: Option<ProviderFailure>, retryAfter: Option<int>,
                        underReview: bool, now: int): Payment {
    match Dispose(now, attempts, Some(0.1), retryAfter)
    case GiveUp => UnderReview(p, RetryExhausted, now)
    case RetryAt(at) =>
      var state := if underReview then ReconciliationState.ReviewRequired else ReconciliationState.Pending;
      p.(reconciliation := state, failure := Some(FailureOr(kind, Unexpected)), nextReconcileAt := Some(at),
         lastReconciledAt := Some(now))
  }
}

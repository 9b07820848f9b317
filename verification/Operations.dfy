/** Running queued operations: claiming, evaluating what the provider answers, and settling. */
module Operations {
  import opened OperationQueue
  import opened OrderStatuses
  import opened PaymentData
  import opened Retry
  import opened Snapshots
  import opened Transition
  import opened Wrappers

  datatype Outcome = Success(code: ResultCode) | EscalateToRefund | TryAgain | ToReview

  // ----- Leases -----

  predicate Due(op: Operation, now: int) {
    || (op.status.Pending? && op.nextAttemptAt <= now)
    || (op.status.Processing? && op.leasedUntil.Some? && op.leasedUntil.value <= now)
  }

  predicate Unblocked(ops: seq<Operation>, op: Operation) {
    op.dependsOn.Some? ==> op.dependsOn.value < |ops| && ops[op.dependsOn.value].status.Succeeded?
  }

  predicate Claimable(ops: seq<Operation>, i: nat, now: int)
    requires i < |ops|
  {
    Due(ops[i], now) && Unblocked(ops, ops[i])
  }

  function Claimed(op: Operation, now: int, owner: nat): Operation {
    op.(status := OperationStatus.Processing, leaseOwner := Some(owner), leasedUntil := Some(now + LEASE_MS),
        attempts := op.attempts + 1)
  }

  /** A worker that is inside its lease. */
  predicate Holds(op: Operation, owner: nat, now: int) {
    op.status.Processing? && op.leaseOwner == Some(owner) && op.leasedUntil.Some? && now < op.leasedUntil.value
  }

  function LeaseRecovered(op: Operation, now: int): Operation {
    op.(status := OperationStatus.Pending, leaseOwner := None, leasedUntil := None, nextAttemptAt := now)
  }

  // ----- What an answer means for an operation -----

  function Evaluate(op: Operation, d: Decision, refunded: int, expected: int): Outcome {
    match op.kind
    case CancelOrder =>
      if d.Cancelled? then Success(ResultCode.Cancelled)
      else if d.Rejected? || d.Expired? then Success(NotCharged)
      else if d.Refunded? && refunded == expected then Success(ResultCode.Refunded)
      else if d.Approved? || d.PartiallyRefunded? then EscalateToRefund
      else if d.Pending? then TryAgain
      else ToReview
    case RefundFull =>
      if d.Refunded? && op.target == Some(refunded) then Success(ResultCode.Refunded)
      else if d.Pending? || d.Approved? || d.PartiallyRefunded? then TryAgain
      else ToReview
    case RefundPartial =>
      if !d.PartiallyRefunded? && !d.Refunded? then ToReview
      else if op.target == Some(refunded) then Success(ResultCode.PartiallyRefunded)
      else if refunded < TargetOf(op) then TryAgain
      else ToReview
  }

  function Reviewed(op: Operation): Operation {
    op.(status := OperationStatus.ReviewRequired, leaseOwner := None, leasedUntil := None)
  }

  function Completed(op: Operation, code: ResultCode): Operation {
    op.(status := OperationStatus.Succeeded, result := Some(code), leaseOwner := None, leasedUntil := None)
  }

  function Retried(op: Operation, now: int, jitter: Option<real>, retryAfter: Option<int>): Operation {
    match Dispose(now, op.attempts, jitter, retryAfter)
    case GiveUp => Reviewed(op)
    case RetryAt(at) =>
      op.(status := OperationStatus.Pending, nextAttemptAt := at, leaseOwner := None, leasedUntil := None)
  }

  function Finished(op: Operation, outcome: Outcome, now: int): Operation {
    match outcome
    case Success(code) => Completed(op, code)
    case EscalateToRefund => Completed(op, EscalatedToRefund)
    case TryAgain => Retried(op, now, Some(0.1), None)
    case ToReview => Reviewed(op)
  }

  function OutcomeOf(op: Operation, d: Decision, snap: Snapshot, payment: Payment): Outcome {
    if d.Review? then ToReview else Evaluate(op, d, snap.refundedAmount, payment.expected.amount)
  }

  /** A cancelled payment that turned out to be approved is cancelled on our side and refunded. */
  function Escalate(s: Saga, now: int): Result<Saga, QueueError> {
    var cancelled :=
      if s.order.status.AwaitingPayment? then
        AddEvent(SetOrderStatus(s, OrderStatus.Cancelled), OrderStatus.Cancelled, ApprovedAfterCancel)
      else s;
    var r := EnsureDisposition(cancelled, now);
    if r.Err? then Err(r.error) else Ok(r.value.saga)
  }

  function OptionsFor(kind: OperationKind): Options {
    Options(!kind.CancelOrder?, !kind.CancelOrder?)
  }

  function SetOperation(s: Saga, i: nat, op: Operation): Saga
    requires i < |s.ops|
  {
    s.(ops := s.ops[i := op])
  }

  /** The second half of the transaction: closing, retrying or parking the operation. */
  function FinishOperation(s: Saga, i: nat, op: Operation, outcome: Outcome, now: int): Result<Saga, QueueError>
    requires i < |s.ops|
  {
    if outcome.EscalateToRefund? then
      var escalated := Escalate(s, now);
      if escalated.Err? then Err(escalated.error)
      else Ok(SetOperation(escalated.value, i, Finished(op, outcome, now)))
    else Ok(SetOperation(s, i, Finished(op, outcome, now)))
  }

  /** The transaction that applies the answer to one operation. */
  function SettleOperation(s: Saga, i: nat, d: Decision, snap: Snapshot, now: int): Result<Saga, QueueError>
    requires i < |s.ops|
  {
    var op := s.ops[i];
    var applied := ApplyDecision(s, d, snap, now, OptionsFor(op.kind));
    if applied.Err? then Err(applied.error)
    else
      var next := applied.value.saga;
      AppliedKeepsOps(s, d, snap, now, OptionsFor(op.kind));
      FinishOperation(next, i, op, OutcomeOf(op, d, snap, next.payment), now)
  }

  /** Applying a report only ever appends to the queue. */
  lemma AppliedKeepsOps(s: Saga, d: Decision, snap: Snapshot, now: int, o: Options)
    ensures var r := ApplyDecision(s, d, snap, now, o); r.Ok? ==> s.ops <= r.value.saga.ops
  {
  }

  // ----- One run of a worker -----

  datatype Reply = Reply(snapshot: Snapshot) | Failed(kind: ProviderFailure, retryAfter: Option<int>)

  /** All answers of the provider that one run may need. */
  datatype Replies = Replies(current: Reply, mutation: Reply, reread: Reply, jitter: Option<real>)

  predicate Retryable(kind: ProviderFailure) {
    || kind.TransientUncertain? || kind.RateLimited? || kind.ProviderUnavailable? || kind.ResourceLocked?
    || kind.MutationRequiresRead?
  }

  predicate ActionRequired(snap: Snapshot) {
    Lower(snap.orderStatus) == "action_required"
  }

  predicate Actionable(p: Payment, op: Operation) {
    && p.providerOrderId.Some?
    && (op.kind.RefundPartial? ==>
          op.amount.Some? && op.amount.value != 0 && op.amount.value <= p.expected.amount - p.refundedAmount)
  }

  /** What the run writes in the end. */
  datatype Work =
    | Park
    | Answer(snapshot: Snapshot)
    | AnswerOrRetry(snapshot: Snapshot, retryAfter: Option<int>)
    | Later(retryAfter: Option<int>)

  function OnFailure(kind: ProviderFailure, retryAfter: Option<int>, reread: Reply): Work {
    if !Retryable(kind) then Park
    else if reread.Reply? && !ActionRequired(reread.snapshot) then AnswerOrRetry(reread.snapshot, retryAfter)
    else Later(retryAfter)
  }

  function Plan(p: Payment, op: Operation, r: Replies): Work {
    if !Actionable(p, op) then Park
    else if op.kind.CancelOrder? && r.current.Failed? then OnFailure(r.current.kind, r.current.retryAfter, r.reread)
    else if op.kind.CancelOrder? && !ActionRequired(r.current.snapshot) then Answer(r.current.snapshot)
    else if r.mutation.Failed? then OnFailure(r.mutation.kind, r.mutation.retryAfter, r.reread)
    else Answer(r.mutation.snapshot)
  }

  /** The state a run leaves; a transaction that fails outside the retry path leaves everything as it was. */
  function Perform(s: Saga, i: nat, w: Work, taken: TakenIds, jitter: Option<real>, now: int): Saga
    requires i < |s.ops|
  {
    match w
    case Park => SetOperation(s, i, Reviewed(s.ops[i]))
    case Later(retryAfter) => SetOperation(s, i, Retried(s.ops[i], now, jitter, retryAfter))
    case Answer(snap) =>
      var r := SettleOperation(s, i, Decide(s.payment, snap, taken), snap, now);
      if r.Ok? then r.value else s
    case AnswerOrRetry(snap, retryAfter) =>
      var r := SettleOperation(s, i, Decide(s.payment, snap, taken), snap, now);
      if r.Ok? then r.value else SetOperation(s, i, Retried(s.ops[i], now, jitter, retryAfter))
  }

  // ----- Facts about claiming and finishing -----

  /** Only the head of a chain can be claimed. */
  lemma ClaimableIsHead(ops: seq<Operation>, i: nat, now: int)
    requires Chain(ops) && i < |ops| && Claimable(ops, i, now)
    ensures i == Head(ops)
  {
    if i > Head(ops) {
      ChainShape(ops, i);
      if i - 1 > Head(ops) {
        ChainShape(ops, i - 1);
      }
    }
  }

  /** A finished attempt leaves the operation waiting only below the limit of eight attempts. */
  lemma RetryNeedsAttemptsLeft(op: Operation, outcome: Outcome, now: int)
    ensures Finished(op, outcome, now).status.Pending? ==> op.attempts < MAX_PAYMENT_OPERATION_ATTEMPTS
    ensures Finished(op, outcome, now).attempts == op.attempts
    ensures !Finished(op, outcome, now).status.Processing?
  {
  }
}

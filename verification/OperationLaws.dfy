/** How a queued operation ends for each answer of the provider, written out case by case. */
module OperationLaws {
  import opened Operations
  import opened OrderStatuses
  import opened PaymentData
  import opened Retry
  import opened Snapshots
  import opened Transition
  import opened TransitionLaws
  import opened Wrappers

  // ----- How an operation may end -----

  predicate Succeeds(op: Operation, q: Operation, code: ResultCode) {
    q == op.(status := OperationStatus.Succeeded, result := Some(code), leaseOwner := None, leasedUntil := None)
  }

  predicate Parked(op: Operation, q: Operation) {
    q == op.(status := OperationStatus.ReviewRequired, leaseOwner := None, leasedUntil := None)
  }

  /** The waits after one to seven attempts: half a minute and a tenth, and twice as long each time. */
  const WAITS: seq<int> := [33_000, 33_000, 66_000, 132_000, 264_000, 528_000, 1_056_000, 2_112_000]

  /** It waits for its next attempt, or is parked when it has had eight. */
  predicate Waits(op: Operation, q: Operation, now: int) {
    if op.attempts >= 8 then Parked(op, q)
    else
      q == op.(status := OperationStatus.Pending, leaseOwner := None, leasedUntil := None,
               nextAttemptAt := now + WAITS[op.attempts])
  }

  lemma Powers(n: nat)
    requires n < 7
    ensures Pow2(n) == [1, 2, 4, 8, 16, 32, 64][n]
  {
    assert Pow2(2) == 4 && Pow2(4) == 4 * Pow2(2) && Pow2(6) == 4 * Pow2(4);
  }

  /** The back-off of so many attempts, with a tenth on top. */
  lemma WaitOf(attempts: nat)
    requires attempts < 8
    ensures Jittered(BaseDelay(attempts), ClampJitter(Some(0.1))) == WAITS[attempts]
  {
    var n := if attempts > 1 then attempts - 1 else 0;
    Powers(n);
    var base := BaseDelay(attempts);
    assert base == 30_000 * Pow2(n);
    assert base as real * 0.1 == (3_000 * Pow2(n)) as real;
  }

  lemma RetriedWaits(op: Operation, now: int)
    ensures Waits(op, Retried(op, now, Some(0.1), None), now)
  {
    if op.attempts < 8 {
      WaitOf(op.attempts);
    }
  }

  // ----- What an answer does to the operation it answers -----

  /** The operation once its answer has been dealt with. */
  function After(s: Saga, i: nat, d: Decision, snap: Snapshot, now: int): Operation
    requires i < |s.ops| && SettleOperation(s, i, d, snap, now).Ok?
  {
    SettledKeepsPlace(s, i, d, snap, now);
    SettleOperation(s, i, d, snap, now).value.ops[i]
  }

  lemma SettledKeepsPlace(s: Saga, i: nat, d: Decision, snap: Snapshot, now: int)
    requires i < |s.ops| && SettleOperation(s, i, d, snap, now).Ok?
    ensures i < |SettleOperation(s, i, d, snap, now).value.ops|
  {
    AppliedKeepsOps(s, d, snap, now, OptionsFor(s.ops[i].kind));
  }

  /** A partial refund has succeeded if and only if the provider has refunded exactly its target by now. */
  lemma PartialRefundEnds(s: Saga, i: nat, d: Decision, snap: Snapshot, now: int)
    requires i < |s.ops| && SettleOperation(s, i, d, snap, now).Ok?
    requires s.ops[i].kind == RefundPartial && s.ops[i].target.Some?
    ensures var op, q := s.ops[i], After(s, i, d, snap, now);
            if (d.PartiallyRefunded? || d.Refunded?) && snap.refundedAmount == op.target.value then
              Succeeds(op, q, ResultCode.PartiallyRefunded)
            else if (d.PartiallyRefunded? || d.Refunded?) && snap.refundedAmount < op.target.value then
              Waits(op, q, now)
            else Parked(op, q)
  {
    RetriedWaits(s.ops[i], now);
    AnswerFinishes(s, i, d, snap, now);
  }

  lemma FullRefundEnds(s: Saga, i: nat, d: Decision, snap: Snapshot, now: int)
    requires i < |s.ops| && SettleOperation(s, i, d, snap, now).Ok? && s.ops[i].kind == RefundFull
    ensures var op, q := s.ops[i], After(s, i, d, snap, now);
            if d.Refunded? && op.target == Some(snap.refundedAmount) then Succeeds(op, q, ResultCode.Refunded)
            else if d.Pending? || d.Approved? || d.PartiallyRefunded? then Waits(op, q, now)
            else Parked(op, q)
  {
    RetriedWaits(s.ops[i], now);
    AnswerFinishes(s, i, d, snap, now);
  }

  lemma CancellationEnds(s: Saga, i: nat, d: Decision, snap: Snapshot, now: int)
    requires i < |s.ops| && SettleOperation(s, i, d, snap, now).Ok? && s.ops[i].kind == CancelOrder
    ensures var op, q := s.ops[i], After(s, i, d, snap, now);
            match d
            case Cancelled => Succeeds(op, q, ResultCode.Cancelled)
            case Rejected => Succeeds(op, q, NotCharged)
            case Expired => Succeeds(op, q, NotCharged)
            case Approved => Succeeds(op, q, EscalatedToRefund)
            case PartiallyRefunded(_) => Succeeds(op, q, EscalatedToRefund)
            case Pending(_) => Waits(op, q, now)
            case Refunded =>
              if snap.refundedAmount == s.payment.expected.amount then Succeeds(op, q, ResultCode.Refunded)
              else Parked(op, q)
            case Review(_) => Parked(op, q)
  {
    RetriedWaits(s.ops[i], now);
    AnswerFinishes(s, i, d, snap, now);
    PaymentWritten(s, d, snap, now, Options(false, false));
  }

  lemma AnswerFinishes(s: Saga, i: nat, d: Decision, snap: Snapshot, now: int)
    requires i < |s.ops| && SettleOperation(s, i, d, snap, now).Ok?
    ensures var applied := ApplyDecision(s, d, snap, now, OptionsFor(s.ops[i].kind));
            && applied.Ok?
            && After(s, i, d, snap, now) ==
                 Finished(s.ops[i], OutcomeOf(s.ops[i], d, snap, applied.value.saga.payment), now)
  {
    AppliedKeepsOps(s, d, snap, now, OptionsFor(s.ops[i].kind));
  }

  // ----- What it does to everything else -----

  lemma EscalationWrites(s: Saga, now: int)
    requires Escalate(s, now).Ok?
    ensures var next := Escalate(s, now).value;
            && next.payment == s.payment && next.amendments == s.amendments
            && (if s.order.status.AwaitingPayment? then
                  && next.order == s.order.(status := OrderStatus.Cancelled)
                  && next.events == s.events + [Event(OrderStatus.Cancelled, ApprovedAfterCancel)]
                else next.order == s.order && next.events == s.events)
            && (if Needed(s.payment).None? then next.ops == s.ops
                else Asked(s.ops, next.ops, Needed(s.payment).value.0, Needed(s.payment).value.1,
                           s.payment.expected.amount, now))
  {
    var cancelled := s.(order := s.order.(status := OrderStatus.Cancelled),
                        events := s.events + [Event(OrderStatus.Cancelled, ApprovedAfterCancel)]);
    var before := if s.order.status.AwaitingPayment? then cancelled else s;
    EnsureKeepsRows(before, now);
    DispositionAsks(before, now);
  }

  /** The end of the operation is written, and nothing else unless it escalates. */
  lemma EndWrites(s: Saga, i: nat, op: Operation, outcome: Outcome, now: int)
    requires i < |s.ops| && FinishOperation(s, i, op, outcome, now).Ok?
    ensures var next := FinishOperation(s, i, op, outcome, now).value;
            && next.payment == s.payment && |s.ops| <= |next.ops|
            && (forall j | 0 <= j < |s.ops| && j != i :: next.ops[j] == s.ops[j])
            && (if outcome.EscalateToRefund? then
                  Escalate(s, now).Ok? && next == Escalate(s, now).value.(ops := next.ops)
                else next == s.(ops := next.ops) && |next.ops| == |s.ops|)
  {
    if outcome.EscalateToRefund? {
      EscalationWrites(s, now);
    }
  }

  /**
   * The answer is applied like any report, only that a cancellation neither releases the order nor asks for another
   * operation by itself. One that finds the money taken cancels an order that still waits and asks for the refund.
   */
  lemma AnswerWrites(s: Saga, i: nat, d: Decision, snap: Snapshot, now: int)
    requires i < |s.ops| && SettleOperation(s, i, d, snap, now).Ok?
    ensures var op, next := s.ops[i], SettleOperation(s, i, d, snap, now).value;
            var options := Options(op.kind != CancelOrder, op.kind != CancelOrder);
            var applied := ApplyDecision(s, d, snap, now, options);
            && applied.Ok? && next.payment == applied.value.saga.payment && |applied.value.saga.ops| <= |next.ops|
            && (forall j | 0 <= j < |applied.value.saga.ops| && j != i :: next.ops[j] == applied.value.saga.ops[j])
            && (if op.kind == CancelOrder && (d.Approved? || d.PartiallyRefunded?) then
                  Escalate(applied.value.saga, now).Ok?
                  && next == Escalate(applied.value.saga, now).value.(ops := next.ops)
                else next == applied.value.saga.(ops := next.ops) && |next.ops| == |applied.value.saga.ops|)
  {
    AppliedKeepsOps(s, d, snap, now, OptionsFor(s.ops[i].kind));
    var applied := ApplyDecision(s, d, snap, now, OptionsFor(s.ops[i].kind)).value.saga;
    EndWrites(applied, i, s.ops[i], OutcomeOf(s.ops[i], d, snap, applied.payment), now);
  }

  // ----- Which answer is sought -----

  /** After these failures the provider may have acted all the same, or will soon answer. */
  predicate WorthRetrying(kind: ProviderFailure) {
    kind in {TransientUncertain, RateLimited, ProviderUnavailable, ResourceLocked, MutationRequiresRead}
  }

  /** What is done about a failed call: a second reading settles it, unless that fails or asks for action. */
  predicate Salvaged(failed: Reply, reread: Reply, w: Work)
    requires failed.Failed?
  {
    if !WorthRetrying(failed.kind) then w == Park
    else if reread.Reply? && Lower(reread.snapshot.orderStatus) != "action_required" then
      w == AnswerOrRetry(reread.snapshot, failed.retryAfter)
    else w == Later(failed.retryAfter)
  }

  /** The provider is not asked about a payment it does not know, nor for more money than is left. */
  lemma NothingIsAsked(p: Payment, op: Operation, r: Replies)
    ensures p.providerOrderId == None ==> Plan(p, op, r) == Park
    ensures op.kind == RefundPartial
            && (op.amount == None || op.amount.value == 0 || op.amount.value > p.expected.amount - p.refundedAmount)
            ==> Plan(p, op, r) == Park
  {
  }

  lemma RefundIsAsked(p: Payment, op: Operation, r: Replies)
    requires p.providerOrderId.Some?
    requires op.kind == RefundFull
             || (op.kind == RefundPartial && op.amount.Some? && op.amount.value != 0
                 && op.amount.value <= p.expected.amount - p.refundedAmount)
    ensures if r.mutation.Reply? then Plan(p, op, r) == Answer(r.mutation.snapshot)
            else Salvaged(r.mutation, r.reread, Plan(p, op, r))
  {
  }

  /** A cancellation is asked for only while the provider's order waits for the customer. */
  lemma CancellationIsAsked(p: Payment, op: Operation, r: Replies)
    requires p.providerOrderId.Some? && op.kind == CancelOrder
    ensures if r.current.Failed? then Salvaged(r.current, r.reread, Plan(p, op, r))
            else if Lower(r.current.snapshot.orderStatus) != "action_required" then
              Plan(p, op, r) == Answer(r.current.snapshot)
            else if r.mutation.Reply? then Plan(p, op, r) == Answer(r.mutation.snapshot)
            else Salvaged(r.mutation, r.reread, Plan(p, op, r))
  {
  }

  /** Failures without an answer touch the operation alone. */
  lemma FailureWrites(s: Saga, i: nat, retryAfter: Option<int>, taken: TakenIds, jitter: Option<real>, now: int)
    requires i < |s.ops|
    ensures var parked := Perform(s, i, Park, taken, jitter, now);
            parked == s.(ops := parked.ops) && |parked.ops| == |s.ops|
            && Parked(s.ops[i], parked.ops[i]) && (forall j | 0 <= j < |s.ops| && j != i :: parked.ops[j] == s.ops[j])
    ensures var later := Perform(s, i, Later(retryAfter), taken, jitter, now);
            && later == s.(ops := later.ops) && |later.ops| == |s.ops|
            && (forall j | 0 <= j < |s.ops| && j != i :: later.ops[j] == s.ops[j])
            && var op, q := s.ops[i], later.ops[i];
               if op.attempts >= 8 then Parked(op, q)
               else
                 q == op.(status := OperationStatus.Pending, leaseOwner := None, leasedUntil := None,
                          nextAttemptAt := NextAttemptAt(now, op.attempts, jitter, retryAfter))
  {
  }
}

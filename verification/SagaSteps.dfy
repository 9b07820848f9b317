/** Each transaction keeps the invariant of an online order. */
module SagaSteps {
  import opened Checkout
  import opened Items
  import opened OperationQueue
  import opened Operations
  import opened OrderFlows
  import opened OrderStatuses
  import opened PaymentData
  import opened Snapshots
  import opened SagaInvariant
  import opened Transition
  import opened Wrappers

  // ----- Changing one part of an order -----

  lemma NewPaymentKeepsQueue(ops: seq<Operation>, o: OrderStatus, p: Payment, q: Payment, amendments: seq<Amendment>)
    requires QueueOk(ops, o, p, amendments)
    requires q.expected == p.expected
    requires p.providerOrderId.Some? ==> q.providerOrderId.Some?
    requires q.status.Pending? ==> p.status.Pending?
    requires p.status.Refunded? ==> q.status.Refunded?
    ensures QueueOk(ops, o, q, amendments)
  {
    forall i | 0 <= i < |ops| ensures JustifiedOperation(ops[i], o, q) {
      assert JustifiedOperation(ops[i], o, p);
    }
  }

  lemma NewStatusKeepsQueue(ops: seq<Operation>, o: OrderStatus, next: OrderStatus, p: Payment,
                            amendments: seq<Amendment>)
    requires QueueOk(ops, o, p, amendments)
    requires o.Cancelled? ==> next.Cancelled?
    requires Undone(o) ==> Undone(next)
    ensures QueueOk(ops, next, p, amendments)
  {
    forall i | 0 <= i < |ops| ensures JustifiedOperation(ops[i], next, p) {
      assert JustifiedOperation(ops[i], o, p);
    }
  }

  /** A proposal needs an order that the store is working on, so no other order has one. */
  lemma NoProposalElsewhere(order: Order, amendments: seq<Amendment>, status: OrderStatus)
    requires Proposals(order, amendments) && !Proposable(order.status)
    ensures Proposals(order.(status := status), amendments)
    ensures forall i | 0 <= i < |amendments| :: !amendments[i].status.Proposed?
  {
    forall i | 0 <= i < |amendments| ensures !amendments[i].status.Proposed? {
      assert ProposalFits(order, amendments[i]);
    }
  }

  // ----- Provider reports -----

  /** Where a report can lead the payment and the order. */
  lemma AfterDecision(s: Saga, d: Decision, snap: Snapshot, now: int, o: Options)
    ensures var r := ApplyDecision(s, d, snap, now, o);
            r.Ok? ==>
              && (!d.Review? && !d.Pending? ==> !r.value.saga.payment.status.Pending?)
              && (d.Refunded? ==> r.value.saga.payment.status.Refunded?)
              && (s.order.status.Cancelled? ==> r.value.saga.order.status.Cancelled?)
              && r.value.saga.payment.expected == s.payment.expected
  {
  }

  lemma AnnounceKeepsInvariant(r: Result<Disposed, QueueError>, note: Note, changed: bool, d: Decision)
    requires r.Ok? && Inv(r.value.saga)
    ensures Announce(r, note, changed, d).Ok? && Inv(Announce(r, note, changed, d).value.saga)
  {
  }

  lemma PendingKeepsInvariant(s: Saga, d: Decision, snap: Snapshot, taken: TakenIds, now: int, o: Options)
    requires Inv(s) && d.Pending? && Sound(s.payment, d, snap, taken) && Rank(s.payment.status) == 0
    requires o.ensureCancelledDisposition || HasKey(s.ops, CancelKey)
    requires ApplyPending(s, d, snap, now, o).Ok?
    ensures Inv(ApplyPending(s, d, snap, now, o).value.saga)
  {
    var p := MarkHealthy(WithProviderFields(s.payment, snap, now), Some(now + HEALTHY_INTERVAL_MS));
    NewPaymentKeepsQueue(s.ops, s.order.status, s.payment, p, s.amendments);
    var next := s.(payment := p);
    assert Consistent(next);
    if s.order.status.Cancelled? && o.ensureCancelledDisposition {
      var changed := !s.payment.reconciliation.Healthy? || s.payment.providerStatus != Some(snap.orderStatus);
      EnsureKeepsInvariant(next, now);
      AnnounceKeepsInvariant(EnsureDisposition(next, now), CancellationPending, changed, d);
    }
  }

  lemma PaidKeepsInvariant(s: Saga, d: Decision, snap: Snapshot, taken: TakenIds, now: int, o: Options)
    requires Inv(s) && (d.Approved? || d.PartiallyRefunded? || d.Refunded?)
    requires Sound(s.payment, d, snap, taken) && !s.payment.status.Refunded?
    requires o.releaseOrderOnApproval || s.order.status.Cancelled?
    requires ApplyPaid(s, d, snap, now, o).Ok?
    ensures var next := ApplyPaid(s, d, snap, now, o).value.saga;
            && Consistent(next)
            && (o.ensureCancelledDisposition || d.Refunded? ==> Covered(next))
            && CancelCovered(next.order.status, next.payment, next.ops)
  {
    var status := if d.Refunded? then PaymentStatus.Refunded else PaymentStatus.Approved;
    var p := MarkHealthy(WithProviderFields(s.payment, snap, now), None).(status := status);
    NewPaymentKeepsQueue(s.ops, s.order.status, s.payment, p, s.amendments);
    var paid := s.(payment := p);
    if s.order.status.Cancelled? && o.ensureCancelledDisposition {
      EnsureKeepsInvariant(paid, now);
      AnnounceKeepsInvariant(EnsureDisposition(paid, now), LateRefundPending, !s.payment.status.Approved?, d);
    } else if s.order.status.AwaitingPayment? {
      NewStatusKeepsQueue(s.ops, s.order.status, OrderStatus.Pending, p, s.amendments);
      NoProposalElsewhere(s.order, s.amendments, OrderStatus.Pending);
    }
  }

  lemma UnpaidKeepsInvariant(s: Saga, d: Decision, snap: Snapshot, taken: TakenIds, now: int)
    requires Inv(s) && (d.Rejected? || d.Cancelled? || d.Expired?)
    requires Sound(s.payment, d, snap, taken) && Rank(s.payment.status) == 0
    ensures Inv(ApplyUnpaid(s, d, snap, now).saga)
  {
    var p := MarkHealthy(WithProviderFields(s.payment, snap, now), None).(status := UnpaidStatus(d));
    NewPaymentKeepsQueue(s.ops, s.order.status, s.payment, p, s.amendments);
    if s.order.status.AwaitingPayment? {
      NewStatusKeepsQueue(s.ops, s.order.status, OrderStatus.Cancelled, p, s.amendments);
      NoProposalElsewhere(s.order, s.amendments, OrderStatus.Cancelled);
    }
  }

  /** The only thing a report can leave open: an approved payment of a cancelled order, told to a cancel operation. */
  ghost predicate Owed(d: Decision, o: Options) {
    !o.ensureCancelledDisposition && (d.Approved? || d.PartiallyRefunded?)
  }

  lemma ApplyKeepsInvariant(s: Saga, d: Decision, snap: Snapshot, taken: TakenIds, now: int, o: Options)
    requires Inv(s) && Sound(s.payment, d, snap, taken)
    requires o.ensureCancelledDisposition == o.releaseOrderOnApproval
    requires o.ensureCancelledDisposition || HasKey(s.ops, CancelKey)
    requires ApplyDecision(s, d, snap, now, o).Ok?
    ensures var next := ApplyDecision(s, d, snap, now, o).value.saga;
            && Consistent(next)
            && (!Owed(d, o) ==> Covered(next))
            && CancelCovered(next.order.status, next.payment, next.ops)
  {
    if !o.ensureCancelledDisposition {
      var i :| 0 <= i < |s.ops| && s.ops[i].key == CancelKey;
      assert JustifiedOperation(s.ops[i], s.order.status, s.payment);
    }
    if d.Review? {
      var p := ApplyReview(s, d.code, snap, now).saga.payment;
      NewPaymentKeepsQueue(s.ops, s.order.status, s.payment, p, s.amendments);
    } else if Rank(s.payment.status) == 0 && d.Pending? {
      PendingKeepsInvariant(s, d, snap, taken, now, o);
    } else if !s.payment.status.Refunded? && (d.Approved? || d.PartiallyRefunded? || d.Refunded?) {
      PaidKeepsInvariant(s, d, snap, taken, now, o);
    } else if Rank(s.payment.status) == 0 {
      UnpaidKeepsInvariant(s, d, snap, taken, now);
    }
  }

  /** A report can be refused as a whole only when an operation of the order is under review. */
  lemma ApplyFailsOnlyUnderReview(s: Saga, d: Decision, snap: Snapshot, now: int, o: Options)
    requires Targets(s.ops, s.payment.expected.amount)
    ensures ApplyDecision(s, d, snap, now, o).Err? ==> NeedsReview(s.ops)
  {
    if !d.Review? && s.order.status.Cancelled? {
      if d.Pending? {
        var p := MarkHealthy(WithProviderFields(s.payment, snap, now), Some(now + HEALTHY_INTERVAL_MS));
        DispositionFailsOnlyUnderReview(s.(payment := p), now);
      } else if d.Approved? || d.PartiallyRefunded? || d.Refunded? {
        var status := if d.Refunded? then PaymentStatus.Refunded else PaymentStatus.Approved;
        var p := MarkHealthy(WithProviderFields(s.payment, snap, now), None).(status := status);
        DispositionFailsOnlyUnderReview(s.(payment := p), now);
      }
    }
  }

  // ----- Operations -----

  /** Progress of the head operation, justified by what the payment has become. */
  lemma ProgressKeepsInvariant(s: Saga, i: nat, op: Operation)
    requires Inv(s) && i < |s.ops| && i == Head(s.ops)
    requires op == s.ops[i].(status := op.status, result := op.result, attempts := op.attempts,
                             nextAttemptAt := op.nextAttemptAt, leaseOwner := op.leaseOwner,
                             leasedUntil := op.leasedUntil)
    requires op.status.Processing? <==> op.leasedUntil.Some?
    requires op.leasedUntil.Some? <==> op.leaseOwner.Some?
    requires s.ops[i].status.ReviewRequired? ==> op.status.ReviewRequired?
    requires op.status.Succeeded? && op.key.CancelKey? ==> !s.payment.status.Pending?
    requires op.status.Succeeded? && op.key.RefundFullKey? ==> s.payment.status.Refunded?
    ensures Inv(SetOperation(s, i, op))
  {
    var ops := s.ops[i := op];
    UpdateHeadKeepsChain(s.ops, i, op);
    ProgressKeepsAmounts(s.ops, i, op, s.payment.expected.amount);
    SameKeysKeepInvariant(s, ops);
  }

  /** Operations that differ in progress only keep their reasons. */
  lemma SameKeysKeepInvariant(s: Saga, ops: seq<Operation>)
    requires Inv(s) && |ops| == |s.ops|
    requires Chain(ops) && Targets(ops, s.payment.expected.amount) && PartialSum(ops) == PartialSum(s.ops)
    requires forall i | 0 <= i < |ops| :: ops[i].key == s.ops[i].key
    requires forall i | 0 <= i < |ops| && ops[i].status.Succeeded? && !s.ops[i].status.Succeeded? ::
               && (ops[i].key.CancelKey? ==> !s.payment.status.Pending?)
               && (ops[i].key.RefundFullKey? ==> s.payment.status.Refunded?)
    ensures Inv(s.(ops := ops))
  {
    forall i | 0 <= i < |ops| ensures JustifiedOperation(ops[i], s.order.status, s.payment) {
      assert JustifiedOperation(s.ops[i], s.order.status, s.payment);
    }
    forall key | HasKey(s.ops, key) ensures HasKey(ops, key) {
      var i :| 0 <= i < |s.ops| && s.ops[i].key == key;
      assert ops[i].key == key;
    }
    assert FromApproved(ops, s.amendments) by {
      forall i | 0 <= i < |ops| && ops[i].key.AmendmentKey?
        ensures ops[i].key.amendment < |s.amendments| && s.amendments[ops[i].key.amendment].status.Approved?
      {
        assert s.ops[i].key.AmendmentKey?;
      }
    }
  }

  /** Refunding what a cancel operation found approved cannot fail while that operation runs. */
  lemma EscalateKeepsInvariant(s: Saga, now: int)
    requires Consistent(s) && s.order.status.Cancelled? && !s.payment.status.Pending? && !NeedsReview(s.ops)
    ensures Escalate(s, now).Ok?
    ensures var next := Escalate(s, now).value; Inv(next) && s.ops <= next.ops && next.payment == s.payment
  {
    DispositionFailsOnlyUnderReview(s, now);
    EnsureKeepsInvariant(s, now);
  }

  /** The final write of an operation, on a state that owes nothing any more. */
  lemma FinalWriteKeepsInvariant(s: Saga, i: nat, outcome: Outcome, d: Decision, snap: Snapshot, now: int)
    requires Inv(s) && i < |s.ops| && s.ops[i].status.Processing?
    requires outcome == OutcomeOf(s.ops[i], d, snap, s.payment)
    requires !d.Review? && !d.Pending? ==> !s.payment.status.Pending?
    requires d.Refunded? ==> s.payment.status.Refunded?
    ensures Inv(SetOperation(s, i, Finished(s.ops[i], outcome, now)))
  {
    assert WellTyped(s.ops[i], s.payment.expected.amount);
    ProcessingIsHead(s.ops, i);
    ProgressKeepsInvariant(s, i, Finished(s.ops[i], outcome, now));
  }

  /** Closing an operation on the state that its own answer left behind. */
  lemma FinishKeepsInvariant(s: Saga, i: nat, d: Decision, snap: Snapshot, now: int)
    requires Consistent(s) && CancelCovered(s.order.status, s.payment, s.ops)
    requires i < |s.ops| && s.ops[i].status.Processing?
    requires !Owed(d, OptionsFor(s.ops[i].kind)) ==> Covered(s)
    requires !d.Review? && !d.Pending? ==> !s.payment.status.Pending?
    requires d.Refunded? ==> s.payment.status.Refunded?
    ensures var r := FinishOperation(s, i, s.ops[i], OutcomeOf(s.ops[i], d, snap, s.payment), now);
            r.Ok? && Inv(r.value)
  {
    var op := s.ops[i];
    var outcome := OutcomeOf(op, d, snap, s.payment);
    if outcome.EscalateToRefund? {
      assert WellTyped(op, s.payment.expected.amount);
      assert JustifiedOperation(op, s.order.status, s.payment);
      ProcessingIsHead(s.ops, i);
      EscalateKeepsInvariant(s, now);
      var escalated := Escalate(s, now).value;
      assert escalated.ops[i] == op;
      FinalWriteKeepsInvariant(escalated, i, outcome, d, snap, now);
    } else {
      FinalWriteKeepsInvariant(s, i, outcome, d, snap, now);
    }
  }

  /** A running operation is never stopped by the review error, and leaves the invariant intact. */
  lemma SettleOperationKeepsInvariant(s: Saga, i: nat, d: Decision, snap: Snapshot, taken: TakenIds, now: int)
    requires Inv(s) && Sound(s.payment, d, snap, taken) && i < |s.ops| && s.ops[i].status.Processing?
    ensures SettleOperation(s, i, d, snap, now).Ok?
    ensures Inv(SettleOperation(s, i, d, snap, now).value)
  {
    var op, o := s.ops[i], OptionsFor(s.ops[i].kind);
    assert WellTyped(op, s.payment.expected.amount);
    ProcessingIsHead(s.ops, i);
    ApplyFailsOnlyUnderReview(s, d, snap, now, o);
    ApplyKeepsInvariant(s, d, snap, taken, now, o);
    AppliedKeepsOps(s, d, snap, now, o);
    AfterDecision(s, d, snap, now, o);
    var next := ApplyDecision(s, d, snap, now, o).value.saga;
    assert next.ops[i] == op;
    FinishKeepsInvariant(next, i, d, snap, now);
  }

  lemma PerformKeepsInvariant(s: Saga, i: nat, w: Work, taken: TakenIds, jitter: Option<real>, now: int)
    requires Inv(s) && i < |s.ops| && s.ops[i].status.Processing?
    ensures Inv(Perform(s, i, w, taken, jitter, now))
  {
    ProcessingIsHead(s.ops, i);
    match w
    case Park => ProgressKeepsInvariant(s, i, Reviewed(s.ops[i]));
    case Later(retryAfter) => ProgressKeepsInvariant(s, i, Retried(s.ops[i], now, jitter, retryAfter));
    case Answer(snap) =>
      DecisionIsSound(s.payment, snap, taken);
      SettleOperationKeepsInvariant(s, i, Decide(s.payment, snap, taken), snap, taken, now);
    case AnswerOrRetry(snap, _) =>
      DecisionIsSound(s.payment, snap, taken);
      SettleOperationKeepsInvariant(s, i, Decide(s.payment, snap, taken), snap, taken, now);
  }

  lemma ClaimKeepsInvariant(s: Saga, i: nat, owner: nat, now: int)
    requires Inv(s) && i < |s.ops| && Claimable(s.ops, i, now)
    ensures Inv(SetOperation(s, i, Claimed(s.ops[i], now, owner)))
  {
    ClaimableIsHead(s.ops, i, now);
    ProgressKeepsInvariant(s, i, Claimed(s.ops[i], now, owner));
  }

  lemma RecoverKeepsInvariant(s: Saga, i: nat, now: int)
    requires Inv(s) && i < |s.ops| && s.ops[i].status.Processing?
    ensures Inv(SetOperation(s, i, LeaseRecovered(s.ops[i], now)))
  {
    ProcessingIsHead(s.ops, i);
    ProgressKeepsInvariant(s, i, LeaseRecovered(s.ops[i], now));
  }

  lemma ReviewDependentKeepsInvariant(s: Saga, i: nat)
    requires Inv(s) && i < |s.ops| && Active(s.ops[i])
    requires s.ops[i].dependsOn.Some? && s.ops[i].dependsOn.value < |s.ops|
    requires s.ops[s.ops[i].dependsOn.value].status.ReviewRequired?
    ensures Inv(SetOperation(s, i, Reviewed(s.ops[i])))
  {
    ReviewDependentKeepsChain(s.ops, i, Reviewed(s.ops[i]));
    ProgressKeepsAmounts(s.ops, i, Reviewed(s.ops[i]), s.payment.expected.amount);
    SameKeysKeepInvariant(s, s.ops[i := Reviewed(s.ops[i])]);
  }

  // ----- Checkout recovery -----

  lemma RecoveryKeepsInvariant(s: Saga, w: RecoveryWork, taken: TakenIds, now: int)
    requires Inv(s)
    ensures Inv(Recover(s, w, taken, now))
  {
    if Uncertain(s.payment) {
      if w.Use? {
        DecisionIsSound(s.payment, w.snapshot, taken);
        var d := Decide(s.payment, w.snapshot, taken);
        if ApplyDecision(s, d, w.snapshot, now, DEFAULTS).Ok? {
          ApplyKeepsInvariant(s, d, w.snapshot, taken, now, DEFAULTS);
        }
      } else {
        var next := Recover(s, w, taken, now);
        if next.order.status != s.order.status {
          NewStatusKeepsQueue(s.ops, s.order.status, OrderStatus.Cancelled, s.payment, s.amendments);
          NoProposalElsewhere(s.order, s.amendments, OrderStatus.Cancelled);
        }
        NewPaymentKeepsQueue(s.ops, next.order.status, s.payment, next.payment, s.amendments);
      }
    }
  }

  /** The outcome follows the row that was left behind: recovered exactly when nothing is uncertain any more. */
  lemma RecoveryOutcomes(s: Saga, w: RecoveryWork, taken: TakenIds, now: int)
    requires Inv(s) && Uncertain(s.payment)
    requires w.ExpireUncreated? ==>
               !s.order.status.Cancelled? && s.payment.expiresAt.Some? && s.payment.expiresAt.value <= now
    ensures var next := Recover(s, w, taken, now);
            Uncertain(next.payment) ==>
              || next.payment.reconciliation.ReviewRequired?
              || (next.payment.reconciliation.Pending? && next.payment.nextReconcileAt.Some?
                  && next.payment.nextReconcileAt.value > now)
    ensures w.Use? && !Decide(s.payment, w.snapshot, taken).Review? ==> !Uncertain(Recover(s, w, taken, now).payment)
  {
    if |s.ops| > 0 {
      OperationsNeedTheProvider(s);
    }
    if w.Use? {
      var d := Decide(s.payment, w.snapshot, taken);
      ApplyFailsOnlyUnderReview(s, d, w.snapshot, now, DEFAULTS);
      assert !NeedsReview(s.ops);
    } else if w.WaitUntil? {
      Retry.DelayBounds(now, w.attempts, Some(0.1), w.retryAfter);
    }
  }

  /** Operations are only ever queued for a payment that the provider knows. */
  lemma OperationsNeedTheProvider(s: Saga)
    requires Inv(s) && |s.ops| > 0
    ensures s.payment.providerOrderId.Some?
  {
    assert JustifiedOperation(s.ops[0], s.order.status, s.payment);
  }

  // ----- Customers, stores and the clock -----

  lemma ExpireKeepsProposals(order: Order, amendments: seq<Amendment>, status: OrderStatus)
    ensures Proposals(order.(status := status), ExpireProposed(amendments))
  {
  }

  lemma CancelKeepsInvariant(s: Saga, who: Actor, now: int)
    requires Inv(s) && !Undone(s.order.status) && CancelNow(s, who, now).Ok?
    ensures Inv(CancelNow(s, who, now).value)
  {
    var cancelled := AddEvent(SetOrderStatus(s, OrderStatus.Cancelled), OrderStatus.Cancelled, CancelledBy(who));
    var next := cancelled.(amendments := ExpireProposed(s.amendments));
    NewStatusKeepsQueue(s.ops, s.order.status, OrderStatus.Cancelled, s.payment, s.amendments);
    ExpireKeepsProposals(s.order, s.amendments, OrderStatus.Cancelled);
    assert QueueOk(next.ops, OrderStatus.Cancelled, next.payment, next.amendments);
    EnsureKeepsInvariant(next, now);
  }

  lemma CancelLockedKeepsInvariant(s: Saga, who: Actor, now: int)
    requires Inv(s) && CancelLocked(s, who, now).Some? && CancelLocked(s, who, now).value.Ok?
    ensures Inv(CancelLocked(s, who, now).value.value)
  {
    if s.order.status.Cancelled? {
      EnsureKeepsInvariant(s, now);
    } else {
      CancelKeepsInvariant(s, who, now);
    }
  }

  lemma CustomerCancelKeepsInvariant(s: Saga, now: int)
    requires Inv(s)
    ensures CustomerCancel(s, now).Ok? ==> Inv(CustomerCancel(s, now).value)
  {
    if s.order.status.Cancelled? || s.order.status.AwaitingPayment? {
      if CancelLocked(s, Customer, now).value.Ok? {
        CancelLockedKeepsInvariant(s, Customer, now);
      }
    } else if s.order.status.Pending? && CancelNow(s, Customer, now).Ok? {
      CancelKeepsInvariant(s, Customer, now);
    }
  }

  /** A customer is turned away exactly when the order is past confirmation or an operation of it is under review. */
  lemma CustomerCancelRefusedExactly(s: Saga, now: int)
    requires Inv(s)
    ensures CustomerCancel(s, now).Err? <==>
              || !(s.order.status.AwaitingPayment? || s.order.status.Pending? || s.order.status.Cancelled?)
              || (NeedsReview(s.ops) && (s.payment.status.Pending? || s.payment.status.Approved?))
  {
    var cancelled := AddEvent(SetOrderStatus(s, OrderStatus.Cancelled), OrderStatus.Cancelled, CancelledBy(Customer));
    DispositionFailsOnlyUnderReview(s, now);
    DispositionFailsOnlyUnderReview(cancelled.(amendments := ExpireProposed(s.amendments)), now);
    if |s.ops| > 0 {
      OperationsNeedTheProvider(s);
    }
  }

  lemma ExpireAwaitingKeepsInvariant(s: Saga, now: int)
    requires Inv(s)
    ensures ExpireAwaiting(s, now).Ok? ==> Inv(ExpireAwaiting(s, now).value)
  {
    if s.order.status.Cancelled? || s.order.status.AwaitingPayment? {
      if CancelLocked(s, System, now).value.Ok? {
        CancelLockedKeepsInvariant(s, System, now);
      }
    }
  }

  lemma StoreCancelKeepsInvariant(s: Saga, now: int)
    requires Inv(s)
    ensures StoreCancel(s, now).Ok? ==> Inv(StoreCancel(s, now).value)
  {
    if CanTransition(s.order.status, OrderStatus.Cancelled) && CancelNow(s, Store, now).Ok? {
      CancelKeepsInvariant(s, Store, now);
    }
  }

  lemma CancelStaleKeepsInvariant(s: Saga, now: int)
    requires Inv(s)
    ensures CancelStale(s, now).Ok? ==> Inv(CancelStale(s, now).value)
  {
    if s.order.status.Pending? && CancelNow(s, System, now).Ok? {
      CancelKeepsInvariant(s, System, now);
    }
  }

  lemma AdvanceKeepsInvariant(s: Saga, to: OrderStatus)
    requires Inv(s) && Advance(s, to).Ok?
    ensures Inv(Advance(s, to).value)
  {
    NewStatusKeepsQueue(s.ops, s.order.status, to, s.payment, s.amendments);
    forall i | 0 <= i < |s.amendments| ensures !s.amendments[i].status.Proposed? {
      assert s.amendments[i] in s.amendments;
    }
  }

  lemma FailDeliveryKeepsInvariant(s: Saga, now: int)
    requires Inv(s) && FailDelivery(s, now).Ok?
    ensures Inv(FailDelivery(s, now).value)
  {
    if s.order.status.DeliveryFailed? {
      EnsureKeepsInvariant(s, now);
    } else {
      var failed := AddEvent(SetOrderStatus(s, DeliveryFailed), DeliveryFailed, DeliveryFailure);
      NewStatusKeepsQueue(s.ops, s.order.status, DeliveryFailed, s.payment, s.amendments);
      NoProposalElsewhere(s.order, s.amendments, DeliveryFailed);
      EnsureKeepsInvariant(failed, now);
    }
  }

  // ----- Amendments -----

  lemma ProposeKeepsInvariant(s: Saga, changes: seq<Change>)
    requires Inv(s) && DistinctChanges(changes) && Propose(s, changes).Ok?
    ensures Inv(Propose(s, changes).value)
  {
    FrozenSubtotal(s.order.items, changes);
    ReductionLowersSubtotal(s.order.items, changes);
    var next := Propose(s, changes).value.amendments;
    forall i | 0 <= i < |s.amendments| ensures !s.amendments[i].status.Proposed? {
      assert s.amendments[i] in s.amendments;
    }
    forall i | 0 <= i < |next| ensures ProposalFits(s.order, next[i]) {
      assert i < |s.amendments| ==> next[i] == s.amendments[i];
    }
  }

  lemma WithdrawKeepsInvariant(s: Saga)
    requires Inv(s) && Withdraw(s).Ok?
    ensures Inv(Withdraw(s).value)
  {
    ExpireKeepsProposals(s.order, s.amendments, s.order.status);
  }

  /** Once the waiting proposal is resolved none is left. */
  lemma ResolvedLeavesNone(order: Order, amendments: seq<Amendment>, i: nat, status: AmendmentStatus, next: Order)
    requires Proposals(order, amendments) && i < |amendments| && amendments[i].status.Proposed? && !status.Proposed?
    ensures Proposals(next, amendments[i := amendments[i].(status := status)])
  {
    var after := amendments[i := amendments[i].(status := status)];
    forall j | 0 <= j < |after| ensures !after[j].status.Proposed? {
      assert j < i ==> !amendments[j].status.Proposed?;
      assert i < j ==> !amendments[j].status.Proposed?;
    }
  }

  lemma ResolvedKeepsQueue(s: Saga, i: nat, status: AmendmentStatus)
    requires Inv(s) && i < |s.amendments| && s.amendments[i].status.Proposed?
    ensures QueueOk(s.ops, s.order.status, s.payment, s.amendments[i := s.amendments[i].(status := status)])
    ensures forall op | op in s.ops :: op.key != AmendmentKey(i)
  {
    forall op | op in s.ops ensures op.key != AmendmentKey(i) {
      var k :| 0 <= k < |s.ops| && s.ops[k] == op;
    }
    var after := s.amendments[i := s.amendments[i].(status := status)];
    forall k | 0 <= k < |s.ops| && s.ops[k].key.AmendmentKey?
      ensures s.ops[k].key.amendment < |after| && after[s.ops[k].key.amendment].status.Approved?
    {
      assert s.ops[k] in s.ops;
    }
  }

  lemma ApproveKeepsInvariant(s: Saga, now: int)
    requires Inv(s) && Approve(s, now).Ok?
    ensures Inv(Approve(s, now).value)
  {
    var i := PendingAmendment(s.amendments).value;
    var a := s.amendments[i];
    assert ProposalFits(s.order, a);
    var amendments := s.amendments[i := a.(status := AmendmentStatus.Approved)];
    var order := s.order.(items := ApplyChanges(s.order.items, a.changes), subtotal := a.newSubtotal,
        total := a.newTotal);
    ApplyChangesSubtotal(s.order.items, a.changes);
    ApplyChangesKeepDistinct(s.order.items, a.changes);
    ResolvedLeavesNone(s.order, s.amendments, i, AmendmentStatus.Approved, order);
    ResolvedKeepsQueue(s, i, AmendmentStatus.Approved);
    if a.refund > 0 && s.payment.status.Approved? {
      var intent := PartialIntent(i, a.refund);
      EnqueueKeepsQueue(s.ops, s.order.status, s.payment, amendments, intent, now);
      EnqueueKeepsSum(s.ops, s.payment, intent, now);
    }
  }

  lemma RejectKeepsInvariant(s: Saga, now: int)
    requires Inv(s) && Reject(s, now).Ok?
    ensures Inv(Reject(s, now).value)
  {
    var i := PendingAmendment(s.amendments).value;
    var order := s.order.(status := OrderStatus.Cancelled);
    ResolvedLeavesNone(s.order, s.amendments, i, AmendmentStatus.Rejected, order);
    ResolvedKeepsQueue(s, i, AmendmentStatus.Rejected);
    var amendments := s.amendments[i := s.amendments[i].(status := AmendmentStatus.Rejected)];
    NewStatusKeepsQueue(s.ops, s.order.status, OrderStatus.Cancelled, s.payment, amendments);
    var resolved := SetOrderStatus(ResolveAmendment(s, i, AmendmentStatus.Rejected), OrderStatus.Cancelled);
    EnsureKeepsInvariant(resolved, now);
  }
}

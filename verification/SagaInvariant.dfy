/** What holds of one online order in every reachable state. */
module SagaInvariant {
  import opened Items
  import opened OperationQueue
  import opened OrderFlows
  import opened OrderStatuses
  import opened PaymentData
  import opened Transition

  /** Order status and payment status move together. */
  ghost predicate Coupled(o: OrderStatus, p: PaymentStatus) {
    && (o.AwaitingPayment? ==> p.Pending?)
    && (p.Pending? ==> o.AwaitingPayment? || o.Cancelled?)
    && (Unpaid(p) ==> o.Cancelled?)
  }

  /** Provider ids come in pairs, and money was seen only where the provider is known. */
  ghost predicate Sane(p: Payment) {
    && p.expected.amount > 0
    && 0 <= p.refundedAmount <= p.expected.amount
    && (p.providerOrderId.Some? <==> p.providerTransactionId.Some?)
    && (p.status.Approved? || p.status.Refunded? ==> p.providerOrderId.Some?)
    && (p.status.Refunded? ==> p.refundedAmount == p.expected.amount)
  }

  ghost predicate HasKey(ops: seq<Operation>, key: BusinessKey) {
    exists i | 0 <= i < |ops| :: ops[i].key == key
  }

  /** What the provider must still be asked to cancel is always queued. */
  ghost predicate CancelCovered(o: OrderStatus, p: Payment, ops: seq<Operation>) {
    o.Cancelled? && p.status.Pending? && p.providerOrderId.Some? ==> HasKey(ops, CancelKey)
  }

  /** What the provider must still be asked to give back is always queued. */
  ghost predicate RefundCovered(o: OrderStatus, p: Payment, ops: seq<Operation>) {
    Undone(o) && p.status.Approved? ==> HasKey(ops, RefundFullKey)
  }

  /** Why an operation may exist, and what its success says about the payment. */
  ghost predicate JustifiedOperation(op: Operation, o: OrderStatus, p: Payment) {
    && p.providerOrderId.Some?
    && (op.key.CancelKey? ==> o.Cancelled?)
    && (op.key.RefundFullKey? ==> Undone(o))
    && (op.key.CancelKey? && op.status.Succeeded? ==> !p.status.Pending?)
    && (op.key.RefundFullKey? && op.status.Succeeded? ==> p.status.Refunded?)
  }

  ghost predicate Justified(ops: seq<Operation>, o: OrderStatus, p: Payment) {
    forall i | 0 <= i < |ops| :: JustifiedOperation(ops[i], o, p)
  }

  /** Partial refunds come from approved amendments only. */
  ghost predicate FromApproved(ops: seq<Operation>, amendments: seq<Amendment>) {
    forall i | 0 <= i < |ops| && ops[i].key.AmendmentKey? ::
      ops[i].key.amendment < |amendments| && amendments[ops[i].key.amendment].status.Approved?
  }

  ghost predicate Priced(order: Order) {
    && DistinctItems(order.items)
    && order.subtotal == Subtotal(order.items)
    && order.total == order.subtotal + order.deliveryFee
  }

  /** A waiting proposal still describes the order it was made for. */
  ghost predicate ProposalFits(order: Order, a: Amendment) {
    a.status.Proposed? ==>
      && Proposable(order.status)
      && DistinctChanges(a.changes)
      && a.newSubtotal == SubtotalAfter(order.items, a.changes)
      && a.newTotal == a.newSubtotal + order.deliveryFee
      && 0 <= a.refund == order.total - a.newTotal
  }

  ghost predicate Proposals(order: Order, amendments: seq<Amendment>) {
    && (forall i | 0 <= i < |amendments| :: ProposalFits(order, amendments[i]))
    && (forall i, j | 0 <= i < j < |amendments| ::
          !(amendments[i].status.Proposed? && amendments[j].status.Proposed?))
  }

  /** What the customer still pays plus what was queued for refund is what was charged. */
  ghost predicate Conserved(total: int, ops: seq<Operation>, p: Payment) {
    !p.status.Refunded? ==> total + PartialSum(ops) == p.expected.amount
  }

  /** The part about the queue. */
  ghost predicate QueueOk(ops: seq<Operation>, o: OrderStatus, p: Payment, amendments: seq<Amendment>) {
    && Chain(ops)
    && Targets(ops, p.expected.amount)
    && Justified(ops, o, p)
    && FromApproved(ops, amendments)
  }

  /** Everything but the promise that the queue covers what is owed. */
  ghost predicate Consistent(s: Saga) {
    && Coupled(s.order.status, s.payment.status)
    && Sane(s.payment)
    && QueueOk(s.ops, s.order.status, s.payment, s.amendments)
    && Priced(s.order)
    && Proposals(s.order, s.amendments)
    && Conserved(s.order.total, s.ops, s.payment)
  }

  ghost predicate Covered(s: Saga) {
    && CancelCovered(s.order.status, s.payment, s.ops)
    && RefundCovered(s.order.status, s.payment, s.ops)
  }

  ghost predicate Inv(s: Saga) {
    Consistent(s) && Covered(s)
  }

  // ----- Queueing -----

  /** Only an operation under review can stop the disposition of a payment. */
  lemma DispositionFailsOnlyUnderReview(s: Saga, now: int)
    requires Targets(s.ops, s.payment.expected.amount)
    ensures EnsureDisposition(s, now).Err? ==> EnsureDisposition(s, now).error == ChainRequiresReview
    ensures EnsureDisposition(s, now).Err? ==> NeedsReview(s.ops)
  {
    var intent := DispositionIntent(s.payment);
    if intent.Some? {
      var found := FindKey(s.ops, intent.value.key);
      if found.Some? {
        assert WellTyped(s.ops[found.value], s.payment.expected.amount);
      }
    }
  }

  lemma AppendToSum(ops: seq<Operation>, op: Operation)
    ensures PartialSum(ops + [op]) == PartialSum(ops) + PartialAmount(op)
  {
    assert (ops + [op])[..|ops|] == ops;
  }

  /** The reason for which an intent may be queued. */
  ghost predicate Reason(intent: Intent, o: OrderStatus, p: Payment, amendments: seq<Amendment>) {
    && KeyFits(intent)
    && p.providerOrderId.Some?
    && match intent.key
       case CancelKey => o.Cancelled?
       case RefundFullKey => Undone(o)
       case AmendmentKey(k) => k < |amendments| && amendments[k].status.Approved?
  }

  lemma EnqueueKeepsQueue(ops: seq<Operation>, o: OrderStatus, p: Payment, amendments: seq<Amendment>, intent: Intent,
                          now: int)
    requires QueueOk(ops, o, p, amendments) && Sane(p) && Reason(intent, o, p, amendments)
    requires Enqueue(p, ops, intent, now).Ok?
    ensures var next := Enqueue(p, ops, intent, now).value.ops;
            && QueueOk(next, o, p, amendments)
            && ops <= next
            && HasKey(next, intent.key)
  {
    EnqueueKeepsChain(p, ops, intent, now);
    EnqueueKeepsTargets(p, ops, intent, now);
    var r := Enqueue(p, ops, intent, now).value;
    assert r.ops[r.id].key == intent.key;
    forall i | 0 <= i < |r.ops| ensures JustifiedOperation(r.ops[i], o, p) {
      if i < |ops| {
        assert r.ops[i] == ops[i];
      }
    }
    forall i | 0 <= i < |r.ops| && r.ops[i].key.AmendmentKey?
      ensures r.ops[i].key.amendment < |amendments| && amendments[r.ops[i].key.amendment].status.Approved?
    {
      if i < |ops| {
        assert r.ops[i] == ops[i];
      }
    }
  }

  /** Operations other than partial refunds leave the sum of the partial refunds alone. */
  lemma EnqueueKeepsSum(ops: seq<Operation>, p: Payment, intent: Intent, now: int)
    requires Enqueue(p, ops, intent, now).Ok?
    ensures var r := Enqueue(p, ops, intent, now).value;
            PartialSum(r.ops) == PartialSum(ops)
              + if r.inserted && intent.kind.RefundPartial? then intent.amount.value else 0
  {
    var r := Enqueue(p, ops, intent, now).value;
    if r.inserted {
      AppendToSum(ops, r.ops[|ops|]);
    }
  }

  /** The situations in which a disposition is given. */
  ghost predicate Owing(o: OrderStatus, p: PaymentStatus) {
    && (p.Pending? ==> o.Cancelled?)
    && (p.Approved? ==> Undone(o))
  }

  lemma EnsureKeepsInvariant(s: Saga, now: int)
    requires Consistent(s) && Owing(s.order.status, s.payment.status) && EnsureDisposition(s, now).Ok?
    ensures Inv(EnsureDisposition(s, now).value.saga)
  {
    var intent := DispositionIntent(s.payment);
    if intent.Some? {
      EnqueueKeepsQueue(s.ops, s.order.status, s.payment, s.amendments, intent.value, now);
      EnqueueKeepsSum(s.ops, s.payment, intent.value, now);
    }
  }
}

/** The transactions of customers, stores and the clock that move an online order. */
module OrderFlows {
  import opened Items
  import opened OperationQueue
  import opened OrderStatuses
  import opened PaymentData
  import opened Transition
  import opened Wrappers

  datatype FlowError = Refused | QueueFailed(error: QueueError)

  // ----- Cancelling -----

  function ExpireProposed(amendments: seq<Amendment>): (r: seq<Amendment>)
    ensures |r| == |amendments|
  {
    seq(|amendments|, i requires 0 <= i < |amendments| =>
      if amendments[i].status.Proposed? then amendments[i].(status := AmendmentStatus.Expired) else amendments[i])
  }

  function Dispose(s: Saga, now: int): Result<Saga, FlowError> {
    var r := EnsureDisposition(s, now);
    if r.Err? then Err(QueueFailed(r.error)) else Ok(r.value.saga)
  }

  /** Cancels, drops a waiting amendment and settles the payment, all or nothing. */
  function CancelNow(s: Saga, who: Actor, now: int): Result<Saga, FlowError> {
    var cancelled := AddEvent(SetOrderStatus(s, OrderStatus.Cancelled), OrderStatus.Cancelled, CancelledBy(who));
    Dispose(cancelled.(amendments := ExpireProposed(s.amendments)), now)
  }

  /** `None` when the order is neither cancelled nor awaiting its payment. */
  function CancelLocked(s: Saga, who: Actor, now: int): Option<Result<Saga, FlowError>> {
    if s.order.status.Cancelled? then Some(Dispose(s, now))
    else if s.order.status.AwaitingPayment? then Some(CancelNow(s, who, now))
    else None
  }

  function CustomerCancel(s: Saga, now: int): Result<Saga, FlowError> {
    var awaiting := CancelLocked(s, Customer, now);
    if awaiting.Some? then awaiting.value
    else if !s.order.status.Pending? then Err(Refused)
    else CancelNow(s, Customer, now)
  }

  function ExpireAwaiting(s: Saga, now: int): Result<Saga, FlowError> {
    if !(s.payment.status.Pending? && s.payment.expiresAt.Some? && s.payment.expiresAt.value <= now) then Ok(s)
    else
      var r := CancelLocked(s, System, now);
      if r.Some? then r.value else Ok(s)
  }

  /** The store cancels, or grants a cancellation that the customer asked for. */
  function StoreCancel(s: Saga, now: int): Result<Saga, FlowError> {
    if !CanTransition(s.order.status, OrderStatus.Cancelled) then Err(Refused) else CancelNow(s, Store, now)
  }

  function CancelStale(s: Saga, now: int): Result<Saga, FlowError> {
    if !s.order.status.Pending? then Err(Refused) else CancelNow(s, System, now)
  }

  // ----- Moving forward -----

  function PendingAmendment(amendments: seq<Amendment>): (r: Option<nat>)
    ensures r.Some? ==> r.value < |amendments| && amendments[r.value].status.Proposed?
    ensures r.None? <==> forall a | a in amendments :: !a.status.Proposed?
  {
    if |amendments| == 0 then None
    else
      var earlier := PendingAmendment(amendments[..|amendments| - 1]);
      assert amendments == amendments[..|amendments| - 1] + [amendments[|amendments| - 1]];
      if earlier.Some? then earlier
      else if amendments[|amendments| - 1].status.Proposed? then Some(|amendments| - 1) else None
  }

  /** Steps of the store and of drivers; a withdrawn driver request returns an order to the counter. */
  predicate ForwardStep(from: OrderStatus, to: OrderStatus) {
    || (CanTransition(from, to) && !to.Pending? && !to.Cancelled? && !to.DeliveryFailed?)
    || (from.AwaitingDriver? && to.Ready?)
  }

  function Advance(s: Saga, to: OrderStatus): Result<Saga, FlowError> {
    if !ForwardStep(s.order.status, to) then Err(Refused)
    else if PendingAmendment(s.amendments).Some? then Err(Refused)
    else Ok(AddEvent(SetOrderStatus(s, to), to, Advanced))
  }

  /** A failed delivery refunds the customer too; reporting it twice only repeats the disposition. */
  function FailDelivery(s: Saga, now: int): Result<Saga, FlowError> {
    if s.order.status.DeliveryFailed? then Dispose(s, now)
    else if !s.order.status.OutForDelivery? then Err(Refused)
    else
      Dispose(AddEvent(SetOrderStatus(s, DeliveryFailed), DeliveryFailed, DeliveryFailure), now)
  }

  // ----- Amendments -----

  predicate Proposable(status: OrderStatus) {
    status.Accepted? || status.Preparing?
  }

  function Propose(s: Saga, changes: seq<Change>): Result<Saga, FlowError> {
    if !Proposable(s.order.status) || PendingAmendment(s.amendments).Some? then Err(Refused)
    else if !OnlyReduces(s.order.items, changes) || !ReducesSomething(s.order.items, changes) then Err(Refused)
    else
      var newSubtotal := SubtotalAfter(s.order.items, changes);
      if newSubtotal == 0 then Err(Refused)
      else
        var newTotal := newSubtotal + s.order.deliveryFee;
        var a := Amendment(Proposed, newSubtotal, newTotal, s.order.total - newTotal, Frozen(s.order.items, changes));
        Ok(s.(amendments := s.amendments + [a]))
  }

  function Withdraw(s: Saga): Result<Saga, FlowError> {
    if PendingAmendment(s.amendments).None? then Err(Refused)
    else Ok(s.(amendments := ExpireProposed(s.amendments)))
  }

  function ResolveAmendment(s: Saga, i: nat, status: AmendmentStatus): Saga
    requires i < |s.amendments|
  {
    s.(amendments := s.amendments[i := s.amendments[i].(status := status)])
  }

  function PartialIntent(i: nat, refund: int): Intent {
    Intent(RefundPartial, Some(refund), AmendmentKey(i))
  }

  /** The items and amounts change as frozen, and what was charged in excess is queued for refund. */
  function Approve(s: Saga, now: int): Result<Saga, FlowError> {
    if !Proposable(s.order.status) then Err(Refused)
    else
      var pending := PendingAmendment(s.amendments);
      if pending.None? then Err(Refused)
      else
        var i := pending.value;
        var a := s.amendments[i];
        var order := s.order.(items := ApplyChanges(s.order.items, a.changes), subtotal := a.newSubtotal,
                              total := a.newTotal);
        var next := ResolveAmendment(s, i, AmendmentStatus.Approved).(order := order);
        if a.refund > 0 && s.payment.status.Approved? then
          var r := Enqueue(s.payment, s.ops, PartialIntent(i, a.refund), now);
          if r.Err? then Err(QueueFailed(r.error))
          else
            var refunded := AddEvent(next.(ops := r.value.ops), order.status, PartialRefund(a.refund));
            Ok(AddEvent(refunded, order.status, Amended(a.refund)))
        else Ok(AddEvent(next, order.status, Amended(a.refund)))
  }

  /** Refusing the amendment cancels the order. */
  function Reject(s: Saga, now: int): Result<Saga, FlowError> {
    if !Proposable(s.order.status) then Err(Refused)
    else
      var pending := PendingAmendment(s.amendments);
      if pending.None? then Err(Refused)
      else
        var resolved := ResolveAmendment(s, pending.value, AmendmentStatus.Rejected);
        var r := Dispose(SetOrderStatus(resolved, OrderStatus.Cancelled), now);
        if r.Err? then r else Ok(AddEvent(r.value, OrderStatus.Cancelled, AmendmentRefused))
  }
}

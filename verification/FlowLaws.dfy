/** What customers, stores and the clock may do to an online order, and everything that each of them writes. */
module FlowLaws {
  import opened Items
  import opened OperationQueue
  import opened OrderFlows
  import opened OrderStatuses
  import opened PaymentData
  import opened SagaInvariant
  import opened Snapshots
  import opened Transition
  import opened TransitionLaws
  import opened Wrappers

  // ----- What a cancellation comes to -----

  predicate HeldUp(ops: seq<Operation>) {
    exists op | op in ops :: op.status == OperationStatus.ReviewRequired
  }

  /** What is still to be asked of the provider cannot be while an operation is under review. */
  predicate Blocked(s: Saga) {
    Needed(s.payment).Some? && HeldUp(s.ops)
  }

  /** The operation that the payment calls for is queued, if any. */
  ghost predicate Owed(s: Saga, after: seq<Operation>, now: int) {
    match Needed(s.payment)
    case None => after == s.ops
    case Some((kind, key)) => Asked(s.ops, after, kind, key, s.payment.expected.amount, now)
  }

  /** Waiting proposals lapse, and others stay. */
  predicate Lapsed(before: seq<Amendment>, after: seq<Amendment>) {
    && |after| == |before|
    && forall i | 0 <= i < |before| ::
         after[i] == if before[i].status == Proposed then before[i].(status := AmendmentStatus.Expired) else before[i]
  }

  /** The order is cancelled, its proposal lapses, and what the payment calls for is queued. */
  ghost predicate CancelledAs(s: Saga, next: Saga, who: Actor, now: int) {
    && next.order == s.order.(status := OrderStatus.Cancelled) && next.payment == s.payment
    && Lapsed(s.amendments, next.amendments) && Owed(s, next.ops, now)
    && next.events == s.events + [Event(OrderStatus.Cancelled, CancelledBy(who))]
  }

  /** Only what the payment calls for is queued. */
  ghost predicate OnlyOwed(s: Saga, next: Saga, now: int) {
    next == s.(ops := next.ops) && Owed(s, next.ops, now)
  }

  lemma DispositionBlocked(s: Saga, now: int)
    requires Targets(s.ops, s.payment.expected.amount)
    ensures EnsureDisposition(s, now).Err? <==> Blocked(s)
    ensures EnsureDisposition(s, now).Ok? ==>
              OnlyOwed(s, EnsureDisposition(s, now).value.saga, now)
  {
    DispositionFailsOnlyUnderReview(s, now);
    if EnsureDisposition(s, now).Ok? {
      DispositionAsks(s, now);
      EnsureKeepsRows(s, now);
    }
  }

  lemma CancellationWrites(s: Saga, who: Actor, now: int)
    requires Targets(s.ops, s.payment.expected.amount)
    ensures CancelNow(s, who, now).Ok? <==> !Blocked(s)
    ensures CancelNow(s, who, now).Ok? ==> CancelledAs(s, CancelNow(s, who, now).value, who, now)
  {
    var cancelled := AddEvent(SetOrderStatus(s, OrderStatus.Cancelled), OrderStatus.Cancelled, CancelledBy(who));
    DispositionBlocked(cancelled.(amendments := ExpireProposed(s.amendments)), now);
  }

  /** A customer cancels until the store accepts; once cancelled, it only asks again for the money. */
  lemma CustomerCancelsExactly(s: Saga, now: int)
    requires Inv(s)
    ensures var r := CustomerCancel(s, now);
            && (r.Ok? <==>
                  (s.order.status in {AwaitingPayment, OrderStatus.Pending, OrderStatus.Cancelled}) && !Blocked(s))
            && (r.Ok? ==>
                  if s.order.status == OrderStatus.Cancelled then OnlyOwed(s, r.value, now)
                  else CancelledAs(s, r.value, Customer, now))
  {
    CancellationWrites(s, Customer, now);
    DispositionBlocked(s, now);
  }

  /** A store cancels until the order is on the road. */
  lemma StoreCancelsExactly(s: Saga, now: int)
    requires Inv(s)
    ensures var r := StoreCancel(s, now);
            && (r.Ok? <==>
                  && (s.order.status in {AwaitingPayment, OrderStatus.Pending, Accepted, Preparing, Ready,
                                         AwaitingDriver})
                  && !Blocked(s))
            && (r.Ok? ==> CancelledAs(s, r.value, Store, now))
  {
    CancellationWrites(s, Store, now);
  }

  lemma StaleOrdersAreCancelledExactly(s: Saga, now: int)
    requires Inv(s)
    ensures var r := CancelStale(s, now);
            && (r.Ok? <==> s.order.status == OrderStatus.Pending && !Blocked(s))
            && (r.Ok? ==> CancelledAs(s, r.value, System, now))
  {
    CancellationWrites(s, System, now);
  }

  /** The clock cancels what was not paid in time, and repeats what the payment calls for. */
  lemma OverdueOrdersAreCancelledExactly(s: Saga, now: int)
    requires Inv(s)
    ensures var r := ExpireAwaiting(s, now);
            var overdue := s.payment.status == PaymentStatus.Pending && s.payment.expiresAt.Some?
                           && s.payment.expiresAt.value <= now;
            if !overdue then r == Ok(s)
            else
              && (r.Ok? <==> !Blocked(s))
              && (r.Ok? ==>
                    if s.order.status == AwaitingPayment then CancelledAs(s, r.value, System, now)
                    else s.order.status == OrderStatus.Cancelled && OnlyOwed(s, r.value, now))
  {
    CancellationWrites(s, System, now);
    DispositionBlocked(s, now);
  }

  // ----- Moving forward -----

  predicate Proposing(s: Saga) {
    exists a | a in s.amendments :: a.status == Proposed
  }

  /** The steps of stores and drivers. */
  predicate StepsTo(from: OrderStatus, to: OrderStatus) {
    match to
    case Accepted => from == OrderStatus.Pending
    case Preparing => from == Accepted
    case Ready => from == Preparing || from == AwaitingDriver
    case AwaitingDriver => from == Ready
    case OutForDelivery => from == Ready || from == AwaitingDriver
    case Delivered => from == Ready || from == OutForDelivery
    case _ => false
  }

  /** While a proposal waits for the customer, nothing moves. */
  lemma AdvancesExactly(s: Saga, to: OrderStatus)
    ensures Advance(s, to) ==
            if StepsTo(s.order.status, to) && !Proposing(s) then
              Ok(s.(order := s.order.(status := to), events := s.events + [Event(to, Advanced)]))
            else Err(Refused)
  {
  }

  /** A delivery fails on the road, and then what was paid is owed back. */
  lemma DeliveryFailsExactly(s: Saga, now: int)
    requires Inv(s)
    ensures var r := FailDelivery(s, now);
            && (r.Ok? <==> (s.order.status == OutForDelivery || s.order.status == DeliveryFailed) && !Blocked(s))
            && (r.Ok? ==>
                  if s.order.status == DeliveryFailed then OnlyOwed(s, r.value, now)
                  else
                    && r.value.order == s.order.(status := DeliveryFailed) && r.value.payment == s.payment
                    && r.value.amendments == s.amendments && Owed(s, r.value.ops, now)
                    && r.value.events == s.events + [Event(DeliveryFailed, DeliveryFailure)])
  {
    DispositionBlocked(s, now);
    DispositionBlocked(AddEvent(SetOrderStatus(s, DeliveryFailed), DeliveryFailed, DeliveryFailure), now);
  }

  // ----- Proposals -----

  predicate InTheKitchen(s: Saga) {
    s.order.status == Accepted || s.order.status == Preparing
  }

  /** Every change is of an item of the order, none raises a quantity, and one lowers it. */
  predicate Reduces(items: seq<Item>, changes: seq<Change>) {
    && (forall c | c in changes :: exists item | item in items :: item.id == c.item && c.newQuantity <= item.quantity)
    && exists c | c in changes :: exists item | item in items :: item.id == c.item && c.newQuantity < item.quantity
  }

  lemma ReductionWritten(items: seq<Item>, changes: seq<Change>)
    requires DistinctItems(items)
    ensures OnlyReduces(items, changes) && ReducesSomething(items, changes) <==> Reduces(items, changes)
  {
    forall item | item in items ensures FindItem(items, item.id) == Some(item) {
      var found := FindItem(items, item.id).value;
      assert item in items && found in items;
    }
  }

  /** A proposal freezes the changes, the amounts that they lead to, and what is to be given back. */
  lemma ProposesExactly(s: Saga, changes: seq<Change>)
    requires Inv(s)
    ensures var r := Propose(s, changes);
            var subtotal := SubtotalAfter(s.order.items, changes);
            if InTheKitchen(s) && !Proposing(s) && Reduces(s.order.items, changes) && subtotal > 0 then
              && r.Ok? && |r.value.amendments| == |s.amendments| + 1
              && var a := r.value.amendments[|s.amendments|];
                 && r.value == s.(amendments := s.amendments + [a])
                 && a.status == Proposed && a.newSubtotal == subtotal
                 && a.newTotal == subtotal + s.order.deliveryFee && a.refund == s.order.total - a.newTotal
                 && Real(s.order.items, changes, a.changes)
            else r == Err(Refused)
  {
    ReductionWritten(s.order.items, changes);
    FrozenWritten(s.order.items, changes);
  }

  /** Just the changes that change something are kept. */
  ghost predicate Real(items: seq<Item>, changes: seq<Change>, kept: seq<Change>) {
    forall c :: c in kept <==>
      c in changes && !exists item | item in items :: item.id == c.item && item.quantity == c.newQuantity
  }

  lemma {:induction false} FrozenWritten(items: seq<Item>, changes: seq<Change>)
    requires DistinctItems(items)
    ensures Real(items, changes, Frozen(items, changes))
  {
    if |changes| > 0 {
      FrozenWritten(items, changes[1..]);
      var found := FindItem(items, changes[0].item);
      assert forall item | item in items && item.id == changes[0].item :: found == Some(item);
      assert forall c :: c in changes <==> c == changes[0] || c in changes[1..];
    }
  }

  lemma WithdrawsExactly(s: Saga)
    ensures var r := Withdraw(s);
            && (r.Err? <==> !Proposing(s)) && (r.Err? ==> r.error == Refused)
            && (r.Ok? ==> r.value == s.(amendments := r.value.amendments) && Lapsed(s.amendments, r.value.amendments))
  {
  }

  /** The one proposal that waits gets this answer, and no other amendment changes. */
  predicate Answered(before: seq<Amendment>, after: seq<Amendment>, i: nat, answer: AmendmentStatus) {
    i < |before| && before[i].status == Proposed && after == before[i := before[i].(status := answer)]
  }

  /** Refusing a proposal cancels the order, and the customer gets the money back. */
  lemma RejectsExactly(s: Saga, now: int)
    requires Inv(s)
    ensures var r := Reject(s, now);
            && (r.Ok? <==> InTheKitchen(s) && Proposing(s) && !Blocked(s))
            && (r.Ok? ==>
                  && r.value.order == s.order.(status := OrderStatus.Cancelled) && r.value.payment == s.payment
                  && (exists i: nat :: Answered(s.amendments, r.value.amendments, i, AmendmentStatus.Rejected))
                  && Owed(s, r.value.ops, now)
                  && r.value.events == s.events + [Event(OrderStatus.Cancelled, AmendmentRefused)])
  {
    var pending := PendingAmendment(s.amendments);
    if InTheKitchen(s) && pending.Some? {
      var answered := ResolveAmendment(s, pending.value, AmendmentStatus.Rejected);
      var resolved := SetOrderStatus(answered, OrderStatus.Cancelled);
      assert Answered(s.amendments, resolved.amendments, pending.value, AmendmentStatus.Rejected);
      DispositionBlocked(resolved, now);
    }
  }

  // ----- Approving -----

  /** One change carried out: the item it names is dropped or gets its new quantity. */
  lemma {:induction false} ChangeWritten(items: seq<Item>, c: Change, item: Item)
    ensures item in ApplyChange(items, c) <==>
            || (item in items && item.id != c.item)
            || (c.newQuantity > 0 && exists from | from in items ::
                  from.id == c.item && item == Item(from.id, from.unitPrice, c.newQuantity))
  {
    if |items| > 0 {
      ChangeWritten(items[1..], c, item);
      assert forall x :: x in items <==> x == items[0] || x in items[1..];
    }
  }

  /** What an item becomes: its new quantity if a change names it, and nothing at zero. */
  predicate Carried(from: Item, changes: seq<Change>, item: Item) {
    if exists c | c in changes :: c.item == from.id then
      exists c | c in changes ::
        c.item == from.id && c.newQuantity > 0 && item == Item(from.id, from.unitPrice, c.newQuantity)
    else item == from
  }

  /** What an item becomes, one change at a time. */
  lemma CarriedStepwise(from: Item, c: Change, rest: seq<Change>, item: Item)
    requires DistinctChanges([c] + rest)
    ensures Carried(from, [c] + rest, item) <==>
            if from.id != c.item then Carried(from, rest, item)
            else c.newQuantity > 0 && item == Item(from.id, from.unitPrice, c.newQuantity)
    ensures from.id == c.item ==> (Carried(from, rest, item) <==> item == from)
  {
    var changes := [c] + rest;
    assert forall x :: x in changes <==> x == c || x in rest;
    forall x | x in rest ensures x.item != c.item {
      var j :| 0 <= j < |rest| && rest[j] == x;
      assert changes[0].item != changes[j + 1].item;
    }
  }

  lemma {:induction false} ChangesWritten(items: seq<Item>, changes: seq<Change>, item: Item)
    requires DistinctChanges(changes)
    ensures item in ApplyChanges(items, changes) <==> exists from | from in items :: Carried(from, changes, item)
    decreases |changes|
  {
    if |changes| > 0 {
      var c, rest := changes[0], changes[1..];
      assert changes == [c] + rest;
      ChangesWritten(ApplyChange(items, c), rest, item);
      if from :| from in ApplyChange(items, c) && Carried(from, rest, item) {
        CarriedFromOriginal(items, c, rest, from, item);
      }
      if from :| from in items && Carried(from, changes, item) {
        CarriedStepwise(from, c, rest, item);
        ChangeWritten(items, c, from);
        if from.id == c.item {
          ChangeWritten(items, c, item);
          CarriedStepwise(item, c, rest, item);
          assert item in ApplyChange(items, c) && Carried(item, rest, item);
        } else {
          assert from in ApplyChange(items, c) && Carried(from, rest, item);
        }
      }
    }
  }

  lemma CarriedFromOriginal(items: seq<Item>, c: Change, rest: seq<Change>, from: Item, item: Item)
    requires DistinctChanges([c] + rest) && from in ApplyChange(items, c) && Carried(from, rest, item)
    ensures exists x | x in items :: Carried(x, [c] + rest, item)
  {
    ChangeWritten(items, c, from);
    CarriedStepwise(from, c, rest, item);
    if from.id == c.item {
      var x :| x in items && x.id == c.item && from == Item(x.id, x.unitPrice, c.newQuantity);
      CarriedStepwise(x, c, rest, item);
    }
  }

  /** The refund and all that was or will be given back before it stay within the charge. */
  predicate RoomFor(s: Saga, refund: int) {
    && s.payment.refundedAmount + refund <= s.payment.expected.amount
    && forall op | op in s.ops && op.kind != CancelOrder && op.target.Some? ::
         op.target.value + refund <= s.payment.expected.amount
  }

  /** The refund goes on top of the largest amount that was or will be given back before it. */
  ghost predicate OnTop(s: Saga, refund: int, target: int) {
    && target >= s.payment.refundedAmount + refund
    && (forall op | op in s.ops && op.kind != CancelOrder && op.target.Some? :: target >= op.target.value + refund)
    && (target == s.payment.refundedAmount + refund
        || exists op | op in s.ops :: op.target.Some? && target == op.target.value + refund)
  }

  /** A partial refund for the amendment is queued last. */
  ghost predicate RefundQueued(s: Saga, after: seq<Operation>, i: nat, refund: int, now: int) {
    && |after| == |s.ops| + 1 && after[..|s.ops|] == s.ops
    && var op := after[|s.ops|];
       && op.kind == RefundPartial && op.amount == Some(refund) && op.key == AmendmentKey(i)
       && op.status == OperationStatus.Pending && op.attempts == 0 && op.nextAttemptAt == now
       && op.target.Some? && OnTop(s, refund, op.target.value)
  }

  /** Until its order is undone, a payment's operations are the refunds of amendments approved before. */
  lemma OnlyPartialRefunds(s: Saga, i: nat)
    requires Inv(s) && InTheKitchen(s) && i < |s.amendments| && s.amendments[i].status == Proposed
    ensures forall op | op in s.ops :: op.kind == RefundPartial && op.key != AmendmentKey(i)
    ensures FindKey(s.ops, AmendmentKey(i)) == None
  {
    forall op | op in s.ops ensures op.kind == RefundPartial && op.key != AmendmentKey(i) {
      var j :| 0 <= j < |s.ops| && s.ops[j] == op;
      assert JustifiedOperation(s.ops[j], s.order.status, s.payment) && WellTyped(s.ops[j], s.payment.expected.amount);
    }
  }

  lemma PartialWritten(s: Saga, i: nat, refund: int, now: int)
    requires refund > 0 && FindKey(s.ops, AmendmentKey(i)) == None
    requires forall op | op in s.ops :: op.kind == RefundPartial
    ensures var r := Enqueue(s.payment, s.ops, PartialIntent(i, refund), now);
            var target := MaxTarget(s.ops, None, s.payment.refundedAmount) + refund;
            if !HeldUp(s.ops) && refund <= MAX_SAFE_INTEGER && target <= s.payment.expected.amount then
              r.Ok? && r.value.ops == s.ops + [NewOperation(PartialIntent(i, refund), Some(target),
                                                            LastActive(s.ops, None), now)]
            else r.Err?
  {
    var active := LastActive(s.ops, None);
    assert active.Some? ==> s.ops[active.value] in s.ops;
    assert HeldUp(s.ops) <==> NeedsReview(s.ops);
  }

  lemma RoomWritten(s: Saga, refund: int)
    requires forall op | op in s.ops :: op.kind == RefundPartial
    ensures var target := MaxTarget(s.ops, None, s.payment.refundedAmount) + refund;
            && (RoomFor(s, refund) <==> target <= s.payment.expected.amount)
            && OnTop(s, refund, target)
  {
    LargestTarget(s.ops, s.payment.refundedAmount);
  }

  lemma RefundIsQueued(s: Saga, i: nat, refund: int, now: int)
    requires refund > 0 && FindKey(s.ops, AmendmentKey(i)) == None
    requires forall op | op in s.ops :: op.kind == RefundPartial
    ensures var r := Enqueue(s.payment, s.ops, PartialIntent(i, refund), now);
            && (r.Ok? <==> !HeldUp(s.ops) && refund <= 9_007_199_254_740_991 && RoomFor(s, refund))
            && (r.Ok? ==> RefundQueued(s, r.value.ops, i, refund, now))
  {
    var target := MaxTarget(s.ops, None, s.payment.refundedAmount) + refund;
    var op := NewOperation(PartialIntent(i, refund), Some(target), LastActive(s.ops, None), now);
    PartialWritten(s, i, refund, now);
    RoomWritten(s, refund);
    QueuedLast(s, i, refund, target, op, now);
  }

  lemma QueuedLast(s: Saga, i: nat, refund: int, target: int, op: Operation, now: int)
    requires OnTop(s, refund, target) && op.target == Some(target)
    requires op.kind == RefundPartial && op.amount == Some(refund) && op.key == AmendmentKey(i)
    requires op.status == OperationStatus.Pending && op.attempts == 0 && op.nextAttemptAt == now
    ensures RefundQueued(s, s.ops + [op], i, refund, now)
  {
    assert (s.ops + [op])[..|s.ops|] == s.ops;
  }

  lemma LargestTarget(ops: seq<Operation>, base: int)
    requires forall op | op in ops :: op.kind == RefundPartial
    ensures var m := MaxTarget(ops, None, base);
            && m >= base && (forall op | op in ops && op.target.Some? :: op.target.value <= m)
            && (m == base || exists op | op in ops :: op.target == Some(m))
  {
    var m := MaxTarget(ops, None, base);
    forall op | op in ops && op.target.Some? ensures op.target.value <= m {
      var j :| 0 <= j < |ops| && ops[j] == op;
    }
    if m != base {
      var j :| 0 <= j < |ops| && ops[j].target == Some(m);
      assert ops[j] in ops;
    }
  }

  /** What is given back for an approved proposal, if it was paid. */
  predicate GivesBack(s: Saga, a: Amendment) {
    a.refund > 0 && s.payment.status == PaymentStatus.Approved
  }

  /** The items, the amounts, the proposal, the refund and the events after an approval. */
  ghost predicate ApprovedAs(s: Saga, i: nat, next: Saga, now: int)
    requires i < |s.amendments|
  {
    var a := s.amendments[i];
    && Answered(s.amendments, next.amendments, i, AmendmentStatus.Approved) && next.payment == s.payment
    && next.order == s.order.(items := next.order.items, subtotal := a.newSubtotal, total := a.newTotal)
    && (forall item ::
          item in next.order.items <==> exists from | from in s.order.items :: Carried(from, a.changes, item))
    && if GivesBack(s, a) then
         && RefundQueued(s, next.ops, i, a.refund, now)
         && next.events == s.events + [Event(s.order.status, PartialRefund(a.refund)),
                                       Event(s.order.status, Amended(a.refund))]
       else next.ops == s.ops && next.events == s.events + [Event(s.order.status, Amended(a.refund))]
  }

  /** Whether the refund of an approval, if one is due, can be queued. */
  predicate Payable(s: Saga, a: Amendment) {
    GivesBack(s, a) ==> !HeldUp(s.ops) && a.refund <= 9_007_199_254_740_991 && RoomFor(s, a.refund)
  }

  lemma ProposalsRefund(s: Saga, i: nat, now: int)
    requires Inv(s) && InTheKitchen(s) && i < |s.amendments| && s.amendments[i].status == Proposed
    requires GivesBack(s, s.amendments[i])
    ensures var r := Enqueue(s.payment, s.ops, PartialIntent(i, s.amendments[i].refund), now);
            && (r.Ok? <==> Payable(s, s.amendments[i]))
            && (r.Ok? ==> RefundQueued(s, r.value.ops, i, s.amendments[i].refund, now))
  {
    OnlyPartialRefunds(s, i);
    RefundIsQueued(s, i, s.amendments[i].refund, now);
  }

  lemma TheProposal(s: Saga, i: nat)
    requires Inv(s) && i < |s.amendments| && s.amendments[i].status == Proposed
    ensures PendingAmendment(s.amendments) == Some(i) && DistinctChanges(s.amendments[i].changes)
  {
    assert ProposalFits(s.order, s.amendments[i]);
    assert s.amendments[i] in s.amendments;
  }

  lemma ApprovalWrites(s: Saga, i: nat, now: int)
    requires PendingAmendment(s.amendments) == Some(i) && DistinctChanges(s.amendments[i].changes)
    requires Approve(s, now).Ok?
    requires GivesBack(s, s.amendments[i]) ==>
               var r := Enqueue(s.payment, s.ops, PartialIntent(i, s.amendments[i].refund), now);
               r.Ok? ==> RefundQueued(s, r.value.ops, i, s.amendments[i].refund, now)
    ensures ApprovedAs(s, i, Approve(s, now).value, now)
  {
    var a := s.amendments[i];
    forall item ensures item in ApplyChanges(s.order.items, a.changes) <==>
                        exists from | from in s.order.items :: Carried(from, a.changes, item) {
      ChangesWritten(s.order.items, a.changes, item);
    }
  }

  /** An approval changes the order as proposed, and queues the refund, if one is due and can be. */
  lemma ApprovesExactly(s: Saga, i: nat, now: int)
    requires Inv(s) && i < |s.amendments| && s.amendments[i].status == Proposed
    ensures Approve(s, now).Ok? <==> InTheKitchen(s) && Payable(s, s.amendments[i])
    ensures Approve(s, now).Ok? ==> ApprovedAs(s, i, Approve(s, now).value, now)
  {
    TheProposal(s, i);
    if InTheKitchen(s) && GivesBack(s, s.amendments[i]) {
      ProposalsRefund(s, i, now);
    }
    if Approve(s, now).Ok? {
      ApprovalWrites(s, i, now);
    }
  }

  lemma NothingToApprove(s: Saga, now: int)
    requires !Proposing(s)
    ensures Approve(s, now) == Err(Refused) && Reject(s, now) == Err(Refused)
  {
  }
}

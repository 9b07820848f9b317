/** All orders together, over every interleaving of transactions and every behaviour of the provider. */
module SagaRuns {
  import opened Checkout
  import opened Items
  import opened OperationQueue
  import opened Operations
  import opened OrderFlows
  import opened OrderStatuses
  import opened PaymentData
  import opened SagaInvariant
  import opened SagaSteps
  import opened Snapshots
  import opened Transition
  import opened Wrappers

  /** One transaction on one order. Reports, answers, clocks and errors are whatever the environment makes them. */
  datatype Step =
    | Reports(snapshot: Snapshot, now: int)
    | Recovers(recovery: RecoveryWork, now: int)
    | ClaimsPayment(underReview: bool, eager: bool, now: int)
    | RetriesPayment(attempts: nat, kind: Option<ProviderFailure>, retryAfter: Option<int>, underReview: bool, now: int)
    | CustomerCancels(now: int)
    | AwaitingExpires(now: int)
    | StoreCancels(now: int)
    | StaleCancels(now: int)
    | Advances(to: OrderStatus)
    | DeliveryFails(now: int)
    | Proposes(changes: seq<Change>)
    | Withdraws
    | Approves(now: int)
    | Rejects(now: int)
    | Claims(op: nat, owner: nat, now: int)
    | Works(op: nat, owner: nat, work: Work, jitter: Option<real>, now: int)
    | RecoversLease(op: nat, now: int)
    | ReviewsDependent(op: nat)

  function OrSame<E>(r: Result<Saga, E>, s: Saga): Saga {
    if r.Ok? then r.value else s
  }

  /** A refused or rolled back transaction leaves the order as it was. */
  function Next(s: Saga, step: Step, taken: TakenIds): Saga {
    match step
    case Reports(snap, now) =>
      var r := ApplySnapshot(s, snap, taken, now, DEFAULTS); if r.Ok? then r.value.saga else s
    case Recovers(work, now) => Recover(s, work, taken, now)
    case ClaimsPayment(underReview, eager, now) => s.(payment := ClaimPayment(s.payment, underReview, eager, now))
    case RetriesPayment(attempts, kind, retryAfter, underReview, now) =>
      s.(payment := RetryPayment(s.payment, attempts, kind, retryAfter, underReview, now))
    case CustomerCancels(now) => OrSame(CustomerCancel(s, now), s)
    case AwaitingExpires(now) => OrSame(ExpireAwaiting(s, now), s)
    case StoreCancels(now) => OrSame(StoreCancel(s, now), s)
    case StaleCancels(now) => OrSame(CancelStale(s, now), s)
    case Advances(to) => OrSame(Advance(s, to), s)
    case DeliveryFails(now) => OrSame(FailDelivery(s, now), s)
    case Proposes(changes) => if DistinctChanges(changes) then OrSame(Propose(s, changes), s) else s
    case Withdraws => OrSame(Withdraw(s), s)
    case Approves(now) => OrSame(Approve(s, now), s)
    case Rejects(now) => OrSame(Reject(s, now), s)
    case Claims(i, owner, now) =>
      if i < |s.ops| && Claimable(s.ops, i, now) then SetOperation(s, i, Claimed(s.ops[i], now, owner)) else s
    case Works(i, owner, work, jitter, now) =>
      if i < |s.ops| && Holds(s.ops[i], owner, now) then Perform(s, i, work, taken, jitter, now) else s
    case RecoversLease(i, now) =>
      if i < |s.ops| && s.ops[i].status.Processing? && Due(s.ops[i], now) then
        SetOperation(s, i, LeaseRecovered(s.ops[i], now))
      else s
    case ReviewsDependent(i) =>
      if && i < |s.ops| && Active(s.ops[i]) && s.ops[i].dependsOn.Some? && s.ops[i].dependsOn.value < |s.ops|
         && s.ops[s.ops[i].dependsOn.value].status.ReviewRequired? then
        SetOperation(s, i, Reviewed(s.ops[i]))
      else s
  }

  lemma ReportKeepsInvariant(s: Saga, snap: Snapshot, taken: TakenIds, now: int)
    requires Inv(s)
    ensures ApplySnapshot(s, snap, taken, now, DEFAULTS).Ok? ==>
              Inv(ApplySnapshot(s, snap, taken, now, DEFAULTS).value.saga)
  {
    DecisionIsSound(s.payment, snap, taken);
    if ApplySnapshot(s, snap, taken, now, DEFAULTS).Ok? {
      ApplyKeepsInvariant(s, Decide(s.payment, snap, taken), snap, taken, now, DEFAULTS);
    }
  }

  lemma ClockKeepsInvariant(s: Saga, step: Step, taken: TakenIds)
    requires Inv(s) && (step.ClaimsPayment? || step.RetriesPayment?)
    ensures Inv(Next(s, step, taken))
  {
    NewPaymentKeepsQueue(s.ops, s.order.status, s.payment, Next(s, step, taken).payment, s.amendments);
  }

  lemma PaymentStepKeepsInvariant(s: Saga, step: Step, taken: TakenIds)
    requires Inv(s) && (step.Reports? || step.Recovers? || step.ClaimsPayment? || step.RetriesPayment?)
    ensures Inv(Next(s, step, taken))
  {
    match step
    case Reports(snap, now) => ReportKeepsInvariant(s, snap, taken, now);
    case Recovers(work, now) => RecoveryKeepsInvariant(s, work, taken, now);
    case _ => ClockKeepsInvariant(s, step, taken);
  }

  lemma CancelStepKeepsInvariant(s: Saga, step: Step, taken: TakenIds)
    requires Inv(s) && (step.CustomerCancels? || step.AwaitingExpires? || step.StoreCancels? || step.StaleCancels?)
    ensures Inv(Next(s, step, taken))
  {
    match step
    case CustomerCancels(now) => CustomerCancelKeepsInvariant(s, now);
    case AwaitingExpires(now) => ExpireAwaitingKeepsInvariant(s, now);
    case StoreCancels(now) => StoreCancelKeepsInvariant(s, now);
    case StaleCancels(now) => CancelStaleKeepsInvariant(s, now);
  }

  lemma OrderStepKeepsInvariant(s: Saga, step: Step, taken: TakenIds)
    requires Inv(s)
    requires || step.Advances? || step.DeliveryFails? || step.Proposes? || step.Withdraws? || step.Approves?
             || step.Rejects?
    ensures Inv(Next(s, step, taken))
  {
    if Next(s, step, taken) != s {
      match step
      case Advances(to) => AdvanceKeepsInvariant(s, to);
      case DeliveryFails(now) => FailDeliveryKeepsInvariant(s, now);
      case Proposes(changes) => ProposeKeepsInvariant(s, changes);
      case Withdraws => WithdrawKeepsInvariant(s);
      case Approves(now) => ApproveKeepsInvariant(s, now);
      case Rejects(now) => RejectKeepsInvariant(s, now);
    }
  }

  lemma OperationStepKeepsInvariant(s: Saga, step: Step, taken: TakenIds)
    requires Inv(s) && (step.Claims? || step.Works? || step.RecoversLease? || step.ReviewsDependent?)
    ensures Inv(Next(s, step, taken))
  {
    if Next(s, step, taken) != s {
      match step
      case Claims(i, owner, now) => ClaimKeepsInvariant(s, i, owner, now);
      case Works(i, owner, work, jitter, now) => PerformKeepsInvariant(s, i, work, taken, jitter, now);
      case RecoversLease(i, now) => RecoverKeepsInvariant(s, i, now);
      case ReviewsDependent(i) => ReviewDependentKeepsInvariant(s, i);
    }
  }

  /** Every transaction, in every state, whatever the provider says. */
  lemma NextKeepsInvariant(s: Saga, step: Step, taken: TakenIds)
    requires Inv(s)
    ensures Inv(Next(s, step, taken))
  {
    if step.Reports? || step.Recovers? || step.ClaimsPayment? || step.RetriesPayment? {
      PaymentStepKeepsInvariant(s, step, taken);
    } else if step.CustomerCancels? || step.AwaitingExpires? || step.StoreCancels? || step.StaleCancels? {
      CancelStepKeepsInvariant(s, step, taken);
    } else if step.Claims? || step.Works? || step.RecoversLease? || step.ReviewsDependent? {
      OperationStepKeepsInvariant(s, step, taken);
    } else {
      OrderStepKeepsInvariant(s, step, taken);
    }
  }

  // ----- What no transaction undoes -----

  /** A payment moves up only, and its provider ids are written once, with ids that no other payment has. */
  ghost predicate Evolves(p: Payment, q: Payment, taken: TakenIds) {
    && q.expected == p.expected
    && Rank(p.status) <= Rank(q.status)
    && (q.status.Pending? ==> p.status.Pending?)
    && (p.providerOrderId.Some? ==> q.providerOrderId == p.providerOrderId)
    && (p.providerTransactionId.Some? ==> q.providerTransactionId == p.providerTransactionId)
    && (q.providerOrderId != p.providerOrderId ==> q.providerOrderId.value !in taken.orders)
    && (q.providerTransactionId != p.providerTransactionId ==> q.providerTransactionId.value !in taken.transactions)
  }

  lemma EnsureKeepsPayment(s: Saga, now: int)
    ensures EnsureDisposition(s, now).Ok? ==> EnsureDisposition(s, now).value.saga.payment == s.payment
  {
  }

  lemma PendingEvolves(s: Saga, d: Decision, snap: Snapshot, taken: TakenIds, now: int, o: Options)
    requires Sound(s.payment, d, snap, taken) && d.Pending?
    ensures var r := ApplyPending(s, d, snap, now, o); r.Ok? ==> Evolves(s.payment, r.value.saga.payment, taken)
  {
    var p := MarkHealthy(WithProviderFields(s.payment, snap, now), Some(now + HEALTHY_INTERVAL_MS));
    EnsureKeepsPayment(s.(payment := p), now);
  }

  lemma PaidEvolves(s: Saga, d: Decision, snap: Snapshot, taken: TakenIds, now: int, o: Options)
    requires Sound(s.payment, d, snap, taken) && (d.Approved? || d.PartiallyRefunded? || d.Refunded?)
    requires !s.payment.status.Refunded?
    ensures var r := ApplyPaid(s, d, snap, now, o); r.Ok? ==> Evolves(s.payment, r.value.saga.payment, taken)
  {
    var status := if d.Refunded? then PaymentStatus.Refunded else PaymentStatus.Approved;
    var p := MarkHealthy(WithProviderFields(s.payment, snap, now), None).(status := status);
    EnsureKeepsPayment(s.(payment := p), now);
  }

  lemma ApplyEvolves(s: Saga, d: Decision, snap: Snapshot, taken: TakenIds, now: int, o: Options)
    requires Sound(s.payment, d, snap, taken)
    ensures var r := ApplyDecision(s, d, snap, now, o); r.Ok? ==> Evolves(s.payment, r.value.saga.payment, taken)
  {
    if ActedOn(s.payment, d) {
      if d.Pending? {
        PendingEvolves(s, d, snap, taken, now, o);
      } else if d.Approved? || d.PartiallyRefunded? || d.Refunded? {
        PaidEvolves(s, d, snap, taken, now, o);
      }
    }
  }

  lemma ReportEvolves(s: Saga, snap: Snapshot, taken: TakenIds, now: int)
    ensures Evolves(s.payment, Next(s, Reports(snap, now), taken).payment, taken)
  {
    DecisionIsSound(s.payment, snap, taken);
    ApplyEvolves(s, Decide(s.payment, snap, taken), snap, taken, now, DEFAULTS);
  }

  lemma SettleEvolves(s: Saga, i: nat, d: Decision, snap: Snapshot, taken: TakenIds, now: int)
    requires i < |s.ops| && Sound(s.payment, d, snap, taken)
    ensures var r := SettleOperation(s, i, d, snap, now); r.Ok? ==> Evolves(s.payment, r.value.payment, taken)
  {
    ApplyEvolves(s, d, snap, taken, now, OptionsFor(s.ops[i].kind));
  }

  lemma RecoverEvolves(s: Saga, work: RecoveryWork, taken: TakenIds, now: int)
    ensures Evolves(s.payment, Recover(s, work, taken, now).payment, taken)
  {
    if work.Use? {
      DecisionIsSound(s.payment, work.snapshot, taken);
      ApplyEvolves(s, Decide(s.payment, work.snapshot, taken), work.snapshot, taken, now, DEFAULTS);
    }
  }

  lemma WorkEvolves(s: Saga, step: Step, taken: TakenIds)
    requires step.Works?
    ensures Evolves(s.payment, Next(s, step, taken).payment, taken)
  {
    if step.op < |s.ops| && (step.work.Answer? || step.work.AnswerOrRetry?) {
      var d := Decide(s.payment, step.work.snapshot, taken);
      DecisionIsSound(s.payment, step.work.snapshot, taken);
      SettleEvolves(s, step.op, d, step.work.snapshot, taken, step.now);
    }
  }

  lemma NextEvolves(s: Saga, step: Step, taken: TakenIds)
    ensures Evolves(s.payment, Next(s, step, taken).payment, taken)
  {
    match step
    case Reports(snap, now) => ReportEvolves(s, snap, taken, now);
    case Recovers(work, now) => RecoverEvolves(s, work, taken, now);
    case Works(_, _, _, _, _) => WorkEvolves(s, step, taken);
    case _ =>
  }

  // ----- All orders -----

  datatype World = World(sagas: map<nat, Saga>)

  datatype WorldStep =
    | Opens(id: nat, items: seq<Item>, deliveryFee: nat, expected: Expected, expiresAt: int)
    | Moves(id: nat, step: Step)

  /** The provider ids carried by all payments but one. */
  function TakenBy(w: World, id: nat): TakenIds {
    TakenIds(
      set k | k in w.sagas && k != id && w.sagas[k].payment.providerOrderId.Some?
        :: w.sagas[k].payment.providerOrderId.value,
      set k | k in w.sagas && k != id && w.sagas[k].payment.providerTransactionId.Some?
        :: w.sagas[k].payment.providerTransactionId.value)
  }

  /** A new online order: the charge is what the order costs, and nothing is known at the provider yet. */
  function NewSaga(items: seq<Item>, deliveryFee: nat, expected: Expected, expiresAt: int): Saga {
    var subtotal := Subtotal(items);
    var order := Order(AwaitingPayment, items, deliveryFee, subtotal, subtotal + deliveryFee);
    var payment := Payment(expected, PaymentStatus.Pending, None, None, None, 0, ReconciliationState.Pending, None, 0,
                           None, None, Some(expiresAt));
    Saga(order, payment, [], [], [])
  }

  function NextWorld(w: World, step: WorldStep): World {
    match step
    case Opens(id, items, fee, expected, expiresAt) =>
      if id in w.sagas || !DistinctItems(items) || expected.amount != Subtotal(items) + fee || expected.amount <= 0 then
        w
      else World(w.sagas[id := NewSaga(items, fee, expected, expiresAt)])
    case Moves(id, s) =>
      if id !in w.sagas then w else World(w.sagas[id := Next(w.sagas[id], s, TakenBy(w, id))])
  }

  function Run(steps: seq<WorldStep>): World {
    if |steps| == 0 then World(map[]) else NextWorld(Run(steps[..|steps| - 1]), steps[|steps| - 1])
  }

  ghost predicate Unshared(w: World) {
    forall a, b | a in w.sagas && b in w.sagas && a != b ::
      var p, q := w.sagas[a].payment, w.sagas[b].payment;
      && (p.providerOrderId.Some? ==> p.providerOrderId != q.providerOrderId)
      && (p.providerTransactionId.Some? ==> p.providerTransactionId != q.providerTransactionId)
  }

  ghost predicate WorldInv(w: World) {
    Unshared(w) && forall id | id in w.sagas :: Inv(w.sagas[id])
  }

  lemma NewSagaIsConsistent(items: seq<Item>, fee: nat, expected: Expected, expiresAt: int)
    requires DistinctItems(items) && expected.amount == Subtotal(items) + fee && expected.amount > 0
    ensures Inv(NewSaga(items, fee, expected, expiresAt))
  {
  }

  /** Writing ids that nobody else has keeps them unshared. */
  lemma MoveKeepsUnshared(w: World, id: nat, s: Saga)
    requires Unshared(w) && id in w.sagas && Evolves(w.sagas[id].payment, s.payment, TakenBy(w, id))
    ensures Unshared(World(w.sagas[id := s]))
  {
    var taken, q := TakenBy(w, id), s.payment;
    forall k | k in w.sagas && k != id
      ensures q.providerOrderId.Some? ==> q.providerOrderId != w.sagas[k].payment.providerOrderId
      ensures q.providerTransactionId.Some? ==> q.providerTransactionId != w.sagas[k].payment.providerTransactionId
    {
      var other := w.sagas[k].payment;
      assert other.providerOrderId.Some? ==> other.providerOrderId.value in taken.orders;
      assert other.providerTransactionId.Some? ==> other.providerTransactionId.value in taken.transactions;
    }
  }

  lemma NextWorldKeepsInvariant(w: World, step: WorldStep)
    requires WorldInv(w)
    ensures WorldInv(NextWorld(w, step))
  {
    if NextWorld(w, step) != w {
      match step
      case Opens(id, items, fee, expected, expiresAt) => NewSagaIsConsistent(items, fee, expected, expiresAt);
      case Moves(id, move) =>
        NextKeepsInvariant(w.sagas[id], move, TakenBy(w, id));
        NextEvolves(w.sagas[id], move, TakenBy(w, id));
        MoveKeepsUnshared(w, id, Next(w.sagas[id], move, TakenBy(w, id)));
    }
  }

  lemma {:induction false} RunsKeepInvariant(steps: seq<WorldStep>)
    ensures WorldInv(Run(steps))
  {
    if |steps| > 0 {
      RunsKeepInvariant(steps[..|steps| - 1]);
      NextWorldKeepsInvariant(Run(steps[..|steps| - 1]), steps[|steps| - 1]);
    }
  }

  // ----- What every run guarantees -----

  /** The status of an order and of its payment can only be seen in these combinations. */
  lemma OrderAndPaymentAgree(steps: seq<WorldStep>, id: nat)
    requires id in Run(steps).sagas
    ensures var s := Run(steps).sagas[id];
            && (s.order.status.AwaitingPayment? ==> s.payment.status.Pending?)
            && (s.payment.status.Pending? ==> s.order.status.AwaitingPayment? || s.order.status.Cancelled?)
            && (Unpaid(s.payment.status) ==> s.order.status.Cancelled?)
            && (!s.order.status.AwaitingPayment? && !s.order.status.Cancelled?
                ==> s.payment.status.Approved? || s.payment.status.Refunded?)
  {
    RunsKeepInvariant(steps);
  }

  /** A cancelled order whose payment the provider knows has exactly one operation that undoes the payment. */
  lemma CancelledOrdersAreSettled(steps: seq<WorldStep>, id: nat)
    requires id in Run(steps).sagas
    ensures var s := Run(steps).sagas[id];
            && (s.order.status.Cancelled? && s.payment.providerOrderId.Some? && s.payment.status.Pending?
                ==> exists i | 0 <= i < |s.ops| :: s.ops[i].kind.CancelOrder?)
            && (Undone(s.order.status) && s.payment.status.Approved?
                ==> exists i | 0 <= i < |s.ops| :: s.ops[i].kind.RefundFull?)
            && (forall i, j | 0 <= i < j < |s.ops| && s.ops[i].kind == s.ops[j].kind :: s.ops[i].kind.RefundPartial?)
            && (forall i | 0 <= i < |s.ops| && s.ops[i].kind.RefundFull? && s.ops[i].status.Succeeded? ::
                  s.payment.status.Refunded? && s.payment.refundedAmount == s.payment.expected.amount)
            && (forall i | 0 <= i < |s.ops| && s.ops[i].kind.CancelOrder? ::
                  s.order.status.Cancelled? && (s.ops[i].status.Succeeded? ==> !s.payment.status.Pending?))
  {
    RunsKeepInvariant(steps);
    var s := Run(steps).sagas[id];
    assert Inv(s);
    forall i | 0 <= i < |s.ops|
      ensures WellTyped(s.ops[i], s.payment.expected.amount)
      ensures JustifiedOperation(s.ops[i], s.order.status, s.payment)
    {
    }
    forall i, j | 0 <= i < j < |s.ops| && s.ops[i].kind == s.ops[j].kind ensures s.ops[i].kind.RefundPartial? {
      assert Grows(s.ops[i], s.ops[j]);
    }
    if Undone(s.order.status) && s.payment.status.Approved? {
      var i :| 0 <= i < |s.ops| && s.ops[i].key == RefundFullKey;
      assert s.ops[i].kind.RefundFull?;
    }
    if s.order.status.Cancelled? && s.payment.providerOrderId.Some? && s.payment.status.Pending? {
      var i :| 0 <= i < |s.ops| && s.ops[i].key == CancelKey;
      assert s.ops[i].kind.CancelOrder?;
    }
  }

  /** Successes up to `h`, one operation in hand there, and nothing started after it. */
  ghost predicate Serialized(ops: seq<Operation>, h: nat) {
    && h <= |ops|
    && (forall i | 0 <= i < h :: ops[i].status.Succeeded?)
    && (h < |ops| ==> !ops[h].status.Succeeded?)
    && (forall i | h < i < |ops| ::
          || (ops[i].status.Pending? && ops[i].attempts == 0)
          || (ops[i].status.ReviewRequired? && ops[h].status.ReviewRequired?))
  }

  /** A queue is successes, then one operation in hand, then operations that have not been started or are reviewed. */
  lemma QueuesAreSerialized(steps: seq<WorldStep>, id: nat)
    requires id in Run(steps).sagas
    ensures exists h: nat :: Serialized(Run(steps).sagas[id].ops, h)
  {
    RunsKeepInvariant(steps);
    assert Inv(Run(steps).sagas[id]);
    ChainIsSerialized(Run(steps).sagas[id].ops);
  }

  lemma ChainIsSerialized(ops: seq<Operation>)
    requires Chain(ops)
    ensures Serialized(ops, Head(ops))
  {
    forall i | Head(ops) < i < |ops|
      ensures || (ops[i].status.Pending? && ops[i].attempts == 0)
              || (ops[i].status.ReviewRequired? && ops[Head(ops)].status.ReviewRequired?)
    {
      ChainShape(ops, i);
    }
  }

  /** Until the payment is refunded: what the order costs plus what is queued for refund is what was charged. */
  lemma MoneyIsConserved(steps: seq<WorldStep>, id: nat)
    requires id in Run(steps).sagas
    ensures var s := Run(steps).sagas[id];
            && s.order.subtotal == Subtotal(s.order.items)
            && s.order.total == s.order.subtotal + s.order.deliveryFee
            && (!s.payment.status.Refunded? ==> s.order.total + PartialSum(s.ops) == s.payment.expected.amount)
            && 0 <= PartialSum(s.ops) <= s.payment.expected.amount
            && 0 <= s.payment.refundedAmount <= s.payment.expected.amount
  {
    RunsKeepInvariant(steps);
    var s := Run(steps).sagas[id];
    assert Inv(s);
    PartialSumBounded(s.ops, s.payment.expected.amount);
  }

  /**
   * From any point of a run to any later one, a payment only moves up and its provider ids stay what they are; a
   * creation that is no longer uncertain never is again.
   */
  lemma {:induction false} PaymentsNeverGoBack(steps: seq<WorldStep>, k: nat, id: nat)
    requires k <= |steps| && id in Run(steps[..k]).sagas
    ensures id in Run(steps).sagas
    ensures var p, q := Run(steps[..k]).sagas[id].payment, Run(steps).sagas[id].payment;
            && Rank(p.status) <= Rank(q.status)
            && (p.providerOrderId.Some? ==> q.providerOrderId == p.providerOrderId)
            && (p.providerTransactionId.Some? ==> q.providerTransactionId == p.providerTransactionId)
            && (q.status.Pending? ==> p.status.Pending?) && (Uncertain(q) ==> Uncertain(p))
  {
    if k == |steps| {
      assert steps[..k] == steps;
    } else {
      var init, last := steps[..|steps| - 1], steps[|steps| - 1];
      assert init[..k] == steps[..k];
      PaymentsNeverGoBack(init, k, id);
      if last.Moves? && last.id in Run(init).sagas {
        NextEvolves(Run(init).sagas[last.id], last.step, TakenBy(Run(init), last.id));
      }
    }
  }

  /** No two payments ever carry the same provider order or transaction. */
  lemma ProviderIdsAreUnshared(steps: seq<WorldStep>, a: nat, b: nat)
    requires a in Run(steps).sagas && b in Run(steps).sagas && a != b
    ensures var p, q := Run(steps).sagas[a].payment, Run(steps).sagas[b].payment;
            && (p.providerOrderId.Some? ==> p.providerOrderId != q.providerOrderId)
            && (p.providerTransactionId.Some? ==> p.providerTransactionId != q.providerTransactionId)
  {
    RunsKeepInvariant(steps);
  }
}

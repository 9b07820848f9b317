/** What each step of a run does to an order: everything that the transaction writes, or nothing. */
module SagaLaws {
  import opened FlowLaws
  import Items
  import opened Operations
  import opened OrderFlows
  import opened OrderStatuses
  import opened PaymentData
  import opened SagaInvariant
  import opened SagaRuns
  import opened SagaSteps
  import opened Snapshots
  import opened Transition
  import opened Wrappers

  // ----- Orders -----

  /** A transaction takes effect as a whole, or is refused and leaves everything as it was. */
  predicate TakesEffect(r: Result<Saga, FlowError>, s: Saga, next: Saga) {
    match r
    case Ok(value) => next == value
    case Err(_) => next == s
  }

  lemma CancellationsTakeEffect(s: Saga, taken: TakenIds, now: int)
    ensures TakesEffect(CustomerCancel(s, now), s, Next(s, CustomerCancels(now), taken))
    ensures TakesEffect(StoreCancel(s, now), s, Next(s, StoreCancels(now), taken))
    ensures TakesEffect(CancelStale(s, now), s, Next(s, StaleCancels(now), taken))
    ensures TakesEffect(ExpireAwaiting(s, now), s, Next(s, AwaitingExpires(now), taken))
    ensures TakesEffect(FailDelivery(s, now), s, Next(s, DeliveryFails(now), taken))
  {
  }

  lemma MovesTakeEffect(s: Saga, to: OrderStatus, changes: seq<Change>, taken: TakenIds, now: int)
    ensures TakesEffect(Advance(s, to), s, Next(s, Advances(to), taken))
    ensures Items.DistinctChanges(changes) ==> TakesEffect(Propose(s, changes), s, Next(s, Proposes(changes), taken))
    ensures TakesEffect(Withdraw(s), s, Next(s, Withdraws, taken))
    ensures TakesEffect(Approve(s, now), s, Next(s, Approves(now), taken))
    ensures TakesEffect(Reject(s, now), s, Next(s, Rejects(now), taken))
  {
  }

  // ----- Reports -----

  /** A report is applied, or an operation under review holds it up. */
  lemma ReportsTakeEffect(s: Saga, snap: Snapshot, taken: TakenIds, now: int)
    requires Inv(s)
    ensures var next, applied := Next(s, Reports(snap, now), taken),
                                 ApplyDecision(s, Decide(s.payment, snap, taken), snap, now, Options(true, true));
            if applied.Ok? then next == applied.value.saga else next == s && HeldUp(s.ops)
  {
    DecisionIsSound(s.payment, snap, taken);
    ApplyFailsOnlyUnderReview(s, Decide(s.payment, snap, taken), snap, now, DEFAULTS);
  }

  // ----- Operations -----

  /** Due, or left behind by a worker, and with everything before it done. */
  predicate MayClaim(s: Saga, i: nat, now: int) {
    && i < |s.ops|
    && var op := s.ops[i];
       && (|| (op.status == OperationStatus.Pending && op.nextAttemptAt <= now)
           || LeaseIsOver(op, now))
       && (op.dependsOn == None
           || (op.dependsOn.value < |s.ops| && s.ops[op.dependsOn.value].status == OperationStatus.Succeeded))
  }

  predicate LeaseIsOver(op: Operation, now: int) {
    op.status == OperationStatus.Processing && op.leasedUntil.Some? && op.leasedUntil.value <= now
  }

  /** An operation is leased for five minutes, and each claim is an attempt. */
  lemma ClaimsTakeEffect(s: Saga, i: nat, owner: nat, taken: TakenIds, now: int)
    ensures Next(s, Claims(i, owner, now), taken) ==
            if MayClaim(s, i, now) then
              var op := s.ops[i];
              s.(ops := s.ops[i := op.(status := OperationStatus.Processing, leaseOwner := Some(owner),
                                       leasedUntil := Some(now + 300_000), attempts := op.attempts + 1)])
            else s
  {
  }

  /** A lapsed lease frees the operation, and an unfinished one follows the one before it into review. */
  lemma RecoveriesTakeEffect(s: Saga, i: nat, taken: TakenIds, now: int)
    ensures Next(s, RecoversLease(i, now), taken) ==
            if i < |s.ops| && LeaseIsOver(s.ops[i], now) then
              s.(ops := s.ops[i := s.ops[i].(status := OperationStatus.Pending, leaseOwner := None, leasedUntil := None,
                                             nextAttemptAt := now)])
            else s
    ensures Next(s, ReviewsDependent(i), taken) ==
            if i < |s.ops| && FollowsIntoReview(s.ops, i) then
              s.(ops := s.ops[i := s.ops[i].(status := OperationStatus.ReviewRequired, leaseOwner := None,
                                             leasedUntil := None)])
            else s
  {
  }

  predicate FollowsIntoReview(ops: seq<Operation>, i: nat)
    requires i < |ops|
  {
    && (ops[i].status == OperationStatus.Pending || ops[i].status == OperationStatus.Processing)
    && ops[i].dependsOn.Some? && ops[i].dependsOn.value < |ops|
    && ops[ops[i].dependsOn.value].status == OperationStatus.ReviewRequired
  }

  /** A worker writes only within its lease. */
  lemma WorkTakesEffect(s: Saga, i: nat, owner: nat, work: Work, jitter: Option<real>, taken: TakenIds, now: int)
    ensures Next(s, Works(i, owner, work, jitter, now), taken) ==
            if i < |s.ops| && s.ops[i].status == OperationStatus.Processing && s.ops[i].leaseOwner == Some(owner)
               && s.ops[i].leasedUntil.Some? && s.ops[i].leasedUntil.value > now
            then Perform(s, i, work, taken, jitter, now)
            else s
  {
  }
}

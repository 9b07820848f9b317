/** Every operation comes to an end after at most eight completed runs, whatever the provider answers. */
module SagaAttempts {
  import opened Operations
  import opened OrderFlows
  import opened OrderStatuses
  import opened PaymentData
  import opened Retry
  import opened SagaInvariant
  import opened SagaRuns
  import opened SagaSteps
  import opened Snapshots
  import opened Transition
  import opened Wrappers

  /** This transaction is the end of a run of a worker on operation `i`. */
  predicate Completes(s: Saga, step: Step, i: nat) {
    step.Works? && step.op == i && i < |s.ops| && Holds(s.ops[i], step.owner, step.now)
  }

  /** A run of one order in which each transaction meets its own set of ids taken by other payments. */
  function Follow(s: Saga, steps: seq<(Step, TakenIds)>): Saga {
    if |steps| == 0 then s
    else
      var last := steps[|steps| - 1];
      Next(Follow(s, steps[..|steps| - 1]), last.0, last.1)
  }

  function Completions(s: Saga, steps: seq<(Step, TakenIds)>, i: nat): nat {
    if |steps| == 0 then 0
    else
      var init := steps[..|steps| - 1];
      Completions(s, init, i) + if Completes(Follow(s, init), steps[|steps| - 1].0, i) then 1 else 0
  }

  predicate Done(op: Operation) {
    op.status.Succeeded? || op.status.ReviewRequired?
  }

  /** How many completed runs fit the state of an operation. */
  predicate Budget(op: Operation, completions: nat) {
    match op.status
    case Pending => completions <= op.attempts && completions < MAX_PAYMENT_OPERATION_ATTEMPTS
    case Processing => completions < op.attempts && completions < MAX_PAYMENT_OPERATION_ATTEMPTS
    case _ => completions <= MAX_PAYMENT_OPERATION_ATTEMPTS
  }

  /** The queue grows at its end only, with operations that have not been tried. */
  ghost predicate Grown(before: seq<Operation>, after: seq<Operation>) {
    && before <= after
    && forall i | |before| <= i < |after| :: after[i].status.Pending? && after[i].attempts == 0
  }

  lemma EnsureGrows(s: Saga, now: int)
    ensures EnsureDisposition(s, now).Ok? ==> Grown(s.ops, EnsureDisposition(s, now).value.saga.ops)
  {
  }

  lemma ApplyGrows(s: Saga, d: Decision, snap: Snapshot, now: int, o: Options)
    ensures var r := ApplyDecision(s, d, snap, now, o); r.Ok? ==> Grown(s.ops, r.value.saga.ops)
  {
    if d.Pending? {
      var p := MarkHealthy(WithProviderFields(s.payment, snap, now), Some(now + HEALTHY_INTERVAL_MS));
      EnsureGrows(s.(payment := p), now);
    } else if d.Approved? || d.PartiallyRefunded? || d.Refunded? {
      var status := if d.Refunded? then PaymentStatus.Refunded else PaymentStatus.Approved;
      var p := MarkHealthy(WithProviderFields(s.payment, snap, now), None).(status := status);
      EnsureGrows(s.(payment := p), now);
    }
  }

  lemma CancelGrows(s: Saga, who: Actor, now: int)
    ensures CancelNow(s, who, now).Ok? ==> Grown(s.ops, CancelNow(s, who, now).value.ops)
  {
    var cancelled := AddEvent(SetOrderStatus(s, OrderStatus.Cancelled), OrderStatus.Cancelled, CancelledBy(who));
    EnsureGrows(cancelled.(amendments := ExpireProposed(s.amendments)), now);
  }

  lemma ApproveGrows(s: Saga, now: int)
    ensures Approve(s, now).Ok? ==> Grown(s.ops, Approve(s, now).value.ops)
  {
  }

  lemma ReportsGrow(s: Saga, step: Step, taken: TakenIds)
    requires step.Reports? || step.Recovers? || step.ClaimsPayment? || step.RetriesPayment?
    ensures Grown(s.ops, Next(s, step, taken).ops)
  {
    match step
    case Reports(snap, now) => ApplyGrows(s, Decide(s.payment, snap, taken), snap, now, DEFAULTS);
    case Recovers(work, now) =>
      if work.Use? {
        ApplyGrows(s, Decide(s.payment, work.snapshot, taken), work.snapshot, now, DEFAULTS);
      }
    case _ =>
  }

  lemma CancellationsGrow(s: Saga, step: Step, taken: TakenIds)
    requires step.CustomerCancels? || step.AwaitingExpires? || step.StoreCancels? || step.StaleCancels?
    ensures Grown(s.ops, Next(s, step, taken).ops)
  {
    EnsureGrows(s, step.now);
    CancelGrows(s, if step.CustomerCancels? then Customer else if step.StoreCancels? then Store else System, step.now);
  }

  lemma OrderStepsGrow(s: Saga, step: Step, taken: TakenIds)
    requires step.DeliveryFails? || step.Approves? || step.Rejects?
    ensures Grown(s.ops, Next(s, step, taken).ops)
  {
    match step
    case DeliveryFails(now) =>
      EnsureGrows(s, now);
      EnsureGrows(AddEvent(SetOrderStatus(s, DeliveryFailed), DeliveryFailed, DeliveryFailure), now);
    case Approves(now) => ApproveGrows(s, now);
    case Rejects(now) =>
      var pending := PendingAmendment(s.amendments);
      if pending.Some? {
        EnsureGrows(SetOrderStatus(ResolveAmendment(s, pending.value, AmendmentStatus.Rejected),
            OrderStatus.Cancelled), now);
      }
  }

  /** Transactions that do not run operations only ever add to the queue. */
  lemma OtherStepsGrow(s: Saga, step: Step, taken: TakenIds)
    requires !step.Claims? && !step.Works? && !step.RecoversLease? && !step.ReviewsDependent?
    ensures Grown(s.ops, Next(s, step, taken).ops)
  {
    if step.Reports? || step.Recovers? || step.ClaimsPayment? || step.RetriesPayment? {
      ReportsGrow(s, step, taken);
    } else if step.CustomerCancels? || step.AwaitingExpires? || step.StoreCancels? || step.StaleCancels? {
      CancellationsGrow(s, step, taken);
    } else if step.DeliveryFails? || step.Approves? || step.Rejects? {
      OrderStepsGrow(s, step, taken);
    }
  }

  /** What a run of a worker on operation `i` leaves of the queue. */
  ghost predicate Closed(before: seq<Operation>, after: seq<Operation>, i: nat) {
    && i < |before| <= |after|
    && (forall j | 0 <= j < |before| && j != i :: after[j] == before[j])
    && (forall j | |before| <= j < |after| :: after[j].status.Pending? && after[j].attempts == 0)
    && after[i].attempts == before[i].attempts
    && !after[i].status.Processing?
    && (after[i].status.Pending? ==> after[i].attempts < MAX_PAYMENT_OPERATION_ATTEMPTS)
  }

  lemma SettleCloses(s: Saga, i: nat, d: Decision, snap: Snapshot, now: int)
    requires i < |s.ops| && SettleOperation(s, i, d, snap, now).Ok?
    ensures Closed(s.ops, SettleOperation(s, i, d, snap, now).value.ops, i)
  {
    var op := s.ops[i];
    ApplyGrows(s, d, snap, now, OptionsFor(op.kind));
    var next := ApplyDecision(s, d, snap, now, OptionsFor(op.kind)).value.saga;
    var outcome := OutcomeOf(op, d, snap, next.payment);
    RetryNeedsAttemptsLeft(op, outcome, now);
    FinishCloses(s.ops, next, i, op, outcome, now);
  }

  lemma FinishCloses(before: seq<Operation>, s: Saga, i: nat, op: Operation, outcome: Outcome, now: int)
    requires i < |before| && before[i] == op && Grown(before, s.ops) && FinishOperation(s, i, op, outcome, now).Ok?
    requires Finished(op, outcome, now).status.Pending? ==> op.attempts < MAX_PAYMENT_OPERATION_ATTEMPTS
    requires Finished(op, outcome, now).attempts == op.attempts && !Finished(op, outcome, now).status.Processing?
    ensures Closed(before, FinishOperation(s, i, op, outcome, now).value.ops, i)
  {
    EnsureGrows(s, now);
    EnsureGrows(AddEvent(SetOrderStatus(s, OrderStatus.Cancelled), OrderStatus.Cancelled, ApprovedAfterCancel), now);
  }

  lemma PerformCloses(s: Saga, i: nat, w: Work, taken: TakenIds, jitter: Option<real>, now: int)
    requires Inv(s) && i < |s.ops| && s.ops[i].status.Processing?
    ensures Closed(s.ops, Perform(s, i, w, taken, jitter, now).ops, i)
  {
    if w.Answer? || w.AnswerOrRetry? {
      var d := Decide(s.payment, w.snapshot, taken);
      DecisionIsSound(s.payment, w.snapshot, taken);
      SettleOperationKeepsInvariant(s, i, d, w.snapshot, taken, now);
      SettleCloses(s, i, d, w.snapshot, now);
    }
  }

  lemma WorkKeepsBudget(s: Saga, step: Step, taken: TakenIds, i: nat, completions: nat)
    requires Inv(s) && step.Works?
    requires if i < |s.ops| then Budget(s.ops[i], completions) else completions == 0
    ensures var ops := Next(s, step, taken).ops;
            var now := completions + if Completes(s, step, i) then 1 else 0;
            |s.ops| <= |ops| && if i < |ops| then Budget(ops[i], now) else now == 0
    ensures i < |s.ops| && Done(s.ops[i]) ==> !Completes(s, step, i)
  {
    if step.op < |s.ops| && Holds(s.ops[step.op], step.owner, step.now) {
      PerformCloses(s, step.op, step.work, taken, step.jitter, step.now);
    }
  }

  lemma QueueStepKeepsBudget(s: Saga, step: Step, taken: TakenIds, i: nat, completions: nat)
    requires step.Claims? || step.RecoversLease? || step.ReviewsDependent?
    requires if i < |s.ops| then Budget(s.ops[i], completions) else completions == 0
    ensures var ops := Next(s, step, taken).ops;
            |s.ops| == |ops| && if i < |ops| then Budget(ops[i], completions) else completions == 0
  {
  }

  lemma GrownKeepsBudget(before: seq<Operation>, after: seq<Operation>, i: nat, completions: nat)
    requires Grown(before, after)
    requires if i < |before| then Budget(before[i], completions) else completions == 0
    ensures |before| <= |after| && if i < |after| then Budget(after[i], completions) else completions == 0
  {
  }

  lemma StepKeepsBudget(s: Saga, step: Step, taken: TakenIds, i: nat, completions: nat)
    requires Inv(s)
    requires if i < |s.ops| then Budget(s.ops[i], completions) else completions == 0
    ensures var ops := Next(s, step, taken).ops;
            var now := completions + if Completes(s, step, i) then 1 else 0;
            |s.ops| <= |ops| && if i < |ops| then Budget(ops[i], now) else now == 0
    ensures i < |s.ops| && Done(s.ops[i]) ==> !Completes(s, step, i)
  {
    if step.Works? {
      WorkKeepsBudget(s, step, taken, i, completions);
    } else if step.Claims? || step.RecoversLease? || step.ReviewsDependent? {
      QueueStepKeepsBudget(s, step, taken, i, completions);
    } else {
      OtherStepsGrow(s, step, taken);
      GrownKeepsBudget(s.ops, Next(s, step, taken).ops, i, completions);
    }
  }

  /**
   * In every run: no operation completes more than eight runs, one that has completed eight is closed,
   * and one that is closed is never run again.
   */
  lemma {:induction false} AtMostEightRuns(s: Saga, steps: seq<(Step, TakenIds)>, i: nat)
    requires Inv(s) && |s.ops| <= i
    ensures Inv(Follow(s, steps))
    ensures var ops := Follow(s, steps).ops;
            && Completions(s, steps, i) <= MAX_PAYMENT_OPERATION_ATTEMPTS
            && (if i < |ops| then Budget(ops[i], Completions(s, steps, i)) else Completions(s, steps, i) == 0)
            && (i < |ops| && Completions(s, steps, i) == MAX_PAYMENT_OPERATION_ATTEMPTS ==> Done(ops[i]))
  {
    if |steps| > 0 {
      var init, last := steps[..|steps| - 1], steps[|steps| - 1];
      AtMostEightRuns(s, init, i);
      NextKeepsInvariant(Follow(s, init), last.0, last.1);
      StepKeepsBudget(Follow(s, init), last.0, last.1, i, Completions(s, init, i));
    }
  }
}

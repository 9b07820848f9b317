/** The serialized queue of operations of one payment. */
module OperationQueue {
  import opened PaymentData
  import opened Snapshots
  import opened Wrappers

  const LEASE_MS := 5 * 60_000

  datatype QueueError =
    | AmountInvalid
    | ChainRequiresReview
    | FullRefundPending
    | BusinessKeyConflict
    | TargetExceedsAmount

  datatype Intent = Intent(kind: OperationKind, amount: Option<int>, key: BusinessKey)

  datatype Enqueued = Enqueued(ops: seq<Operation>, id: nat, inserted: bool)

  predicate Active(op: Operation) {
    op.status.Pending? || op.status.Processing?
  }

  predicate AmountValid(intent: Intent) {
    if intent.kind.RefundPartial? then
      intent.amount.Some? && 0 < intent.amount.value <= MAX_SAFE_INTEGER
    else
      intent.amount.None?
  }

  function FindKey(ops: seq<Operation>, key: BusinessKey): (r: Option<nat>)
    ensures r.Some? ==> r.value < |ops| && ops[r.value].key == key
    ensures r.None? <==> forall op | op in ops :: op.key != key
  {
    if |ops| == 0 then None
    else
      var earlier := FindKey(ops[..|ops| - 1], key);
      assert ops == ops[..|ops| - 1] + [ops[|ops| - 1]];
      if earlier.Some? then earlier
      else if ops[|ops| - 1].key == key then Some(|ops| - 1) else None
  }

  /** The most recent pending or processing operation, leaving one out. */
  function LastActive(ops: seq<Operation>, except: Option<nat>): (r: Option<nat>)
    ensures r.Some? ==> r.value < |ops| && Active(ops[r.value]) && r != except
    ensures r.Some? ==> forall j | r.value < j < |ops| && Some(j) != except :: !Active(ops[j])
    ensures r.None? ==> forall j | 0 <= j < |ops| && Some(j) != except :: !Active(ops[j])
  {
    if |ops| == 0 then None
    else if Active(ops[|ops| - 1]) && except != Some(|ops| - 1) then Some(|ops| - 1)
    else LastActive(ops[..|ops| - 1], except)
  }

  predicate NeedsReview(ops: seq<Operation>) {
    exists op | op in ops :: op.status.ReviewRequired?
  }

  /** The largest of `base` and the refund targets of the queue, leaving one operation out. */
  function MaxTarget(ops: seq<Operation>, except: Option<nat>, base: int): (r: int)
    ensures base <= r
    ensures forall j | 0 <= j < |ops| && Some(j) != except && ops[j].target.Some? && !ops[j].kind.CancelOrder?
              :: ops[j].target.value <= r
    ensures r == base || exists j | 0 <= j < |ops| :: ops[j].target == Some(r)
  {
    if |ops| == 0 then base
    else
      var rest := MaxTarget(ops[..|ops| - 1], except, base);
      var last := ops[|ops| - 1];
      if except != Some(|ops| - 1) && !last.kind.CancelOrder? && last.target.Some? && last.target.value > rest then
        last.target.value
      else rest
  }

  /** The refunded total that a partial refund must lead to, next to the operations that are there. */
  function PartialTarget(payment: Payment, ops: seq<Operation>, amount: int, existing: Option<nat>,
                         active: Option<nat>): Result<Option<int>, QueueError>
    requires existing.Some? ==> existing.value < |ops|
    requires active.Some? ==> active.value < |ops|
  {
    if active.Some? && ops[active.value].kind.RefundFull? then Err(FullRefundPending)
    else if existing.Some? && ops[existing.value].status.Succeeded? then
      var target := ops[existing.value].target;
      if || target.None? || target.value < amount || target.value > payment.expected.amount
         || payment.refundedAmount < target.value then
        Err(BusinessKeyConflict)
      else Ok(target)
    else
      var target := MaxTarget(ops, existing, payment.refundedAmount) + amount;
      if target > payment.expected.amount then Err(TargetExceedsAmount) else Ok(Some(target))
  }

  /** The refunded total that this intent must lead to. */
  function TargetFor(payment: Payment, ops: seq<Operation>, intent: Intent): Result<Option<int>, QueueError>
    requires AmountValid(intent)
  {
    var existing := FindKey(ops, intent.key);
    var active := LastActive(ops, existing);
    match intent.kind
    case CancelOrder => Ok(None)
    case RefundFull => Ok(Some(payment.expected.amount))
    case RefundPartial => PartialTarget(payment, ops, intent.amount.value, existing, active)
  }

  function NewOperation(intent: Intent, target: Option<int>, dependsOn: Option<nat>, now: int): Operation {
    Operation(intent.kind, intent.amount, target, dependsOn, intent.key, OperationStatus.Pending, None, 0, now, None,
              None)
  }

  /** Adds an operation unless the same one is already there; anything else is an error. */
  function Enqueue(payment: Payment, ops: seq<Operation>, intent: Intent, now: int): (r: Result<Enqueued, QueueError>)
    ensures r.Ok? ==> ops <= r.value.ops && r.value.id < |r.value.ops|
    ensures r.Ok? ==> r.value.ops[r.value.id].key == intent.key && r.value.ops[r.value.id].kind == intent.kind
    ensures r.Ok? ==> r.value.inserted == (FindKey(ops, intent.key) == None)
    ensures r.Ok? && !r.value.inserted ==> r.value.ops == ops
  {
    if !AmountValid(intent) then Err(AmountInvalid)
    else
      var existing := FindKey(ops, intent.key);
      if NeedsReview(ops) then Err(ChainRequiresReview)
      else
        var target := TargetFor(payment, ops, intent);
        if target.Err? then Err(target.error)
        else if existing.Some? then
          var row := ops[existing.value];
          if row.kind == intent.kind && row.amount == intent.amount && row.target == target.value then
            Ok(Enqueued(ops, existing.value, false))
          else Err(BusinessKeyConflict)
        else
          var op := NewOperation(intent, target.value, LastActive(ops, None), now);
          Ok(Enqueued(ops + [op], |ops|, true))
  }

  /** Filing the same non-partial intent again finds the operation and adds nothing. */
  lemma EnqueueTwice(payment: Payment, ops: seq<Operation>, intent: Intent, now: int)
    requires !intent.kind.RefundPartial? && Enqueue(payment, ops, intent, now).Ok?
    ensures var next := Enqueue(payment, ops, intent, now).value.ops;
            var again := Enqueue(payment, next, intent, now);
            again.Ok? && again.value.ops == next && !again.value.inserted
  {
    if FindKey(ops, intent.key).None? {
      var next := Enqueue(payment, ops, intent, now).value.ops;
      assert next[..|ops|] == ops;
      assert forall op | op in next :: op in ops || op == next[|ops|];
    }
  }

  // ----- The shape of the queue -----

  /** Each operation either waits for the one before it, or came after that one had succeeded. */
  ghost predicate Linked(ops: seq<Operation>) {
    && (|ops| > 0 ==> ops[0].dependsOn.None?)
    && forall i | 0 < i < |ops| ::
         ops[i].dependsOn == Some(i - 1) || (ops[i].dependsOn.None? && ops[i - 1].status.Succeeded?)
  }

  /** What may stand directly after what. */
  ghost predicate Follows(before: Operation, after: Operation) {
    || before.status.Succeeded?
    || (after.status.Pending? && after.attempts == 0)
    || (before.status.ReviewRequired? && after.status.ReviewRequired?)
  }

  ghost predicate Chain(ops: seq<Operation>) {
    && Linked(ops)
    && (forall i | 0 < i < |ops| :: Follows(ops[i - 1], ops[i]))
    && (forall op | op in ops :: op.status.Processing? <==> op.leasedUntil.Some?)
    && (forall op | op in ops :: op.leasedUntil.Some? <==> op.leaseOwner.Some?)
  }

  /** The first operation that has not succeeded, or the length. */
  function Head(ops: seq<Operation>): (h: nat)
    ensures h <= |ops|
    ensures forall i | 0 <= i < h :: ops[i].status.Succeeded?
    ensures h < |ops| ==> !ops[h].status.Succeeded?
  {
    if |ops| == 0 then 0
    else if !ops[0].status.Succeeded? then 0
    else 1 + Head(ops[1..])
  }

  /** After the head come only unstarted operations, or reviewed ones when the head itself is reviewed. */
  lemma {:induction false} ChainShape(ops: seq<Operation>, j: nat)
    requires Chain(ops)
    requires Head(ops) < j < |ops|
    ensures (ops[j].status.Pending? && ops[j].attempts == 0) || ops[j].status.ReviewRequired?
    ensures ops[j].status.ReviewRequired? ==> ops[Head(ops)].status.ReviewRequired?
    ensures ops[j].dependsOn == Some(j - 1)
  {
    assert Follows(ops[j - 1], ops[j]);
    if j - 1 > Head(ops) {
      ChainShape(ops, j - 1);
    }
  }

  /** Only the head can be processing, and nothing is under review beside it. */
  lemma ProcessingIsHead(ops: seq<Operation>, i: nat)
    requires Chain(ops) && i < |ops| && ops[i].status.Processing?
    ensures i == Head(ops)
    ensures !NeedsReview(ops)
    ensures forall j | 0 <= j < |ops| && j != i :: !ops[j].status.Processing?
  {
    if i > Head(ops) {
      ChainShape(ops, i);
    }
    forall j | 0 <= j < |ops| && j != i ensures !ops[j].status.Processing? && !ops[j].status.ReviewRequired? {
      if j > Head(ops) {
        ChainShape(ops, j);
      }
    }
  }

  /** Success happens in insertion order: whatever succeeded has only successes before it. */
  lemma SuccessIsAPrefix(ops: seq<Operation>, i: nat, j: nat)
    requires Chain(ops) && i < j < |ops|
    requires ops[j].status.Succeeded?
    ensures ops[i].status.Succeeded?
  {
    if j > Head(ops) {
      ChainShape(ops, j);
    }
  }

  /** The predecessor chosen for a new operation is the last one, unless all have succeeded. */
  lemma LastActiveInChain(ops: seq<Operation>)
    requires Chain(ops) && !NeedsReview(ops)
    ensures Head(ops) == |ops| ==> LastActive(ops, None) == None
    ensures Head(ops) < |ops| ==> LastActive(ops, None) == Some(|ops| - 1)
  {
    if Head(ops) < |ops| {
      var last := |ops| - 1;
      assert ops[last] in ops;
      if Head(ops) < last {
        ChainShape(ops, last);
      }
      assert Active(ops[last]);
    }
  }

  /** Appending what `Enqueue` builds keeps the chain. */
  lemma EnqueueKeepsChain(payment: Payment, ops: seq<Operation>, intent: Intent, now: int)
    requires Chain(ops)
    ensures Enqueue(payment, ops, intent, now).Ok? ==> Chain(Enqueue(payment, ops, intent, now).value.ops)
  {
    var r := Enqueue(payment, ops, intent, now);
    if r.Ok? && r.value.inserted {
      LastActiveInChain(ops);
      var next := r.value.ops;
      assert next[|ops|].attempts == 0 && next[|ops|].status.Pending?;
      forall i | 0 < i < |next| ensures Follows(next[i - 1], next[i]) {
        if i < |ops| {
          assert Follows(ops[i - 1], ops[i]);
        }
      }
    }
  }

  /** Any new state of the head operation keeps the chain; success needs no head after it to have started. */
  lemma UpdateHeadKeepsChain(ops: seq<Operation>, i: nat, op: Operation)
    requires Chain(ops) && i < |ops| && i <= Head(ops)
    requires op.dependsOn == ops[i].dependsOn
    requires op.status.Processing? <==> op.leasedUntil.Some?
    requires op.leasedUntil.Some? <==> op.leaseOwner.Some?
    requires i < Head(ops) ==> op.status.Succeeded?
    requires ops[i].status.ReviewRequired? ==> op.status.ReviewRequired?
    ensures Chain(ops[i := op])
  {
    var next := ops[i := op];
    forall j | 0 < j < |next| ensures Follows(next[j - 1], next[j]) {
      assert Follows(ops[j - 1], ops[j]);
      if j - 1 == i && i == Head(ops) {
        ChainShape(ops, j);
      }
    }
    forall j | 0 < j < |next|
      ensures next[j].dependsOn == Some(j - 1) || (next[j].dependsOn.None? && next[j - 1].status.Succeeded?)
    {
      assert next[j].dependsOn == ops[j].dependsOn;
      if j - 1 == i && i == Head(ops) {
        ChainShape(ops, j);
      }
    }
  }

  /** Sending a dependent of a reviewed operation to review keeps the chain. */
  lemma ReviewDependentKeepsChain(ops: seq<Operation>, i: nat, op: Operation)
    requires Chain(ops) && 0 < i < |ops|
    requires ops[i].dependsOn.Some? && ops[i].dependsOn.value < |ops|
    requires ops[ops[i].dependsOn.value].status.ReviewRequired?
    requires op == ops[i].(status := OperationStatus.ReviewRequired, leaseOwner := None, leasedUntil := None)
    ensures Chain(ops[i := op])
  {
    var next := ops[i := op];
    assert ops[i].dependsOn == Some(i - 1);
    forall j | 0 < j < |next| ensures Follows(next[j - 1], next[j]) {
      assert Follows(ops[j - 1], ops[j]);
      if j - 1 == i {
        if j > Head(ops) {
          ChainShape(ops, j);
        } else {
          assert ops[j - 1].status.Succeeded?;
          assert Head(ops) > i - 1;
        }
      }
    }
    forall j | 0 < j < |next|
      ensures next[j].dependsOn == Some(j - 1) || (next[j].dependsOn.None? && next[j - 1].status.Succeeded?)
    {
      assert next[j].dependsOn == ops[j].dependsOn;
    }
  }

  // ----- Refund targets -----

  /** The amount that a partial refund gives back; other operations count as nothing. */
  function PartialAmount(op: Operation): int {
    if op.kind.RefundPartial? && op.amount.Some? then op.amount.value else 0
  }

  /** The refunded total that a refund leads to. */
  function TargetOf(op: Operation): int {
    if op.target.Some? then op.target.value else 0
  }

  /** What all partial refunds of the queue give back together. */
  function PartialSum(ops: seq<Operation>): int {
    if |ops| == 0 then 0 else PartialSum(ops[..|ops| - 1]) + PartialAmount(ops[|ops| - 1])
  }

  /** Kind, key, amount and target of one operation agree. */
  ghost predicate WellTyped(op: Operation, expected: int) {
    match op.kind
    case CancelOrder => op.key.CancelKey? && op.amount.None? && op.target.None?
    case RefundFull => op.key.RefundFullKey? && op.amount.None? && op.target == Some(expected)
    case RefundPartial =>
      && op.key.AmendmentKey? && op.amount.Some? && op.target.Some?
      && 0 < op.amount.value <= op.target.value <= expected
  }

  /** What may stand, at any distance, after what. */
  ghost predicate Grows(before: Operation, after: Operation) {
    && before.key != after.key
    && (after.kind.RefundPartial? ==>
          && !before.kind.RefundFull?
          && (before.kind.RefundPartial? ==> TargetOf(before) + PartialAmount(after) <= TargetOf(after)))
  }

  ghost predicate Targets(ops: seq<Operation>, expected: int) {
    && (forall i | 0 <= i < |ops| :: WellTyped(ops[i], expected))
    && (forall i, j | 0 <= i < j < |ops| :: Grows(ops[i], ops[j]))
  }

  /** The kind of an intent fixes which key it is filed under. */
  predicate KeyFits(intent: Intent) {
    match intent.kind
    case CancelOrder => intent.key.CancelKey?
    case RefundFull => intent.key.RefundFullKey?
    case RefundPartial => intent.key.AmendmentKey?
  }

  /** The operation that `Enqueue` adds, seen from each older one. */
  lemma NewOperationGrows(payment: Payment, ops: seq<Operation>, intent: Intent, now: int, i: nat)
    requires Targets(ops, payment.expected.amount) && KeyFits(intent) && payment.refundedAmount >= 0
    requires Enqueue(payment, ops, intent, now).Ok? && FindKey(ops, intent.key).None? && i < |ops|
    ensures Grows(ops[i], Enqueue(payment, ops, intent, now).value.ops[|ops|])
  {
    assert ops[i] in ops;
    assert WellTyped(ops[i], payment.expected.amount);
    if intent.kind.RefundPartial? {
      var top := MaxTarget(ops, None, payment.refundedAmount);
      assert !ops[i].kind.CancelOrder? ==> TargetOf(ops[i]) <= top;
    }
  }

  /** Whatever amount the provider reports as refunded, targets keep growing and never pass the charge. */
  lemma EnqueueKeepsTargets(payment: Payment, ops: seq<Operation>, intent: Intent, now: int)
    requires Targets(ops, payment.expected.amount) && KeyFits(intent) && payment.refundedAmount >= 0
    ensures var r := Enqueue(payment, ops, intent, now);
            r.Ok? ==> Targets(r.value.ops, payment.expected.amount)
  {
    var r := Enqueue(payment, ops, intent, now);
    if r.Ok? && r.value.inserted {
      var next, n := r.value.ops, |ops|;
      assert WellTyped(next[n], payment.expected.amount);
      forall i, j | 0 <= i < j < |next| ensures Grows(next[i], next[j]) {
        if j == n {
          NewOperationGrows(payment, ops, intent, now, i);
        } else {
          assert next[i] == ops[i] && next[j] == ops[j];
        }
      }
    }
  }

  /** The target of the last partial refund, or zero. */
  function TopPartial(ops: seq<Operation>): (r: int)
    ensures r == 0 || exists i | 0 <= i < |ops| :: ops[i].kind.RefundPartial? && TargetOf(ops[i]) == r
  {
    if |ops| == 0 then 0
    else if ops[|ops| - 1].kind.RefundPartial? then TargetOf(ops[|ops| - 1])
    else TopPartial(ops[..|ops| - 1])
  }

  /** The partial refunds of a queue never add up to more than their last target, hence than the charge. */
  lemma {:induction false} PartialSumBounded(ops: seq<Operation>, expected: int)
    requires Targets(ops, expected) && expected >= 0
    ensures 0 <= PartialSum(ops) <= TopPartial(ops) <= expected
  {
    if |ops| > 0 {
      var init, last := ops[..|ops| - 1], |ops| - 1;
      assert forall i | 0 <= i < |init| :: init[i] == ops[i];
      PartialSumBounded(init, expected);
      assert WellTyped(ops[last], expected);
      if ops[last].kind.RefundPartial? && TopPartial(init) != 0 {
        var i :| 0 <= i < |init| && init[i].kind.RefundPartial? && TargetOf(init[i]) == TopPartial(init);
        assert Grows(ops[i], ops[last]);
      }
    }
  }

  /** Changing the progress of an operation, not what it is, leaves all amounts alone. */
  lemma {:induction false} ProgressKeepsAmounts(ops: seq<Operation>, i: nat, op: Operation, expected: int)
    requires i < |ops|
    requires op.kind == ops[i].kind && op.key == ops[i].key && op.amount == ops[i].amount && op.target == ops[i].target
    ensures PartialSum(ops[i := op]) == PartialSum(ops)
    ensures Targets(ops, expected) ==> Targets(ops[i := op], expected)
  {
    var next, last := ops[i := op], |ops| - 1;
    if i < last {
      ProgressKeepsAmounts(ops[..last], i, op, expected);
      assert next[..last] == ops[..last][i := op];
    } else {
      assert next[..last] == ops[..last];
    }
    if Targets(ops, expected) {
      forall k | 0 <= k < |next| ensures WellTyped(next[k], expected) {
        assert WellTyped(ops[k], expected);
      }
      forall j, k | 0 <= j < k < |next| ensures Grows(next[j], next[k]) {
        assert Grows(ops[j], ops[k]);
      }
    }
  }
}

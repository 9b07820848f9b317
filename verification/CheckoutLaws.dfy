/** Checkouts whose creation is uncertain: for each end, the answers that lead to it and what is written. */
module CheckoutLaws {
  import opened Checkout
  import opened OperationLaws
  import opened OrderStatuses
  import opened PaymentData
  import opened Retry
  import opened Snapshots
  import opened Transition
  import opened Wrappers

  // ----- Answers -----

  /** The creation may have gone through all the same, so it is looked for again later. */
  predicate Passing(kind: Option<ProviderFailure>) {
    kind in {Some(CreateRequiresRecovery), Some(ResourceLocked), Some(RateLimited), Some(ProviderUnavailable),
             Some(TransientUncertain)}
  }

  predicate NotFoundYet(r: RecoveryReplies) {
    r.search.Got? && |r.search.value| == 0
  }

  predicate FoundOne(r: RecoveryReplies) {
    r.search.Got? && |r.search.value| == 1
  }

  /** A pix charge that was never created, of an order that stands. */
  predicate Missing(seen: Payment, s: Saga, r: RecoveryReplies) {
    NotFoundYet(r) && seen.expected.paymentMethod == Pix && s.order.status != OrderStatus.Cancelled
  }

  predicate Overdue(s: Saga, now: int) {
    s.payment.expiresAt.Some? && s.payment.expiresAt.value <= now
  }

  /** The provider may be asked to create the charge again. */
  predicate Again(seen: Payment, s: Saga, r: RecoveryReplies, now: int) {
    Missing(seen, s, r) && !Overdue(s, now) && r.payerKnown
  }

  predicate OwnAccount(s: Saga, r: RecoveryReplies) {
    r.account == Got(s.payment.expected.accountId)
  }

  /** The schema stores no other kind of payment. */
  predicate PixOrCard(seen: Payment) {
    seen.expected.paymentMethod == Pix || seen.expected.paymentMethod == Card
  }

  // ----- Which answers lead where -----

  /** A report is used if it is that of the one charge found, or of one created again at the expected account. */
  lemma UsedExactly(seen: Payment, s: Saga, r: RecoveryReplies, now: int, snap: Snapshot)
    requires PixOrCard(seen)
    ensures PlanRecovery(seen, s, r, now) == Use(snap) <==>
            || (FoundOne(r) && r.read == Got(snap))
            || (Again(seen, s, r, now) && OwnAccount(s, r) && r.create == Got(snap))
  {
  }

  lemma ExpiredExactly(seen: Payment, s: Saga, r: RecoveryReplies, now: int)
    ensures PlanRecovery(seen, s, r, now) == ExpireUncreated <==> Missing(seen, s, r) && Overdue(s, now)
  {
  }

  /** The failure that decides when the provider fails for good, with the one that names the step otherwise. */
  function Named(kind: Option<ProviderFailure>, step: ReconciliationFailure): ReconciliationFailure {
    match kind
    case Some(k) => ProviderFailed(k)
    case None => step
  }

  /** Why the recovery is handed to a person; a failure of the re-creation is noted without an event. */
  predicate HandedOver(seen: Payment, s: Saga, r: RecoveryReplies, now: int, failure: ReconciliationFailure,
                       announced: bool)
  {
    || (r.search.Broken? && !Passing(r.search.kind) && failure == Named(r.search.kind, SearchFailed) && announced)
    || (r.search.Got? && |r.search.value| > 1 && failure == AmbiguousProviderCreate && announced)
    || (Missing(seen, s, r) && !Overdue(s, now) && !r.payerKnown && failure == PayerNotFound && !announced)
    || (Again(seen, s, r, now) && !announced
        && (|| (r.account.Broken? && !Passing(r.account.kind) && failure == Named(r.account.kind, CreateFailed))
            || (r.account.Got? && !OwnAccount(s, r) && failure == ProviderFailed(CredentialOrConfig))
            || (OwnAccount(s, r) && r.create.Broken? && !Passing(r.create.kind)
                && failure == Named(r.create.kind, CreateFailed))))
    || (FoundOne(r) && r.read.Broken? && !Passing(r.read.kind) && r.read.kind != Some(OrderNotFound)
        && failure == Named(r.read.kind, AuthoritativeReadFailed) && announced)
  }

  lemma HandedOverExactly(seen: Payment, s: Saga, r: RecoveryReplies, now: int, failure: ReconciliationFailure,
                          announced: bool)
    requires PixOrCard(seen)
    ensures PlanRecovery(seen, s, r, now) == SendToReview(failure, announced) <==>
            HandedOver(seen, s, r, now, failure, announced)
  {
  }

  /** Why the recovery is put off: failures that pass, a card charge or one of a cancelled order not to be seen. */
  predicate PutOff(seen: Payment, s: Saga, r: RecoveryReplies, now: int, failure: ReconciliationFailure,
                   advice: Option<int>, announced: bool)
  {
    || (r.search.Broken? && Passing(r.search.kind) && failure == Named(r.search.kind, SearchFailed)
        && advice == r.search.retryAfter && announced)
    || (NotFoundYet(r) && seen.expected.paymentMethod == Card && failure == Named(r.trigger, CreateNotVisible)
        && advice == r.triggerRetryAfter && announced)
    || (NotFoundYet(r) && seen.expected.paymentMethod == Pix && s.order.status == OrderStatus.Cancelled
        && failure == CancelledCreateSearchPending && advice == None && !announced)
    || (Again(seen, s, r, now) && !announced
        && (|| (r.account.Broken? && Passing(r.account.kind) && failure == Named(r.account.kind, CreateFailed)
                && advice == r.account.retryAfter)
            || (OwnAccount(s, r) && r.create.Broken? && Passing(r.create.kind)
                && failure == Named(r.create.kind, CreateFailed) && advice == r.create.retryAfter)))
    || (FoundOne(r) && r.read.Broken? && (Passing(r.read.kind) || r.read.kind == Some(OrderNotFound))
        && failure == Named(r.read.kind, AuthoritativeReadFailed) && advice == r.read.retryAfter && announced)
  }

  /** The attempts that count are those of the row that the write is based on. */
  lemma PutOffExactly(seen: Payment, s: Saga, r: RecoveryReplies, now: int, failure: ReconciliationFailure,
                      attempts: nat, advice: Option<int>, announced: bool)
    requires PixOrCard(seen)
    ensures PlanRecovery(seen, s, r, now) == WaitUntil(failure, attempts, advice, announced) <==>
            && PutOff(seen, s, r, now, failure, advice, announced)
            && attempts == if announced then seen.reconciliationAttempts else s.payment.reconciliationAttempts
  {
  }

  // ----- What is written -----

  predicate StillUncertain(p: Payment) {
    p.status == PaymentStatus.Pending && p.providerOrderId == None
  }

  predicate Reviewed(p: Payment, q: Payment, failure: ReconciliationFailure, now: int) {
    q == p.(reconciliation := ReconciliationState.ReviewRequired, failure := Some(failure), nextReconcileAt := None,
            lastReconciledAt := Some(now))
  }

  /** A review is told once for each failure, and only if it is announced. */
  predicate ReviewWritten(s: Saga, next: Saga, failure: ReconciliationFailure, announced: bool, now: int) {
    && Reviewed(s.payment, next.payment, failure, now)
    && next == s.(payment := next.payment, events := next.events)
    && next.events == s.events +
         if announced && !(s.payment.reconciliation == ReconciliationState.ReviewRequired
                           && s.payment.failure == Some(failure)) then
           [Event(s.order.status, PaymentUnderReview)]
         else []
  }

  /** When it is tried again: after the back-off with a tenth on top, or the provider's advice if that is longer. */
  predicate WaitedFor(at: int, now: int, attempts: nat, advice: Option<int>)
    requires attempts < 8
  {
    var asked := if advice.Some? && advice.value > 0 then advice.value * 1000 else 0;
    var wait := if asked > 21_600_000 then 21_600_000 else asked;
    at == now + if WAITS[attempts] > wait then WAITS[attempts] else wait
  }

  lemma WaitWritten(now: int, attempts: nat, advice: Option<int>)
    ensures Dispose(now, attempts, Some(0.1), advice).GiveUp? <==> attempts >= 8
    ensures attempts < 8 ==> WaitedFor(Dispose(now, attempts, Some(0.1), advice).at, now, attempts, advice)
  {
    if attempts < 8 {
      WaitOf(attempts);
    }
  }

  lemma RowsThatAreCertainStay(s: Saga, w: RecoveryWork, taken: TakenIds, now: int)
    requires !StillUncertain(s.payment)
    ensures Recover(s, w, taken, now) == s
  {
  }

  lemma ReviewWrites(s: Saga, failure: ReconciliationFailure, announced: bool, taken: TakenIds, now: int)
    requires StillUncertain(s.payment)
    ensures ReviewWritten(s, Recover(s, SendToReview(failure, announced), taken, now), failure, announced, now)
  {
  }

  /** Put off up to eight times; from then on the recovery is exhausted and handed to a person. */
  lemma WaitWrites(s: Saga, failure: ReconciliationFailure, attempts: nat, advice: Option<int>, announced: bool,
                   taken: TakenIds, now: int)
    requires StillUncertain(s.payment)
    ensures var next := Recover(s, WaitUntil(failure, attempts, advice, announced), taken, now);
            if attempts >= 8 then ReviewWritten(s, next, RetryExhausted, announced, now)
            else
              && next.payment.nextReconcileAt.Some?
              && WaitedFor(next.payment.nextReconcileAt.value, now, attempts, advice)
              && next == s.(payment := s.payment.(reconciliation := ReconciliationState.Pending,
                                                  failure := Some(failure), lastReconciledAt := Some(now),
                                                  nextReconcileAt := next.payment.nextReconcileAt))
  {
    WaitWritten(now, attempts, advice);
  }

  /** An overdue charge that was never created expires, and its order is cancelled if it waited for the payment. */
  lemma ExpiryWrites(s: Saga, taken: TakenIds, now: int)
    requires StillUncertain(s.payment)
    ensures var next := Recover(s, ExpireUncreated, taken, now);
            if s.order.status == OrderStatus.Cancelled || !Overdue(s, now) then next == s
            else
              && next.payment == s.payment.(status := PaymentStatus.Expired, failure := None, nextReconcileAt := None,
                                            reconciliation := ReconciliationState.Healthy,
                                            lastReconciledAt := Some(now))
              && next.ops == s.ops && next.amendments == s.amendments
              && if s.order.status == AwaitingPayment then
                   && next.order == s.order.(status := OrderStatus.Cancelled)
                   && next.events == s.events + [Event(OrderStatus.Cancelled, PaymentNotApproved)]
                 else next.order == s.order && next.events == s.events
  {
  }

  /** A report is applied as any other, with its decision; one that cannot be applied changes nothing. */
  lemma UseWrites(s: Saga, snap: Snapshot, taken: TakenIds, now: int)
    requires StillUncertain(s.payment)
    ensures var applied := ApplyDecision(s, Decide(s.payment, snap, taken), snap, now, Options(true, true));
            Recover(s, Use(snap), taken, now) == if applied.Ok? then applied.value.saga else s
  {
  }

  // ----- The reconciliation job -----

  /** Of the rows in the state asked for, those that are due are claimed; `eager` makes those not reviewed due. */
  lemma ClaimsExactly(p: Payment, underReview: bool, eager: bool, now: int)
    ensures var q := ClaimPayment(p, underReview, eager, now);
            if && (p.reconciliation == ReconciliationState.ReviewRequired <==> underReview)
               && (|| p.nextReconcileAt == None || p.nextReconcileAt.value <= now || (eager && !underReview))
            then q == p.(reconciliationAttempts := p.reconciliationAttempts + 1, nextReconcileAt := Some(now + 300_000))
            else q == p
  {
  }

  /** A claimed row that could not be read stays in its state for another attempt, of which there are eight. */
  lemma RetryWrites(p: Payment, attempts: nat, kind: Option<ProviderFailure>, advice: Option<int>, underReview: bool,
                    now: int)
    ensures var q := RetryPayment(p, attempts, kind, advice, underReview, now);
            if attempts >= 8 then Reviewed(p, q, RetryExhausted, now)
            else
              && q.nextReconcileAt.Some? && WaitedFor(q.nextReconcileAt.value, now, attempts, advice)
              && q == p.(failure := Some(Named(kind, Unexpected)), lastReconciledAt := Some(now),
                         nextReconcileAt := q.nextReconcileAt,
                         reconciliation := if underReview then ReconciliationState.ReviewRequired
                                           else ReconciliationState.Pending)
  {
    WaitWritten(now, attempts, advice);
  }
}

/** The rows that one online order owns: the order, its payment, the queued operations and the amendments. */
module PaymentData {
  import opened OrderStatuses
  import opened Snapshots
  import opened Wrappers

  datatype PaymentStatus = Pending | Approved | Rejected | Cancelled | Expired | Refunded

  datatype ReconciliationState = Pending | Healthy | ReviewRequired

  datatype ProviderFailure =
    | TransientUncertain
    | RateLimited
    | ProviderUnavailable
    | CredentialOrConfig
    | OrderNotFound
    | ProviderResponseInvalid
    | CreateRequiresRecovery
    | MutationRequiresRead
    | ResourceLocked

  /** Why a payment is waiting or under review. */
  datatype ReconciliationFailure =
    | SnapshotFailure(code: ReviewCode)
    | ProviderFailed(kind: ProviderFailure)
    | RetryExhausted
    | AmbiguousProviderCreate
    | CreateNotVisible
    | CancelledCreateSearchPending
    | PayerNotFound
    | SearchFailed
    | CreateFailed
    | AuthoritativeReadFailed
    | Unexpected

  datatype Payment = Payment(
    expected: Expected,
    status: PaymentStatus,
    providerOrderId: Option<string>,
    providerTransactionId: Option<string>,
    providerStatus: Option<string>,
    refundedAmount: int,
    reconciliation: ReconciliationState,
    failure: Option<ReconciliationFailure>,
    reconciliationAttempts: nat,
    nextReconcileAt: Option<int>,
    lastReconciledAt: Option<int>,
    expiresAt: Option<int>
  )

  datatype OperationKind = CancelOrder | RefundFull | RefundPartial

  datatype OperationStatus = Pending | Processing | Succeeded | ReviewRequired

  datatype ResultCode = Cancelled | Refunded | PartiallyRefunded | EscalatedToRefund | NotCharged

  /** Business keys carry the payment id, so inside one payment only this part of them varies. */
  datatype BusinessKey = CancelKey | RefundFullKey | AmendmentKey(amendment: nat)

  /** `dependsOn` is the position of an earlier operation of the same table. */
  datatype Operation = Operation(
    kind: OperationKind,
    amount: Option<int>,
    target: Option<int>,
    dependsOn: Option<nat>,
    key: BusinessKey,
    status: OperationStatus,
    result: Option<ResultCode>,
    attempts: nat,
    nextAttemptAt: int,
    leaseOwner: Option<nat>,
    leasedUntil: Option<int>
  )

  datatype Item = Item(id: nat, unitPrice: nat, quantity: nat)

  datatype Order = Order(status: OrderStatus, items: seq<Item>, deliveryFee: nat, subtotal: int, total: int)

  datatype AmendmentStatus = Proposed | Approved | Rejected | Expired

  datatype Change = Change(item: nat, newQuantity: nat)

  /** The three amounts are frozen when the store proposes. */
  datatype Amendment = Amendment(
    status: AmendmentStatus,
    newSubtotal: int,
    newTotal: int,
    refund: int,
    changes: seq<Change>
  )

  datatype Note =
    | PaymentUnderReview
    | CancellationPending
    | LateRefundPending
    | PaymentConfirmed
    | PaymentNotApproved
    | ApprovedAfterCancel
    | CancelledBy(who: Actor)
    | Advanced
    | DeliveryFailure
    | PartialRefund(amount: int)
    | Amended(amount: int)
    | AmendmentRefused

  datatype Actor = Customer | Store | System

  datatype Event = Event(status: OrderStatus, note: Note)

  /** Everything that belongs to one online order. Amendments are numbered by position. */
  datatype Saga = Saga(
    order: Order,
    payment: Payment,
    ops: seq<Operation>,
    amendments: seq<Amendment>,
    events: seq<Event>
  )

  /** The provider ids that other payments already carry. */
  datatype TakenIds = TakenIds(orders: set<string>, transactions: set<string>)

  /** unpaid < approved < refunded */
  function Rank(status: PaymentStatus): nat {
    match status
    case Approved => 1
    case Refunded => 2
    case _ => 0
  }

  predicate Unpaid(status: PaymentStatus) {
    status.Rejected? || status.Cancelled? || status.Expired?
  }

  /** The order ended without being delivered, so an approved payment has to go back. */
  predicate Undone(status: OrderStatus) {
    status.Cancelled? || status.DeliveryFailed?
  }
}

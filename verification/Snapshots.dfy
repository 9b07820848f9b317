/** What the payment provider reports about an order, and how a report is classified. */
module Snapshots {
  import opened Wrappers

  datatype Method = Pix | Card | Unknown

  /** The parts of a pix charge that the payment row keeps. */
  datatype PixData = PixData(expiresAt: Option<int>)

  datatype Snapshot = Snapshot(
    providerOrderId: string,
    providerTransactionId: string,
    orderStatus: string,
    orderStatusDetail: string,
    transactionStatus: Option<string>,
    transactionStatusDetail: Option<string>,
    externalReference: string,
    totalAmount: int,
    refundedAmount: int,
    countryCode: string,
    currency: Option<string>,
    processingMode: string,
    paymentMethod: Method,
    applicationId: Option<string>,
    accountId: Option<string>,
    liveMode: bool,
    transactionCount: int,
    pix: Option<PixData>
  )

  /** What the payment row says the provider order must look like. */
  datatype Expected = Expected(
    orderId: string,
    amount: int,
    currency: string,
    countryCode: string,
    paymentMethod: Method,
    applicationId: string,
    accountId: string,
    liveMode: bool
  )

  datatype ReviewCode =
    | MismatchProviderIds
    | MismatchExternalReference
    | MismatchAmount
    | MismatchCountry
    | MismatchCurrency
    | MismatchMethod
    | MismatchApplication
    | MismatchAccount
    | MismatchEnvironment
    | UnsupportedProcessingMode
    | MismatchTransactionCount
    | MismatchRefundedAmount
    | UnsupportedChargeback
    | UnsupportedCapture
    | UnsupportedProviderState

  datatype Decision =
    | Pending(qrAvailable: bool)
    | Approved
    | Rejected
    | Cancelled
    | Expired
    | Refunded
    | PartiallyRefunded(refundedAmount: int)
    | Review(code: ReviewCode)

  const MAX_SAFE_INTEGER := 9_007_199_254_740_991

  const SUPPORTED: set<string> := {
    "created", "pending", "processing", "in_process", "in_review", "action_required", "waiting_payment",
    "waiting_transfer", "processed", "accredited", "failed", "rejected", "canceled", "cancelled", "expired",
    "refunded"
  }

  const OPEN_STATES: set<string> := {
    "created", "pending", "processing", "in_process", "in_review", "action_required", "waiting_payment",
    "waiting_transfer"
  }

  function LowerChar(c: char): char {
    if 'A' <= c <= 'Z' then c - 'A' + 'a' else c
  }

  function Lower(s: string): (r: string)
    ensures |r| == |s|
  {
    seq(|s|, i requires 0 <= i < |s| => LowerChar(s[i]))
  }

  function LowerOption(s: Option<string>): Option<string> {
    if s.None? then None else Some(Lower(s.value))
  }

  predicate Includes(s: string, part: string) {
    exists i | 0 <= i <= |s| - |part| :: s[i..][..|part|] == part
  }

  predicate StartsWith(s: string, prefix: string) {
    prefix <= s
  }

  /** The values that are present, in order: the order's own first. */
  function Present(first: string, second: Option<string>): seq<string> {
    if second.None? then [first] else [first, second.value]
  }

  predicate MentionsChargeback(s: string) {
    Includes(s, "charged_back") || Includes(s, "chargeback")
  }

  predicate MentionsCapture(s: string) {
    Includes(s, "capture") || Includes(s, "challenge")
  }

  /** The money of the payment is refused, whatever else is reported. */
  predicate Failed(orderStatus: string, transactionStatus: Option<string>) {
    || orderStatus == "failed" || orderStatus == "rejected"
    || transactionStatus == Some("failed") || transactionStatus == Some("rejected")
  }

  /** The identity checks, in the order in which they are reported. */
  function IdentityProblem(s: Snapshot, e: Expected): Option<ReviewCode> {
    if |s.providerOrderId| == 0 || |s.providerTransactionId| == 0 || s.providerOrderId == s.providerTransactionId then
      Some(MismatchProviderIds)
    else if s.externalReference != e.orderId then Some(MismatchExternalReference)
    else if s.totalAmount != e.amount then Some(MismatchAmount)
    else if s.countryCode != e.countryCode then Some(MismatchCountry)
    else if s.currency != Some(e.currency) then Some(MismatchCurrency)
    else if s.paymentMethod != e.paymentMethod then Some(MismatchMethod)
    else if s.applicationId != Some(e.applicationId) then Some(MismatchApplication)
    else if s.accountId != Some(e.accountId) then Some(MismatchAccount)
    else if s.liveMode != e.liveMode then Some(MismatchEnvironment)
    else if s.processingMode != "automatic" then Some(UnsupportedProcessingMode)
    else if s.transactionCount != 1 then Some(MismatchTransactionCount)
    else if s.refundedAmount > MAX_SAFE_INTEGER || s.refundedAmount < 0 || s.refundedAmount > s.totalAmount then
      Some(MismatchRefundedAmount)
    else None
  }

  predicate AnyChargeback(statuses: seq<string>, details: seq<string>) {
    exists v | v in statuses + details :: MentionsChargeback(v)
  }

  predicate AnyCapture(statuses: seq<string>, details: seq<string>) {
    || (exists v | v in statuses :: MentionsCapture(v))
    || (exists v | v in details :: v != "waiting_capture" && MentionsCapture(v))
  }

  predicate AnyPartialRefund(statuses: seq<string>, details: seq<string>) {
    exists v | v in statuses + details :: Includes(v, "partially_refunded")
  }

  predicate AnyUnsupported(statuses: seq<string>) {
    exists v | v in statuses :: v !in SUPPORTED && !StartsWith(v, "cc_rejected")
  }

  /** The order's own status, which stands first, is not looked at. */
  predicate AnyCardRejection(statuses: seq<string>, details: seq<string>)
    requires |statuses| > 0
  {
    exists v | v in details + statuses[1..] :: StartsWith(v, "cc_rejected")
  }

  /** The reported state, once the identity is known to match. */
  function ClassifyState(s: Snapshot, e: Expected): Decision {
    ClassifyTexts(Lower(s.orderStatus), LowerOption(s.transactionStatus), Lower(s.orderStatusDetail),
                  LowerOption(s.transactionStatusDetail), s.refundedAmount, e.amount, s.pix.Some?)
  }

  function ClassifyTexts(orderStatus: string, transactionStatus: Option<string>, orderDetail: string,
                         transactionDetail: Option<string>, refunded: int, amount: int, qr: bool): Decision
  {
    var statuses, details := Present(orderStatus, transactionStatus), Present(orderDetail, transactionDetail);
    var failed := Failed(orderStatus, transactionStatus);
    if AnyChargeback(statuses, details) then Review(UnsupportedChargeback)
    else if !failed && AnyCapture(statuses, details) then Review(UnsupportedCapture)
    else if AnyPartialRefund(statuses, details) then
      if refunded > 0 then PartiallyRefunded(refunded) else Review(MismatchRefundedAmount)
    else if AnyUnsupported(statuses) then Review(UnsupportedProviderState)
    else if failed || AnyCardRejection(statuses, details) then Rejected
    else if orderStatus == "canceled" || orderStatus == "cancelled" then Cancelled
    else if orderStatus == "expired" then Expired
    else if orderStatus == "refunded" then
      if refunded == amount then Refunded else Review(MismatchRefundedAmount)
    else if orderStatus == "processed"
            && (orderDetail == "accredited" || transactionStatus in {Some("accredited"), Some("processed")}) then
      Approved
    else if orderStatus in OPEN_STATES then Pending(qr)
    else Review(UnsupportedProviderState)
  }

  function ValidateSnapshot(s: Snapshot, e: Expected): Decision {
    var problem := IdentityProblem(s, e);
    if problem.Some? then Review(problem.value) else ClassifyState(s, e)
  }

  /** The report is about this payment and its refunded amount is possible. */
  ghost predicate SamePayment(s: Snapshot, e: Expected) {
    && s.externalReference == e.orderId
    && s.totalAmount == e.amount
    && s.currency == Some(e.currency)
    && s.countryCode == e.countryCode
    && s.paymentMethod == e.paymentMethod
    && s.applicationId == Some(e.applicationId)
    && s.accountId == Some(e.accountId)
    && s.liveMode == e.liveMode
    && 0 <= s.refundedAmount <= e.amount
    && s.providerOrderId != "" && s.providerTransactionId != "" && s.providerOrderId != s.providerTransactionId
  }

  /** A report that is acted on is about this payment, and its amounts fit the decision. */
  lemma AcceptedReportsMatch(s: Snapshot, e: Expected)
    ensures !ValidateSnapshot(s, e).Review? ==> SamePayment(s, e)
    ensures ValidateSnapshot(s, e).Refunded? ==> s.refundedAmount == e.amount
    ensures ValidateSnapshot(s, e).PartiallyRefunded?
            ==> 0 < s.refundedAmount == ValidateSnapshot(s, e).refundedAmount
  {
  }

  /** A chargeback anywhere in the report always goes to review, wherever the check stands in the order. */
  lemma ChargebackIsReviewed(s: Snapshot, e: Expected, mention: string)
    requires || mention == s.orderStatus || Some(mention) == s.transactionStatus
             || mention == s.orderStatusDetail || Some(mention) == s.transactionStatusDetail
    requires MentionsChargeback(Lower(mention))
    ensures ValidateSnapshot(s, e).Review?
  {
    if IdentityProblem(s, e).None? {
      var statuses := Present(Lower(s.orderStatus), LowerOption(s.transactionStatus));
      var details := Present(Lower(s.orderStatusDetail), LowerOption(s.transactionStatusDetail));
      assert Lower(mention) in statuses + details by {
        assert statuses[0] in statuses && details[0] in details;
        assert |statuses| == 2 ==> statuses[1] in statuses;
        assert |details| == 2 ==> details[1] in details;
      }
    }
  }
}

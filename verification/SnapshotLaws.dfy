/** Which texts of a provider report lead to which decision, written out word by word. */
module SnapshotLaws {
  import opened Snapshots
  import opened Wrappers

  // ----- Texts -----

  /** Only the ASCII capitals change, to the letter 32 places on. */
  lemma LowerLaw(s: string, i: nat)
    requires i < |s|
    ensures |Lower(s)| == |s|
    ensures Lower(s)[i] == if 'A' <= s[i] <= 'Z' then s[i] + 32 as char else s[i]
  {
  }

  /** A text includes a part if and only if something stands before it and something after it, maybe nothing. */
  lemma IncludesLaw(s: string, part: string)
    ensures Includes(s, part) <==> exists before, after :: s == before + part + after
  {
    if Includes(s, part) {
      var i :| 0 <= i <= |s| - |part| && s[i..][..|part|] == part;
      assert s == s[..i] + part + s[i + |part|..];
    }
    if exists before, after :: s == before + part + after {
      var before, after :| s == before + part + after;
      assert s[|before|..][..|part|] == part;
    }
  }

  lemma StartsWithLaw(s: string, prefix: string)
    ensures StartsWith(s, prefix) <==> exists rest :: s == prefix + rest
  {
    if StartsWith(s, prefix) {
      assert s == prefix + s[|prefix|..];
    }
  }

  predicate Says(s: Snapshot, word: string) {
    Lower(s.orderStatus) == word
  }

  predicate TransactionSays(s: Snapshot, word: string) {
    s.transactionStatus.Some? && Lower(s.transactionStatus.value) == word
  }

  predicate StatusMentions(s: Snapshot, part: string) {
    || Includes(Lower(s.orderStatus), part)
    || (s.transactionStatus.Some? && Includes(Lower(s.transactionStatus.value), part))
  }

  predicate DetailMentions(s: Snapshot, part: string) {
    || Includes(Lower(s.orderStatusDetail), part)
    || (s.transactionStatusDetail.Some? && Includes(Lower(s.transactionStatusDetail.value), part))
  }

  predicate Mentions(s: Snapshot, part: string) {
    StatusMentions(s, part) || DetailMentions(s, part)
  }

  // ----- What a report says -----

  predicate OpenWord(word: string) {
    || word == "created" || word == "pending" || word == "processing" || word == "in_process" || word == "in_review"
    || word == "action_required" || word == "waiting_payment" || word == "waiting_transfer"
  }

  predicate KnownWord(word: string) {
    || OpenWord(word)
    || word == "processed" || word == "accredited" || word == "failed" || word == "rejected" || word == "canceled"
    || word == "cancelled" || word == "expired" || word == "refunded"
    || StartsWith(word, "cc_rejected")
  }

  predicate SaysFailed(s: Snapshot) {
    Says(s, "failed") || Says(s, "rejected") || TransactionSays(s, "failed") || TransactionSays(s, "rejected")
  }

  predicate ChargedBack(s: Snapshot) {
    Mentions(s, "charged_back") || Mentions(s, "chargeback")
  }

  predicate Captures(text: string) {
    Includes(text, "capture") || Includes(text, "challenge")
  }

  /** A detail that reads exactly "waiting_capture" is let through. */
  predicate Captured(s: Snapshot) {
    || Captures(Lower(s.orderStatus))
    || (s.transactionStatus.Some? && Captures(Lower(s.transactionStatus.value)))
    || (Lower(s.orderStatusDetail) != "waiting_capture" && Captures(Lower(s.orderStatusDetail)))
    || (s.transactionStatusDetail.Some? && Lower(s.transactionStatusDetail.value) != "waiting_capture"
        && Captures(Lower(s.transactionStatusDetail.value)))
  }

  predicate AllKnown(s: Snapshot) {
    && KnownWord(Lower(s.orderStatus))
    && (s.transactionStatus.Some? ==> KnownWord(Lower(s.transactionStatus.value)))
  }

  predicate SaysRejected(s: Snapshot) {
    || SaysFailed(s)
    || StartsWith(Lower(s.orderStatusDetail), "cc_rejected")
    || (s.transactionStatusDetail.Some? && StartsWith(Lower(s.transactionStatusDetail.value), "cc_rejected"))
    || (s.transactionStatus.Some? && StartsWith(Lower(s.transactionStatus.value), "cc_rejected"))
  }

  predicate SaysAccredited(s: Snapshot) {
    && Says(s, "processed")
    && (|| Lower(s.orderStatusDetail) == "accredited"
        || TransactionSays(s, "accredited") || TransactionSays(s, "processed"))
  }

  // ----- Identity -----

  /** The twelve checks of a report's identity, in the order in which they are made. */
  predicate Passes(s: Snapshot, e: Expected, check: nat) {
    match check
    case 0 => s.providerOrderId != "" && s.providerTransactionId != "" && s.providerOrderId != s.providerTransactionId
    case 1 => s.externalReference == e.orderId
    case 2 => s.totalAmount == e.amount
    case 3 => s.countryCode == e.countryCode
    case 4 => s.currency == Some(e.currency)
    case 5 => s.paymentMethod == e.paymentMethod
    case 6 => s.applicationId == Some(e.applicationId)
    case 7 => s.accountId == Some(e.accountId)
    case 8 => s.liveMode == e.liveMode
    case 9 => s.processingMode == "automatic"
    case 10 => s.transactionCount == 1
    case _ => 0 <= s.refundedAmount <= s.totalAmount && s.refundedAmount <= 9_007_199_254_740_991
  }

  const CODES: seq<ReviewCode> := [
    MismatchProviderIds, MismatchExternalReference, MismatchAmount, MismatchCountry, MismatchCurrency, MismatchMethod,
    MismatchApplication, MismatchAccount, MismatchEnvironment, UnsupportedProcessingMode, MismatchTransactionCount,
    MismatchRefundedAmount]

  predicate Identified(s: Snapshot, e: Expected) {
    forall check | 0 <= check < 12 :: Passes(s, e, check)
  }

  /** The first check that fails names the review. */
  lemma FirstFailureIsReported(s: Snapshot, e: Expected, check: nat)
    requires check < 12 && !Passes(s, e, check) && forall c | 0 <= c < check :: Passes(s, e, c)
    ensures ValidateSnapshot(s, e) == Review(CODES[check])
  {
    assert check > 0 ==> Passes(s, e, 0);
    assert check > 1 ==> Passes(s, e, 1);
    assert check > 2 ==> Passes(s, e, 2);
    assert check > 3 ==> Passes(s, e, 3);
    assert check > 4 ==> Passes(s, e, 4);
    assert check > 5 ==> Passes(s, e, 5);
    assert check > 6 ==> Passes(s, e, 6);
    assert check > 7 ==> Passes(s, e, 7);
    assert check > 8 ==> Passes(s, e, 8);
    assert check > 9 ==> Passes(s, e, 9);
    assert check > 10 ==> Passes(s, e, 10);
  }

  lemma IdentifiedHasNoProblem(s: Snapshot, e: Expected)
    ensures IdentityProblem(s, e).None? <==> Identified(s, e)
  {
    if Identified(s, e) {
      assert Passes(s, e, 0) && Passes(s, e, 1) && Passes(s, e, 2) && Passes(s, e, 3) && Passes(s, e, 4);
      assert Passes(s, e, 5) && Passes(s, e, 6) && Passes(s, e, 7) && Passes(s, e, 8) && Passes(s, e, 9);
      assert Passes(s, e, 10) && Passes(s, e, 11);
    }
  }

  // ----- Decisions -----

  lemma SomePresent(first: string, second: Option<string>)
    ensures first in Present(first, second) && (second.Some? ==> second.value in Present(first, second))
    ensures forall v | v in Present(first, second) :: v == first || second == Some(v)
    ensures forall v | v in Present(first, second)[1..] :: second == Some(v)
    ensures second.Some? ==> second.value in Present(first, second)[1..]
  {
    assert second.Some? ==> Present(first, second)[1..] == [second.value];
    assert second.None? ==> Present(first, second)[1..] == [];
  }

  lemma ChargebackAsksTexts(st: string, tx: Option<string>, det: string, txd: Option<string>)
    ensures AnyChargeback(Present(st, tx), Present(det, txd)) <==>
            || MentionsChargeback(st) || (tx.Some? && MentionsChargeback(tx.value))
            || MentionsChargeback(det) || (txd.Some? && MentionsChargeback(txd.value))
  {
    SomePresent(st, tx);
    SomePresent(det, txd);
  }

  lemma PartialAsksTexts(st: string, tx: Option<string>, det: string, txd: Option<string>)
    ensures AnyPartialRefund(Present(st, tx), Present(det, txd)) <==>
            || Includes(st, "partially_refunded") || (tx.Some? && Includes(tx.value, "partially_refunded"))
            || Includes(det, "partially_refunded") || (txd.Some? && Includes(txd.value, "partially_refunded"))
  {
    SomePresent(st, tx);
    SomePresent(det, txd);
  }

  lemma CaptureAsksTexts(st: string, tx: Option<string>, det: string, txd: Option<string>)
    ensures AnyCapture(Present(st, tx), Present(det, txd)) <==>
            || MentionsCapture(st) || (tx.Some? && MentionsCapture(tx.value))
            || (det != "waiting_capture" && MentionsCapture(det))
            || (txd.Some? && txd.value != "waiting_capture" && MentionsCapture(txd.value))
  {
    SomePresent(st, tx);
    SomePresent(det, txd);
  }

  lemma SupportAsksTexts(st: string, tx: Option<string>)
    ensures AnyUnsupported(Present(st, tx)) <==>
            !KnownWord(st) || (tx.Some? && !KnownWord(tx.value))
  {
    SomePresent(st, tx);
    SupportedAreKnown(st);
    if tx.Some? {
      SupportedAreKnown(tx.value);
    }
  }

  lemma SupportedAreKnown(v: string)
    ensures KnownWord(v) <==> v in SUPPORTED || StartsWith(v, "cc_rejected")
  {
  }

  lemma RejectionAsksTexts(st: string, tx: Option<string>, det: string, txd: Option<string>)
    ensures AnyCardRejection(Present(st, tx), Present(det, txd)) <==>
            || StartsWith(det, "cc_rejected") || (txd.Some? && StartsWith(txd.value, "cc_rejected"))
            || (tx.Some? && StartsWith(tx.value, "cc_rejected"))
  {
    SomePresent(st, tx);
    SomePresent(det, txd);
  }

  /** No text asks for a review before the words are looked at, and no text speaks of a partial refund. */
  predicate Plain(s: Snapshot) {
    !ChargedBack(s) && (Captured(s) ==> SaysFailed(s)) && !Mentions(s, "partially_refunded") && AllKnown(s)
  }

  /** The decision as it follows from what the report says, once its identity is known to match. */
  predicate Follows(s: Snapshot, e: Expected, d: Decision) {
    && (d == PartiallyRefunded(s.refundedAmount) <==>
          && !ChargedBack(s) && (Captured(s) ==> SaysFailed(s)) && Mentions(s, "partially_refunded")
          && s.refundedAmount > 0)
    && (d.PartiallyRefunded? ==> d.refundedAmount == s.refundedAmount)
    && (d.Rejected? <==> Plain(s) && SaysRejected(s))
    && (d.Cancelled? <==> Plain(s) && !SaysRejected(s) && (Says(s, "canceled") || Says(s, "cancelled")))
    && (d.Expired? <==> Plain(s) && !SaysRejected(s) && Says(s, "expired"))
    && (d.Refunded? <==> Plain(s) && !SaysRejected(s) && Says(s, "refunded") && s.refundedAmount == e.amount)
    && (d.Approved? <==> Plain(s) && !SaysRejected(s) && SaysAccredited(s))
    && (d.Pending? <==> Plain(s) && !SaysRejected(s) && OpenWord(Lower(s.orderStatus)))
    && (d.Pending? ==> d.qrAvailable == s.pix.Some?)
    && (d == Review(UnsupportedChargeback) <==> ChargedBack(s))
    && (d == Review(UnsupportedCapture) <==> !ChargedBack(s) && Captured(s) && !SaysFailed(s))
  }

  /** Whether the four texts ask for a review, a partial refund or a rejection, and whether their words are known. */
  datatype Reading = Reading(back: bool, captured: bool, failed: bool, partial: bool, known: bool, rejected: bool,
                             accredited: bool)

  function Read(s: Snapshot): Reading {
    Reading(ChargedBack(s), Captured(s), SaysFailed(s), Mentions(s, "partially_refunded"), AllKnown(s),
            SaysRejected(s), SaysAccredited(s))
  }

  function DecisionOf(r: Reading, word: string, refunded: int, amount: int, qr: bool): Decision {
    if r.back then Review(UnsupportedChargeback)
    else if !r.failed && r.captured then Review(UnsupportedCapture)
    else if r.partial then if refunded > 0 then PartiallyRefunded(refunded) else Review(MismatchRefundedAmount)
    else if !r.known then Review(UnsupportedProviderState)
    else if r.rejected then Rejected
    else if word == "canceled" || word == "cancelled" then Cancelled
    else if word == "expired" then Expired
    else if word == "refunded" then if refunded == amount then Refunded else Review(MismatchRefundedAmount)
    else if r.accredited then Approved
    else if OpenWord(word) then Pending(qr)
    else Review(UnsupportedProviderState)
  }

  lemma TextsAreRead(st: string, tx: Option<string>, det: string, txd: Option<string>, r: Reading, refunded: int,
                     amount: int, qr: bool)
    requires r.back == AnyChargeback(Present(st, tx), Present(det, txd))
    requires r.captured == AnyCapture(Present(st, tx), Present(det, txd)) && r.failed == Failed(st, tx)
    requires r.partial == AnyPartialRefund(Present(st, tx), Present(det, txd))
    requires r.known == !AnyUnsupported(Present(st, tx))
    requires r.rejected == (Failed(st, tx) || AnyCardRejection(Present(st, tx), Present(det, txd)))
    requires r.accredited ==
               (st == "processed" && (det == "accredited" || tx == Some("accredited") || tx == Some("processed")))
    ensures ClassifyTexts(st, tx, det, txd, refunded, amount, qr) == DecisionOf(r, st, refunded, amount, qr)
  {
    assert OpenWord(st) <==> st in OPEN_STATES;
  }

  lemma StateIsRead(s: Snapshot, e: Expected)
    ensures ClassifyState(s, e) ==
              DecisionOf(Read(s), Lower(s.orderStatus), s.refundedAmount, e.amount, s.pix.Some?)
  {
    var st, tx := Lower(s.orderStatus), LowerOption(s.transactionStatus);
    var det, txd := Lower(s.orderStatusDetail), LowerOption(s.transactionStatusDetail);
    ChargebackAsksTexts(st, tx, det, txd);
    CaptureAsksTexts(st, tx, det, txd);
    PartialAsksTexts(st, tx, det, txd);
    SupportAsksTexts(st, tx);
    RejectionAsksTexts(st, tx, det, txd);
    TextsAreRead(st, tx, det, txd, Read(s), s.refundedAmount, e.amount, s.pix.Some?);
  }

  /** The words of the branches exclude one another, so their order does not matter. */
  lemma ReadingFollows(r: Reading, word: string, refunded: int, amount: int, qr: bool)
    requires r.accredited ==> word == "processed"
    ensures var d := DecisionOf(r, word, refunded, amount, qr);
            var plain := !r.back && (r.captured ==> r.failed) && !r.partial && r.known;
            && (d == PartiallyRefunded(refunded) <==>
                  !r.back && (r.captured ==> r.failed) && r.partial && refunded > 0)
            && (d.PartiallyRefunded? ==> d.refundedAmount == refunded)
            && (d.Rejected? <==> plain && r.rejected)
            && (d.Cancelled? <==> plain && !r.rejected && (word == "canceled" || word == "cancelled"))
            && (d.Expired? <==> plain && !r.rejected && word == "expired")
            && (d.Refunded? <==> plain && !r.rejected && word == "refunded" && refunded == amount)
            && (d.Approved? <==> plain && !r.rejected && r.accredited)
            && (d.Pending? <==> plain && !r.rejected && OpenWord(word))
            && (d.Pending? ==> d.qrAvailable == qr)
            && (d == Review(UnsupportedChargeback) <==> r.back)
            && (d == Review(UnsupportedCapture) <==> !r.back && r.captured && !r.failed)
  {
    WordsDiffer(word);
  }

  lemma WordsDiffer(word: string)
    ensures OpenWord(word) ==> word !in ["canceled", "cancelled", "expired", "refunded", "processed"]
  {
    assert "processed" != "processing" && "processed"[7] != "processing"[7];
  }

  lemma StateFollows(s: Snapshot, e: Expected)
    ensures Follows(s, e, ClassifyState(s, e))
  {
    StateIsRead(s, e);
    ReadingFollows(Read(s), Lower(s.orderStatus), s.refundedAmount, e.amount, s.pix.Some?);
  }

  /**
   * A report whose identity does not match goes to review, and any other is decided by its texts alone: each decision
   * is made if and only if the words of the report ask for it.
   */
  lemma DecidedExactly(s: Snapshot, e: Expected)
    ensures !Identified(s, e) ==> ValidateSnapshot(s, e).Review?
    ensures Identified(s, e) ==> Follows(s, e, ValidateSnapshot(s, e))
  {
    IdentifiedHasNoProblem(s, e);
    StateFollows(s, e);
  }
}

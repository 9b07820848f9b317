/** A stale report that takes back part of what the payment row knew about refunds. */
module StaleReports {
  import opened Items
  import opened PaymentData
  import opened SagaRuns
  import opened Snapshots
  import opened Transition
  import opened Wrappers

  function Charge(): Expected {
    Expected("o", 10, "BRL", "BR", Pix, "app", "acc", true)
  }

  /** The provider says that the order is paid, and how much of it was given back so far. */
  function Paid(refunded: int): Snapshot {
    Snapshot("p", "t", "processed", "accredited", None, None, "o", 10, refunded, "BR", Some("BRL"), "automatic", Pix,
             Some("app"), Some("acc"), true, 1, None)
  }

  lemma LowerCase()
    ensures Lower("processed") == "processed" && Lower("accredited") == "accredited"
  {
  }

  lemma NotIncluded(s: string, part: string)
    requires |part| >= 2
    requires forall i | 0 <= i <= |s| - |part| :: s[i] != part[0] || s[i + 1] != part[1]
    ensures !Includes(s, part)
  {
    forall i | 0 <= i <= |s| - |part| ensures s[i..][..|part|] != part {
      assert s[i..][..|part|][0] == s[i] && s[i..][..|part|][1] == s[i + 1];
    }
  }

  lemma NothingElseProcessed()
    ensures !MentionsChargeback("processed") && !MentionsCapture("processed")
    ensures !Includes("processed", "partially_refunded")
  {
    NotIncluded("processed", "capture");
    NotIncluded("processed", "challenge");
  }

  lemma NothingElseAccredited()
    ensures !MentionsChargeback("accredited") && !MentionsCapture("accredited")
    ensures !Includes("accredited", "partially_refunded") && !StartsWith("accredited", "cc_rejected")
  {
    NotIncluded("accredited", "chargeback");
    NotIncluded("accredited", "capture");
    NotIncluded("accredited", "challenge");
  }

  lemma PaidIsApproved(refunded: int)
    requires 0 <= refunded <= 10
    ensures ValidateSnapshot(Paid(refunded), Charge()) == Decision.Approved
  {
    LowerCase();
    NothingElseProcessed();
    NothingElseAccredited();
    assert IdentityProblem(Paid(refunded), Charge()) == None;
    assert Present("processed", None) == ["processed"] && Present("accredited", None) == ["accredited"];
    assert ["processed"] + ["accredited"] == ["processed", "accredited"];
    assert ["accredited"] + ["processed"][1..] == ["accredited"];
  }

  function Known(refunded: int): Payment {
    Payment(Charge(), PaymentStatus.Approved, Some("p"), Some("t"), Some("processed"), refunded,
            ReconciliationState.Healthy, None, 0, None, Some(0), Some(0))
  }

  lemma NewPaymentIsApproved(s: Saga, taken: TakenIds, refunded: int)
    requires taken == TakenIds({}, {}) && 0 <= refunded <= 10
    requires s.payment.expected == Charge() && s.payment.expiresAt == Some(0) && !s.payment.status.Refunded?
    requires s.payment.providerOrderId.Some? ==> s.payment.providerOrderId.value == "p"
    requires s.payment.providerTransactionId.Some? ==> s.payment.providerTransactionId.value == "t"
    requires !s.order.status.Cancelled?
    ensures var next := Next(s, Reports(Paid(refunded), 0), taken);
            next.payment == Known(refunded) && !next.order.status.Cancelled?
  {
    PaidIsApproved(refunded);
    assert Decide(s.payment, Paid(refunded), taken) == Decision.Approved;
  }

  function Opened(): seq<WorldStep> {
    [Opens(0, [Item(0, 10, 1)], 0, Charge(), 0)]
  }

  function Refunded(): seq<WorldStep> {
    Opened() + [Moves(0, Reports(Paid(5), 0))]
  }

  function Stale(): seq<WorldStep> {
    Refunded() + [Moves(0, Reports(Paid(0), 0))]
  }

  lemma OnlyOne(w: World)
    requires w.sagas.Keys == {0}
    ensures TakenBy(w, 0) == TakenIds({}, {})
  {
  }

  lemma OpenedRun()
    ensures Run(Opened()) == World(map[0 := NewSaga([Item(0, 10, 1)], 0, Charge(), 0)])
  {
    assert Run(Opened()[..0]) == World(map[]);
    assert Subtotal([Item(0, 10, 1)]) == 10;
  }

  /** A report of a refund, and then one from before the refund: the stored amount falls from 5 to 0. */
  lemma StaleReportLowersRefund()
    ensures 0 in Run(Refunded()).sagas && Run(Refunded()).sagas[0].payment.refundedAmount == 5
    ensures 0 in Run(Stale()).sagas && Run(Stale()).sagas[0].payment.refundedAmount == 0
  {
    OpenedRun();
    assert Refunded()[..1] == Opened();
    OnlyOne(Run(Opened()));
    NewPaymentIsApproved(Run(Opened()).sagas[0], TakenIds({}, {}), 5);
    assert Stale()[..2] == Refunded();
    OnlyOne(Run(Refunded()));
    NewPaymentIsApproved(Run(Refunded()).sagas[0], TakenIds({}, {}), 0);
  }
}

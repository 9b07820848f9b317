/** How an order came to its driver and its customer, over every run of the dispatch services. */
module DispatchHistory {
  import opened BatchLaws
  import opened Dispatch
  import opened DispatchLaws
  import opened DispatchRuns
  import opened OrderStatuses
  import opened Wrappers

  // ----- Every driver took the order -----

  predicate Keeps(f: Fleet, e: Event, id: nat) {
    id < |f.orders| && !Loses(f, e, id)
  }

  /** No event after this one has taken the order away. */
  predicate KeptSince(events: seq<Event>, j: nat, id: nat) {
    j + 1 < |events| ==>
      && Keeps(Run(events[..|events| - 1]), events[|events| - 1], id)
      && KeptSince(events[..|events| - 1], j, id)
  }

  ghost predicate GetsAt(events: seq<Event>, j: nat, id: nat, driver: nat)
    requires j < |events|
  {
    id < |Run(events[..j]).orders| && Gets(Run(events[..j]), events[j], id, driver)
  }

  /** With this event the driver took the order, and nothing since has taken it away. */
  ghost predicate TookAt(events: seq<Event>, j: nat, id: nat, driver: nat) {
    j < |events| && GetsAt(events, j, id, driver) && KeptSince(events, j, id)
  }

  lemma StillTaken(events: seq<Event>, j: nat, id: nat, driver: nat)
    requires |events| > 0
    requires TookAt(events[..|events| - 1], j, id, driver)
    requires Keeps(Run(events[..|events| - 1]), events[|events| - 1], id)
    ensures TookAt(events, j, id, driver)
  {
    assert events[..j] == events[..|events| - 1][..j];
  }

  /** A new order has no driver. */
  lemma NewOrders(f: Fleet, e: Event, id: nat)
    requires |f.orders| <= id < |Next(f, e).orders|
    ensures e.Places? && Fresh(e.order) && Next(f, e).orders[id] == e.order
  {
    if IsOrderEvent(e) && OrderStep(f, e).Ok? {
      OrderStepIsLocal(f, e);
    }
  }

  /** Over every run: whoever has an order took it when it was on offer to that driver, and has not lost it since. */
  lemma {:induction false} EveryDriverTookTheOrder(events: seq<Event>, id: nat, driver: nat)
    requires id < |Run(events).orders| && Run(events).orders[id].driver == Some(driver)
    ensures exists j: nat :: TookAt(events, j, id, driver)
  {
    if |events| > 0 {
      var init, last := events[..|events| - 1], events[|events| - 1];
      var f := Run(init);
      if id >= |f.orders| {
        NewOrders(f, last, id);
      } else {
        RunsStayCoherent(init);
        DriverChangesExactly(f, last, id, driver);
        if Gets(f, last, id, driver) {
          assert TookAt(events, |events| - 1, id, driver);
        } else {
          EveryDriverTookTheOrder(init, id, driver);
          var j: nat :| TookAt(init, j, id, driver);
          StillTaken(events, j, id, driver);
        }
      }
    }
  }

  // ----- Directed work -----

  /** Work of the general pool is done off shift, directed work on shift and by the driver asked for, if any. */
  predicate Suits(o: Order) {
    o.driver.Some? && o.batch == None && o.status != Cancelled ==>
      && o.requested && o.target.Some?
      && match o.target.value
         case General => o.shift == None
         case Own => o.shift.Some?
         case Specific => o.shift.Some? && o.requestedDriver == o.driver && !o.refused
  }

  predicate SuitsBatch(b: Batch) {
    b.driver.Some? && b.target == Specific ==> b.requestedDriver == b.driver && !b.refused
  }

  ghost predicate AllSuit(f: Fleet) {
    (forall o | o in f.orders :: Suits(o)) && forall b | b in f.batches :: SuitsBatch(b)
  }

  lemma AcceptedOrderSuits(f: Fleet, e: Event, id: nat)
    requires Coherent(f) && id < |f.orders| && Suits(f.orders[id]) && (e.Accepts? || e.AcceptsOnShift?) && e.id == id
    ensures Suits(After(f, e, id))
  {
    assert OrderOk(f.orders[id], f.batches, f.shifts);
  }

  lemma GivenBackOrder(f: Fleet, e: Event, id: nat)
    requires id < |f.orders| && (IsRequest(e) || e.Releases?) && e.id == id
    ensures After(f, e, id) == f.orders[id] || After(f, e, id).driver == None
  {
    match e
    case Requests(_, _, _, _, _) =>
    case WithdrawsRequest(_, _) =>
    case ReleasesDriver(_, _) =>
    case Releases(_, _) =>
  }

  lemma ChangedOrderSuits(f: Fleet, e: Event, id: nat)
    requires id < |f.orders| && Suits(f.orders[id])
    requires IsOrderEvent(e) && !Hands(e) && !IsRequest(e) && e.id == id
    ensures Suits(After(f, e, id))
  {
    OtherEventsKeepOffer(f, e, id);
    OtherEventsKeepHands(f, e, id);
    StatusOf(f, e, id);
    UnlessCancelledInItsBatch(f, e, id);
    SuitsAgain(f.orders[id], After(f, e, id));
  }

  lemma SuitsAgain(was: Order, now: Order)
    requires Suits(was) && now.driver == was.driver && now.shift == was.shift
    requires OfferOf(now) == OfferOf(was) || (OfferOf(now) == OfferOf(was).(refused := true) && was.driver == None)
    requires now.batch == was.batch || now.status == Cancelled
    requires was.status == Cancelled ==> now.status == Cancelled
    ensures Suits(now)
  {
    assert OfferOf(now).requested == OfferOf(was).requested && OfferOf(now).target == OfferOf(was).target
        && OfferOf(now).wanted == OfferOf(was).wanted;
  }

  lemma UnlessCancelledInItsBatch(f: Fleet, e: Event, id: nat)
    requires id < |f.orders| && IsOrderEvent(e) && e.id == id
    ensures After(f, e, id).batch == f.orders[id].batch || After(f, e, id).status == Cancelled
  {
    if f.orders[id].status == Cancelled {
      StatusOf(f, e, id);
    } else {
      OrderEventLeaves(f, e, id);
      StatusChangesExactly(f, e, id, Cancelled);
    }
  }

  /** What is cancelled stays cancelled. */
  lemma StatusOf(f: Fleet, e: Event, id: nat)
    requires id < |f.orders|
    ensures f.orders[id].status == Cancelled ==> After(f, e, id).status == Cancelled
  {
    var now := After(f, e, id).status;
    if f.orders[id].status == Cancelled && now != Cancelled {
      StatusChangesExactly(f, e, id, now);
    }
  }

  lemma BatchedOrderSuits(f: Fleet, e: Event, id: nat)
    requires Coherent(f) && id < |f.orders| && Suits(f.orders[id]) && IsBatchEvent(e)
    ensures Suits(After(f, e, id))
  {
    var o := f.orders[id];
    assert OrderOk(o, f.batches, f.shifts);
    if e.CancelsBatch? && o.batch == Some(e.batch) {
      assert BatchOk(f.batches[e.batch]);
    } else if o.batch == None {
      UnbatchedOrderStays(f, e, id);
    } else {
      BatchChangesExactly(f, e, id, o.batch.value);
    }
  }

  lemma UnbatchedOrderStays(f: Fleet, e: Event, id: nat)
    requires id < |f.orders| && f.orders[id].batch == None && IsBatchEvent(e)
    ensures After(f, e, id) == f.orders[id] || After(f, e, id).batch.Some?
  {
    match e
    case CreatesBatch(_, _) =>
    case Broadcasts(_, _, _, _, _) =>
    case CancelsBatch(_, _) =>
    case _ =>
  }

  lemma NextSuits(f: Fleet, e: Event)
    requires Coherent(f) && AllSuit(f)
    ensures AllSuit(Next(f, e))
  {
    var next := Next(f, e);
    forall id | 0 <= id < |next.orders| ensures Suits(next.orders[id]) {
      if id >= |f.orders| {
        NewOrders(f, e, id);
      } else {
        assert f.orders[id] in f.orders;
        OrderSuits(f, e, id);
      }
    }
    forall b | 0 <= b < |next.batches| ensures SuitsBatch(next.batches[b]) {
      if b >= |f.batches| {
        NewBatches(f, e);
      } else {
        assert f.batches[b] in f.batches;
        BatchSuits(f, e, b);
      }
    }
  }

  lemma OrderSuits(f: Fleet, e: Event, id: nat)
    requires Coherent(f) && id < |f.orders| && Suits(f.orders[id])
    ensures Suits(After(f, e, id))
  {
    if e.Accepts? || e.AcceptsOnShift? {
      if e.id == id {
        AcceptedOrderSuits(f, e, id);
      } else {
        OtherOrdersStay(f, e, id);
      }
    } else if IsOrderEvent(e) && e.id == id {
      if IsRequest(e) || e.Releases? {
        GivenBackOrder(f, e, id);
      } else {
        ChangedOrderSuits(f, e, id);
      }
    } else if IsBatchEvent(e) {
      BatchedOrderSuits(f, e, id);
    } else {
      OtherOrdersStay(f, e, id);
    }
  }

  lemma NewBatches(f: Fleet, e: Event)
    requires |Next(f, e).batches| > |f.batches|
    ensures e.CreatesBatch?
  {
    if !IsBatchEvent(e) {
      OtherEventsKeepBatches(f, e);
    }
  }

  lemma BatchSuits(f: Fleet, e: Event, b: nat)
    requires Coherent(f) && b < |f.batches| && SuitsBatch(f.batches[b])
    ensures b < |Next(f, e).batches| && SuitsBatch(Next(f, e).batches[b])
  {
    BatchesChangeExactly(f, e, b);
    if e.AcceptsBatch? && TakesBatch(f, e, b, e.driver) {
      var batch := f.batches[b];
      assert batch.target == Specific ==> batch.requestedDriver == Some(e.driver) && !batch.refused;
    }
  }

  lemma {:induction false} RunsSuit(events: seq<Event>)
    ensures AllSuit(Run(events))
  {
    if |events| > 0 {
      var init := events[..|events| - 1];
      RunsSuit(init);
      RunsStayCoherent(init);
      NextSuits(Run(init), events[|events| - 1]);
    }
  }

  /** Over every run: what is directed at one driver is with nobody else, and nothing directed is done off shift. */
  lemma DirectedWorkIsForItsDriver(events: seq<Event>, id: nat, driver: nat)
    requires id < |Run(events).orders| && Run(events).orders[id].driver == Some(driver)
    ensures var f := Run(events);
            var o := f.orders[id];
            && (o.batch == None && o.status != Cancelled ==>
                  && (o.target == Some(Specific) ==> o.requestedDriver == Some(driver) && !o.refused)
                  && (o.shift.Some? <==> o.target != Some(General)))
            && (o.batch.Some? ==>
                  && o.batch.value < |f.batches|
                  && var b := f.batches[o.batch.value];
                     (b.target == Specific ==> b.requestedDriver == Some(driver) && !b.refused))
  {
    RunsSuit(events);
    RunsStayCoherent(events);
    var f := Run(events);
    assert f.orders[id] in f.orders && OrderOk(f.orders[id], f.batches, f.shifts);
    if f.orders[id].batch.Some? {
      assert f.batches[f.orders[id].batch.value] in f.batches;
    }
  }

  // ----- Deliveries -----

  ghost predicate ReportedAt(events: seq<Event>, j: nat, id: nat, driver: nat) {
    && j < |events| && events[j] == Completes(driver, id)
    && var f := Run(events[..j]);
       id < |f.orders| && f.orders[id].driver == Some(driver) && f.orders[id].status == OutForDelivery
  }

  lemma DeliveryIsReported(f: Fleet, e: Event, id: nat)
    requires id < |f.orders| && f.orders[id].delivery && f.orders[id].status != Delivered
    requires After(f, e, id).status == Delivered
    ensures e.Completes? && e.id == id && f.orders[id].driver == Some(e.driver) && f.orders[id].status == OutForDelivery
  {
    StatusChangesExactly(f, e, id, Delivered);
  }

  lemma KindStays(f: Fleet, e: Event, id: nat)
    requires id < |f.orders|
    ensures After(f, e, id).delivery == f.orders[id].delivery
  {
    MarksChangeExactly(f, e, id);
    assert MarksOf(After(f, e, id)).delivery == MarksOf(f.orders[id]).delivery;
  }

  /** Over every run: an order is delivered to the customer's door only by the report of the driver who had it. */
  lemma {:induction false} DeliveredByItsDriver(events: seq<Event>, id: nat)
    requires id < |Run(events).orders| && Run(events).orders[id].status == Delivered && Run(events).orders[id].delivery
    ensures exists j: nat, driver: nat :: ReportedAt(events, j, id, driver)
  {
    if |events| > 0 {
      var init, last := events[..|events| - 1], events[|events| - 1];
      var f := Run(init);
      if id >= |f.orders| {
        NewOrders(f, last, id);
      } else {
        KindStays(f, last, id);
        if f.orders[id].status == Delivered {
          DeliveredByItsDriver(init, id);
          var j: nat, driver: nat :| ReportedAt(init, j, id, driver);
          assert events[..j] == init[..j];
          assert ReportedAt(events, j, id, driver);
        } else {
          DeliveryIsReported(f, last, id);
          assert ReportedAt(events, |events| - 1, id, last.driver);
        }
      }
    }
  }
}

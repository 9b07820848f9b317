/** For each field of an order, the events that change it and when, written out; and what that means over a run. */
module DispatchLaws {
  import opened Dispatch
  import opened DispatchRuns
  import opened OrderStatuses
  import opened Wrappers

  // ----- Who works where -----

  predicate Working(f: Fleet, k: nat, driver: nat) {
    k < |f.shifts| && f.shifts[k].status == Active && f.shifts[k].driver == driver
  }

  ghost predicate OffShift(f: Fleet, driver: nat) {
    forall k: nat :: !Working(f, k, driver)
  }

  ghost predicate WorkingAt(f: Fleet, store: nat, driver: nat) {
    exists k: nat :: Working(f, k, driver) && f.shifts[k].store == store
  }

  lemma ActiveShiftWritten(f: Fleet, driver: nat)
    requires OneShiftEach(f.shifts)
    ensures ActiveShift(f.shifts, driver).None? <==> OffShift(f, driver)
    ensures forall k: nat :: Working(f, k, driver) <==> ActiveShift(f.shifts, driver) == Some(k)
  {
    var found := ActiveShift(f.shifts, driver);
    if found.Some? {
      assert Working(f, found.value, driver);
    }
  }

  // ----- Changing hands -----

  predicate Underway(s: OrderStatus) {
    s in {Accepted, Preparing, Ready, AwaitingDriver}
  }

  predicate Free(o: Order) {
    o.delivery && o.driver == None && o.batch == None && Underway(o.status)
  }

  /** At the store's own drivers, or at this one. */
  predicate DirectedAt(target: Target, wanted: Option<nat>, driver: nat) {
    target == Own || (target == Specific && wanted == Some(driver))
  }

  /** An order in the pool goes to a driver off shift, a directed one to a driver on shift at its store. */
  ghost predicate TakesOrder(f: Fleet, e: Event, id: nat, driver: nat)
    requires id < |f.orders|
  {
    var o := f.orders[id];
    && Free(o) && o.requested
    && (|| (e == Accepts(driver, id) && o.target == Some(General) && OffShift(f, driver))
        || (e == AcceptsOnShift(driver, id) && o.target.Some? && DirectedAt(o.target.value, o.requestedDriver, driver)
            && !o.refused && WorkingAt(f, o.store, driver)))
  }

  /** A batch, likewise. */
  ghost predicate TakesBatch(f: Fleet, e: Event, b: nat, driver: nat) {
    && b < |f.batches| && e.AcceptsBatch? && e.batch == b && e.driver == driver
    && (exists i | 0 <= i < |f.orders| :: f.orders[i].batch == Some(b))
    && var batch := f.batches[b];
       && batch.status == Broadcast && batch.driver == None
       && (|| (batch.target == General && OffShift(f, driver) && e.available)
           || (DirectedAt(batch.target, batch.requestedDriver, driver) && !batch.refused
               && WorkingAt(f, batch.store, driver)))
  }

  ghost predicate Gets(f: Fleet, e: Event, id: nat, driver: nat)
    requires id < |f.orders|
  {
    || TakesOrder(f, e, id, driver)
    || (f.orders[id].batch.Some? && TakesBatch(f, e, f.orders[id].batch.value, driver))
  }

  /** Given back by its driver, alone or with its batch, or taken back by its store. */
  predicate Loses(f: Fleet, e: Event, id: nat)
    requires id < |f.orders|
  {
    var o := f.orders[id];
    && o.driver.Some?
    && (|| (e == Releases(o.driver.value, id) && o.batch == None && Underway(o.status))
        || (e == ReleasesDriver(o.store, id) && o.batch == None && Underway(o.status))
        || (o.batch.Some? && e == ReleasesBatch(o.driver.value, o.batch.value)
            && o.batch.value < |f.batches| && f.batches[o.batch.value].status == Taken))
  }

  lemma OrdersAreKept(f: Fleet, e: Event)
    ensures |Next(f, e).orders| >= |f.orders|
  {
    if IsOrderEvent(e) && OrderStep(f, e).Ok? {
      OrderStepIsLocal(f, e);
    }
  }

  /** The order after the event. */
  function After(f: Fleet, e: Event, id: nat): Order
    requires id < |f.orders|
  {
    OrdersAreKept(f, e);
    Next(f, e).orders[id]
  }

  lemma OtherOrdersStay(f: Fleet, e: Event, id: nat)
    requires id < |f.orders|
    requires if IsOrderEvent(e) then e.id != id else !IsBatchEvent(e)
    ensures After(f, e, id) == f.orders[id]
  {
    if IsOrderEvent(e) && OrderStep(f, e).Ok? {
      OrderStepIsLocal(f, e);
    }
  }

  lemma AcceptanceChangesHands(f: Fleet, e: Event, id: nat, driver: nat)
    requires Coherent(f) && id < |f.orders| && (e.Accepts? || e.AcceptsOnShift?) && e.id == id
    ensures After(f, e, id).driver == Some(driver) <==>
            TakesOrder(f, e, id, driver) || f.orders[id].driver == Some(driver)
  {
    ActiveShiftWritten(f, e.driver);
  }

  predicate Hands(e: Event) {
    e.Accepts? || e.AcceptsOnShift? || e.Releases? || e.ReleasesDriver?
  }

  lemma ReleaseChangesHands(f: Fleet, e: Event, id: nat, driver: nat)
    requires id < |f.orders| && (e.Releases? || e.ReleasesDriver?) && e.id == id
    ensures After(f, e, id).driver == Some(driver) <==> f.orders[id].driver == Some(driver) && !Loses(f, e, id)
  {
  }

  /** The store's own events, and those of customers and the clock. */
  predicate ByTheStore(e: Event) {
    e.Requests? || e.WithdrawsRequest? || e.ReleasesDriver? || e.Cancels? || e.Updates?
  }

  /** The store's moves change status and batch alone. */
  lemma UpdateFrame(f: Fleet, store: nat, id: nat, to: OrderStatus, pending: bool)
    requires StoreUpdate(f, store, id, to, pending).Ok?
    ensures id < |f.orders|
    ensures var next := StoreUpdate(f, store, id, to, pending).value.orders;
            |next| == |f.orders| && next[id] == f.orders[id].(status := next[id].status, batch := next[id].batch)
  {
  }

  lemma UpdateKeepsRest(f: Fleet, e: Event, id: nat)
    requires id < |f.orders| && e.Updates? && e.id == id
    ensures After(f, e, id) == f.orders[id].(status := After(f, e, id).status, batch := After(f, e, id).batch)
  {
    if OrderStep(f, e).Ok? {
      UpdateFrame(f, e.store, id, e.to, e.amendmentPending);
    }
  }

  lemma StoreEventsKeepHands(f: Fleet, e: Event, id: nat)
    requires id < |f.orders| && ByTheStore(e) && e.id == id && !Hands(e) && !e.Updates?
    ensures After(f, e, id).driver == f.orders[id].driver && After(f, e, id).shift == f.orders[id].shift
  {
    match e
    case Requests(_, _, _, _, _) =>
    case WithdrawsRequest(_, _) =>
    case Cancels(_) =>
  }

  lemma DriverEventsKeepHands(f: Fleet, e: Event, id: nat)
    requires id < |f.orders| && IsOrderEvent(e) && e.id == id && !Hands(e) && !ByTheStore(e)
    ensures After(f, e, id).driver == f.orders[id].driver && After(f, e, id).shift == f.orders[id].shift
  {
    match e
    case Collects(_, _) =>
    case Fails(_, _) =>
    case _ =>
  }

  lemma OtherEventsKeepHands(f: Fleet, e: Event, id: nat)
    requires id < |f.orders| && IsOrderEvent(e) && e.id == id && !Hands(e)
    ensures After(f, e, id).driver == f.orders[id].driver && After(f, e, id).shift == f.orders[id].shift
  {
    if e.Updates? {
      UpdateKeepsRest(f, e, id);
    } else if ByTheStore(e) {
      StoreEventsKeepHands(f, e, id);
    } else {
      DriverEventsKeepHands(f, e, id);
    }
  }

  lemma BatchAcceptanceChangesHands(f: Fleet, e: Event, id: nat, driver: nat)
    requires Coherent(f) && id < |f.orders| && e.AcceptsBatch?
    ensures After(f, e, id).driver == Some(driver) <==>
            (f.orders[id].batch.Some? && TakesBatch(f, e, f.orders[id].batch.value, driver))
            || f.orders[id].driver == Some(driver)
  {
    assert OrderOk(f.orders[id], f.batches, f.shifts);
    ActiveShiftWritten(f, e.driver);
  }

  lemma BatchChangeChangesHands(f: Fleet, e: Event, id: nat, driver: nat)
    requires Coherent(f) && id < |f.orders| && IsBatchEvent(e) && !e.AcceptsBatch?
    ensures After(f, e, id).driver == Some(driver) <==> f.orders[id].driver == Some(driver) && !Loses(f, e, id)
  {
    assert OrderOk(f.orders[id], f.batches, f.shifts);
  }

  /** What an event does to the question whether an order is with a driver. */
  ghost predicate HandsChange(f: Fleet, e: Event, id: nat, driver: nat)
    requires id < |f.orders|
  {
    After(f, e, id).driver == Some(driver) <==>
    Gets(f, e, id, driver) || (f.orders[id].driver == Some(driver) && !Loses(f, e, id))
  }

  lemma OrderEventChangesHands(f: Fleet, e: Event, id: nat, driver: nat)
    requires Coherent(f) && id < |f.orders| && IsOrderEvent(e) && e.id == id
    ensures HandsChange(f, e, id, driver)
  {
    if e.Accepts? || e.AcceptsOnShift? {
      AcceptanceChangesHands(f, e, id, driver);
    } else if Hands(e) {
      ReleaseChangesHands(f, e, id, driver);
    } else {
      OtherEventsKeepHands(f, e, id);
    }
  }

  lemma BatchEventChangesHands(f: Fleet, e: Event, id: nat, driver: nat)
    requires Coherent(f) && id < |f.orders| && IsBatchEvent(e)
    ensures HandsChange(f, e, id, driver)
  {
    if e.AcceptsBatch? {
      BatchAcceptanceChangesHands(f, e, id, driver);
    } else {
      BatchChangeChangesHands(f, e, id, driver);
    }
  }

  /** An order is with a driver after an event if and only if the event gives it to the driver, or leaves it there. */
  lemma DriverChangesExactly(f: Fleet, e: Event, id: nat, driver: nat)
    requires Coherent(f) && id < |f.orders|
    ensures HandsChange(f, e, id, driver)
  {
    if IsOrderEvent(e) && e.id == id {
      OrderEventChangesHands(f, e, id, driver);
    } else if IsBatchEvent(e) {
      BatchEventChangesHands(f, e, id, driver);
    } else {
      OtherOrdersStay(f, e, id);
    }
  }

  /** Its shift is the one on which its driver took it; from the pool, none. */
  lemma ShiftChangesExactly(f: Fleet, e: Event, id: nat, k: nat)
    requires Coherent(f) && id < |f.orders|
    ensures After(f, e, id).shift == Some(k) <==>
            GetsOnShift(f, e, id, k) || (f.orders[id].shift == Some(k) && !Loses(f, e, id))
  {
    if IsOrderEvent(e) && e.id == id {
      OrderEventSetsShift(f, e, id, k);
    } else if IsBatchEvent(e) {
      BatchEventSetsShift(f, e, id, k);
    } else {
      OtherOrdersStay(f, e, id);
    }
  }

  ghost predicate GetsOnShift(f: Fleet, e: Event, id: nat, k: nat)
    requires id < |f.orders|
  {
    k < |f.shifts| && f.shifts[k].status == Active && Gets(f, e, id, f.shifts[k].driver)
  }

  lemma OrderEventSetsShift(f: Fleet, e: Event, id: nat, k: nat)
    requires Coherent(f) && id < |f.orders| && IsOrderEvent(e) && e.id == id
    ensures After(f, e, id).shift == Some(k) <==>
            GetsOnShift(f, e, id, k) || (f.orders[id].shift == Some(k) && !Loses(f, e, id))
  {
    if e.Accepts? || e.AcceptsOnShift? {
      AcceptanceSetsShift(f, e, id, k);
    } else if Hands(e) {
      ReleaseSetsShift(f, e, id, k);
    } else {
      OtherEventsKeepHands(f, e, id);
    }
  }

  lemma BatchEventSetsShift(f: Fleet, e: Event, id: nat, k: nat)
    requires Coherent(f) && id < |f.orders| && IsBatchEvent(e)
    ensures After(f, e, id).shift == Some(k) <==>
            GetsOnShift(f, e, id, k) || (f.orders[id].shift == Some(k) && !Loses(f, e, id))
  {
    if e.AcceptsBatch? {
      BatchAcceptanceSetsShift(f, e, id, k);
    } else {
      BatchChangeSetsShift(f, e, id, k);
    }
  }

  lemma AcceptanceSetsShift(f: Fleet, e: Event, id: nat, k: nat)
    requires Coherent(f) && id < |f.orders| && (e.Accepts? || e.AcceptsOnShift?) && e.id == id
    ensures After(f, e, id).shift == Some(k) <==>
            (TakesOrder(f, e, id, e.driver) && Working(f, k, e.driver)) || f.orders[id].shift == Some(k)
  {
    assert OrderOk(f.orders[id], f.batches, f.shifts);
    ActiveShiftWritten(f, e.driver);
  }

  lemma ReleaseSetsShift(f: Fleet, e: Event, id: nat, k: nat)
    requires Coherent(f) && id < |f.orders| && (e.Releases? || e.ReleasesDriver?) && e.id == id
    ensures After(f, e, id).shift == Some(k) <==> f.orders[id].shift == Some(k) && !Loses(f, e, id)
  {
    assert OrderOk(f.orders[id], f.batches, f.shifts);
  }

  lemma BatchAcceptanceSetsShift(f: Fleet, e: Event, id: nat, k: nat)
    requires Coherent(f) && id < |f.orders| && e.AcceptsBatch?
    ensures After(f, e, id).shift == Some(k) <==>
            || (f.orders[id].batch.Some? && TakesBatch(f, e, f.orders[id].batch.value, e.driver)
                && Working(f, k, e.driver))
            || f.orders[id].shift == Some(k)
  {
    assert OrderOk(f.orders[id], f.batches, f.shifts);
    ActiveShiftWritten(f, e.driver);
  }

  lemma BatchChangeSetsShift(f: Fleet, e: Event, id: nat, k: nat)
    requires Coherent(f) && id < |f.orders| && IsBatchEvent(e) && !e.AcceptsBatch?
    ensures After(f, e, id).shift == Some(k) <==> f.orders[id].shift == Some(k) && !Loses(f, e, id)
  {
    assert OrderOk(f.orders[id], f.batches, f.shifts);
  }

  // ----- Moving on -----

  /** A store moves its own orders, except while a proposed change awaits an answer; it may cancel all the same. */
  predicate StoreMoves(e: Event, o: Order, id: nat, to: OrderStatus) {
    && e.Updates? && e.id == id && e.store == o.store && e.to == to
    && (!e.amendmentPending || to == Cancelled)
  }

  /** A driver was asked for and has not come. */
  predicate StillWanted(o: Order) {
    o.requested && o.driver == None && o.batch == None
  }

  predicate RequestGoes(f: Fleet, e: Event, id: nat)
    requires id < |f.orders|
  {
    var o := f.orders[id];
    && e.Requests? && e.id == id && e.store == o.store && Free(o) && o.target != Some(General)
    && (e.target == Specific ==>
          && e.wanted.Some? && e.linkConfirmed
          && exists k | 0 <= k < |f.shifts| :: Working(f, k, e.wanted.value) && f.shifts[k].store == e.store)
  }

  predicate RequestEnds(o: Order, e: Event, id: nat) {
    || (e == WithdrawsRequest(o.store, id) && o.driver == None && o.requested)
    || (e == ReleasesDriver(o.store, id) && o.driver != None && o.batch == None && Underway(o.status))
  }

  predicate GoesWithBatch(f: Fleet, e: Event, o: Order) {
    && o.batch.Some? && e.CollectsBatch? && e.batch == o.batch.value && e.batch < |f.batches|
    && f.batches[e.batch].driver == Some(e.driver) && f.batches[e.batch].status == Taken
    && forall i | 0 <= i < |f.orders| && f.orders[i].batch == o.batch :: f.orders[i].status == Ready
  }

  predicate Cancellable(s: OrderStatus) {
    s == AwaitingPayment || s == Pending || Underway(s)
  }

  /** Every way into each status. */
  predicate MovesTo(f: Fleet, e: Event, id: nat, to: OrderStatus)
    requires id < |f.orders|
  {
    var o := f.orders[id];
    match to
    case AwaitingPayment => false
    case Pending => e == Pays(id) && o.status == AwaitingPayment
    case Accepted => StoreMoves(e, o, id, Accepted) && o.status == Pending
    case Preparing => StoreMoves(e, o, id, Preparing) && o.status == Accepted
    case Ready =>
      || (StoreMoves(e, o, id, Ready) && o.status == Preparing && !StillWanted(o))
      || (RequestEnds(o, e, id) && o.status == AwaitingDriver)
    case AwaitingDriver =>
      || (StoreMoves(e, o, id, Ready) && o.status == Preparing && StillWanted(o))
      || (RequestGoes(f, e, id) && o.status == Ready)
    case OutForDelivery =>
      || (e.Collects? && e.id == id && o.driver == Some(e.driver) && o.batch == None
          && o.status in {Ready, AwaitingDriver})
      || GoesWithBatch(f, e, o)
      || (StoreMoves(e, o, id, OutForDelivery) && o.status in {Ready, AwaitingDriver}
          && (o.delivery ==> o.driver == None))
    case Delivered =>
      || (e.Completes? && e.id == id && o.driver == Some(e.driver) && o.status == OutForDelivery)
      || (StoreMoves(e, o, id, Delivered) && !o.delivery && o.status in {Ready, OutForDelivery})
    case DeliveryFailed => e.Fails? && e.id == id && o.driver == Some(e.driver) && o.status == OutForDelivery
    case Cancelled => (e == Cancels(id) || StoreMoves(e, o, id, Cancelled)) && Cancellable(o.status)
  }

  /** A payment or a driver moves the order. */
  predicate IsMove(e: Event) {
    e.Pays? || e.Collects? || e.Completes? || e.Fails?
  }

  lemma CancellationWritten(s: OrderStatus)
    ensures CanTransition(s, Cancelled) <==> Cancellable(s)
  {
  }

  lemma CancelMoves(f: Fleet, e: Event, id: nat, to: OrderStatus)
    requires id < |f.orders| && e == Cancels(id) && f.orders[id].status != to
    ensures After(f, e, id).status == to <==> MovesTo(f, e, id, to)
  {
    CancellationWritten(f.orders[id].status);
  }

  lemma PaymentMoves(f: Fleet, e: Event, id: nat)
    requires id < |f.orders| && e == Pays(id)
    ensures var o := f.orders[id];
            After(f, e, id).status == if o.status == AwaitingPayment then Pending else o.status
  {
  }

  lemma DriverMoves(f: Fleet, e: Event, id: nat)
    requires id < |f.orders| && (e.Collects? || e.Completes? || e.Fails?) && e.id == id
    ensures var o := f.orders[id];
            After(f, e, id).status ==
              if o.driver != Some(e.driver) then o.status
              else if e.Collects? && o.batch == None && o.status in {Ready, AwaitingDriver} then OutForDelivery
              else if e.Completes? && o.status == OutForDelivery then Delivered
              else if e.Fails? && o.status == OutForDelivery then DeliveryFailed
              else o.status
  {
  }

  lemma MoveMoves(f: Fleet, e: Event, id: nat, to: OrderStatus)
    requires id < |f.orders| && IsMove(e) && e.id == id && f.orders[id].status != to
    ensures After(f, e, id).status == to <==> MovesTo(f, e, id, to)
  {
    if e.Pays? {
      PaymentMoves(f, e, id);
    } else {
      DriverMoves(f, e, id);
    }
  }

  predicate IsRequest(e: Event) {
    e.Requests? || e.WithdrawsRequest? || e.ReleasesDriver?
  }

  lemma RequestMoves(f: Fleet, e: Event, id: nat, to: OrderStatus)
    requires id < |f.orders| && IsRequest(e) && e.id == id && f.orders[id].status != to
    ensures After(f, e, id).status == to <==> MovesTo(f, e, id, to)
  {
    match e
    case Requests(_, _, _, _, _) =>
    case WithdrawsRequest(_, _) =>
    case ReleasesDriver(_, _) =>
  }

  lemma OtherOrderEventsKeepStatus(f: Fleet, e: Event, id: nat)
    requires id < |f.orders| && IsOrderEvent(e) && e.id == id && !IsMove(e) && !IsRequest(e) && !e.Updates?
    requires !e.Cancels?
    ensures After(f, e, id).status == f.orders[id].status
  {
    match e
    case Accepts(_, _) =>
    case AcceptsOnShift(_, _) =>
    case Releases(_, _) =>
    case Refuses(_, _) =>
    case _ =>
  }

  /** What the table lets a store do, with deliveries on the road left to their drivers. */
  predicate StoreMay(o: Order, to: OrderStatus) {
    match to
    case Accepted => o.status == Pending
    case Preparing => o.status == Accepted
    case Ready => o.status == Preparing
    case OutForDelivery => o.status in {Ready, AwaitingDriver} && (o.delivery ==> o.driver == None)
    case Delivered => o.status in {Ready, OutForDelivery} && !o.delivery
    case Cancelled => Cancellable(o.status)
    case _ => false
  }

  lemma StoreUpdateWritten(f: Fleet, store: nat, id: nat, to: OrderStatus, pending: bool)
    ensures var r := StoreUpdate(f, store, id, to, pending);
            && (r.Ok? <==>
                  && id < |f.orders| && f.orders[id].store == store && StoreMay(f.orders[id], to)
                  && (pending ==> to == Cancelled))
            && (r.Ok? ==>
                  && |r.value.orders| == |f.orders|
                  && r.value.orders[id].status ==
                       if to == Ready && StillWanted(f.orders[id]) then AwaitingDriver else to)
  {
  }

  lemma StoreUpdateLeaves(f: Fleet, store: nat, id: nat, to: OrderStatus, pending: bool)
    requires StoreUpdate(f, store, id, to, pending).Ok?
    ensures var orders := StoreUpdate(f, store, id, to, pending).value.orders;
            && id < |orders| == |f.orders|
            && orders[id].batch == if to == Cancelled then None else f.orders[id].batch
  {
  }

  lemma StoreEventMoves(f: Fleet, e: Event, id: nat, to: OrderStatus)
    requires id < |f.orders| && e.Updates? && e.id == id && f.orders[id].status != to
    ensures After(f, e, id).status == to <==> MovesTo(f, e, id, to)
  {
    StoreUpdateWritten(f, e.store, id, e.to, e.amendmentPending);
  }

  lemma CollectionMoves(f: Fleet, e: Event, id: nat, to: OrderStatus)
    requires id < |f.orders| && e.CollectsBatch? && f.orders[id].status != to
    ensures After(f, e, id).status == to <==> MovesTo(f, e, id, to)
  {
  }

  lemma OtherBatchEventsKeepStatus(f: Fleet, e: Event, id: nat)
    requires id < |f.orders| && IsBatchEvent(e) && !e.CollectsBatch?
    ensures After(f, e, id).status == f.orders[id].status
  {
    match e
    case AcceptsBatch(_, _, _) =>
    case ReleasesBatch(_, _) =>
    case RefusesBatch(_, _) =>
    case _ =>
  }

  lemma OrderEventMoves(f: Fleet, e: Event, id: nat, to: OrderStatus)
    requires id < |f.orders| && IsOrderEvent(e) && e.id == id && f.orders[id].status != to
    ensures After(f, e, id).status == to <==> MovesTo(f, e, id, to)
  {
    if e.Updates? {
      StoreEventMoves(f, e, id, to);
    } else if e.Cancels? {
      CancelMoves(f, e, id, to);
    } else if IsMove(e) {
      MoveMoves(f, e, id, to);
    } else if IsRequest(e) {
      RequestMoves(f, e, id, to);
    } else {
      OtherOrderEventsKeepStatus(f, e, id);
    }
  }

  lemma BatchEventMoves(f: Fleet, e: Event, id: nat, to: OrderStatus)
    requires id < |f.orders| && IsBatchEvent(e) && f.orders[id].status != to
    ensures After(f, e, id).status == to <==> MovesTo(f, e, id, to)
  {
    if e.CollectsBatch? {
      CollectionMoves(f, e, id, to);
    } else {
      OtherBatchEventsKeepStatus(f, e, id);
    }
  }

  /** An order reaches a status by these ways and no others. */
  lemma StatusChangesExactly(f: Fleet, e: Event, id: nat, to: OrderStatus)
    requires id < |f.orders| && f.orders[id].status != to
    ensures After(f, e, id).status == to <==> MovesTo(f, e, id, to)
  {
    if IsOrderEvent(e) && e.id == id {
      OrderEventMoves(f, e, id, to);
    } else if IsBatchEvent(e) {
      BatchEventMoves(f, e, id, to);
    } else {
      OtherOrdersStay(f, e, id);
    }
  }

  // ----- Batches and offers -----

  /** A batch is made of at least two orders of the store that nobody has yet. */
  predicate Joins(f: Fleet, e: Event, id: nat) {
    && e.CreatesBatch? && id in e.ids && |e.ids| >= 2
    && forall i | i in e.ids ::
         && i < |f.orders| && f.orders[i].store == e.store && f.orders[i].delivery
         && f.orders[i].driver == None && f.orders[i].batch == None
         && f.orders[i].status in {Accepted, Preparing, Ready}
  }

  predicate Dissolves(f: Fleet, e: Event, b: nat) {
    && e.CancelsBatch? && e.batch == b && b < |f.batches|
    && f.batches[b].store == e.store && f.batches[b].status in {BatchStatus.Open, Broadcast}
  }

  /** A cancelled order leaves its batch, which goes on without it. */
  predicate Leaves(f: Fleet, e: Event, id: nat)
    requires id < |f.orders|
  {
    || MovesTo(f, e, id, Cancelled)
    || (f.orders[id].batch.Some? && Dissolves(f, e, f.orders[id].batch.value))
  }

  lemma BatchChangesExactly(f: Fleet, e: Event, id: nat, b: nat)
    requires id < |f.orders|
    ensures After(f, e, id).batch == Some(b) <==>
            (Joins(f, e, id) && b == |f.batches|) || (f.orders[id].batch == Some(b) && !Leaves(f, e, id))
  {
    if IsOrderEvent(e) && e.id == id {
      OrderEventLeaves(f, e, id);
    } else if IsBatchEvent(e) {
      BatchEventJoins(f, e, id, b);
    } else {
      OtherOrdersStay(f, e, id);
    }
  }

  lemma UpdateLeaves(f: Fleet, e: Event, id: nat)
    requires id < |f.orders| && e.Updates? && e.id == id
    ensures After(f, e, id).batch == if MovesTo(f, e, id, Cancelled) then None else f.orders[id].batch
  {
    StoreUpdateWritten(f, e.store, id, e.to, e.amendmentPending);
    if OrderStep(f, e).Ok? {
      StoreUpdateLeaves(f, e.store, id, e.to, e.amendmentPending);
    } else {
      assert After(f, e, id) == f.orders[id];
    }
  }

  lemma OthersKeepBatch(f: Fleet, e: Event, id: nat)
    requires id < |f.orders| && IsOrderEvent(e) && e.id == id && !e.Updates? && !e.Cancels?
    ensures After(f, e, id).batch == f.orders[id].batch
  {
    match e
    case Requests(_, _, _, _, _) =>
    case WithdrawsRequest(_, _) =>
    case ReleasesDriver(_, _) =>
    case _ =>
  }

  lemma OrderEventLeaves(f: Fleet, e: Event, id: nat)
    requires id < |f.orders| && IsOrderEvent(e) && e.id == id
    ensures After(f, e, id).batch == if MovesTo(f, e, id, Cancelled) then None else f.orders[id].batch
  {
    if e.Updates? {
      UpdateLeaves(f, e, id);
    } else if e.Cancels? {
      CancellationWritten(f.orders[id].status);
    } else {
      OthersKeepBatch(f, e, id);
    }
  }

  lemma BatchEventJoins(f: Fleet, e: Event, id: nat, b: nat)
    requires id < |f.orders| && IsBatchEvent(e)
    ensures After(f, e, id).batch == Some(b) <==>
            (Joins(f, e, id) && b == |f.batches|) || (f.orders[id].batch == Some(b) && !Leaves(f, e, id))
  {
    if e.CreatesBatch? {
      CreationJoins(f, e, id);
    }
  }

  lemma CreationJoins(f: Fleet, e: Event, id: nat)
    requires id < |f.orders| && e.CreatesBatch?
    ensures After(f, e, id).batch == if Joins(f, e, id) then Some(|f.batches|) else f.orders[id].batch
    ensures Joins(f, e, id) ==> f.orders[id].batch == None
  {
  }

  predicate BroadcastGoes(f: Fleet, e: Event, b: nat) {
    && e.Broadcasts? && e.batch == b && b < |f.batches| && f.batches[b].store == e.store && f.batches[b].driver == None
    && (f.batches[b].status == BatchStatus.Open
        || (f.batches[b].status == Broadcast && (f.batches[b].target == General ==> e.target == General)))
    && (e.target == Specific ==>
          && e.wanted.Some? && e.linkConfirmed
          && exists k | 0 <= k < |f.shifts| :: Working(f, k, e.wanted.value) && f.shifts[k].store == e.store)
    && exists i, j | 0 <= i < j < |f.orders| :: f.orders[i].batch == Some(b) && f.orders[j].batch == Some(b)
  }

  /** The driver at whom alone the order is directed declines. */
  predicate Declines(e: Event, o: Order, id: nat) {
    && e.Refuses? && e.id == id && o.target == Some(Specific) && o.requestedDriver == Some(e.driver)
    && o.driver == None && o.batch == None
  }

  datatype Offer = Offer(requested: bool, target: Option<Target>, wanted: Option<nat>, refused: bool)

  function OfferOf(o: Order): Offer {
    Offer(o.requested, o.target, o.requestedDriver, o.refused)
  }

  /** Only its store puts an order on offer and takes the offer back, and only the driver asked for declines it. */
  ghost predicate OfferChanges(f: Fleet, e: Event, id: nat)
    requires id < |f.orders|
  {
    var o := f.orders[id];
    OfferOf(After(f, e, id)) ==
    if RequestGoes(f, e, id) then Offer(true, Some(e.target), if e.target == Specific then e.wanted else None, false)
    else if o.batch.Some? && BroadcastGoes(f, e, o.batch.value) then Offer(true, Some(e.target), None, false)
    else if RequestEnds(o, e, id) || (o.batch.Some? && Dissolves(f, e, o.batch.value)) then
      Offer(false, None, None, false)
    else OfferOf(o).(refused := o.refused || Declines(e, o, id))
  }

  lemma RequestChangesOffer(f: Fleet, e: Event, id: nat)
    requires id < |f.orders| && IsRequest(e) && e.id == id
    ensures OfferChanges(f, e, id)
  {
    match e
    case Requests(_, _, _, _, _) =>
    case WithdrawsRequest(_, _) =>
    case ReleasesDriver(_, _) =>
  }

  lemma RefusalChangesOffer(f: Fleet, e: Event, id: nat)
    requires id < |f.orders| && e.Refuses? && e.id == id
    ensures var o := f.orders[id]; OfferOf(After(f, e, id)) == OfferOf(o).(refused := o.refused || Declines(e, o, id))
  {
  }

  lemma CancellationKeepsOffer(f: Fleet, e: Event, id: nat)
    requires id < |f.orders| && e == Cancels(id)
    ensures OfferOf(After(f, e, id)) == OfferOf(f.orders[id])
  {
  }

  lemma DriverEventsKeepOffer(f: Fleet, e: Event, id: nat)
    requires id < |f.orders| && IsOrderEvent(e) && e.id == id && !ByTheStore(e) && !e.Refuses?
    ensures OfferOf(After(f, e, id)) == OfferOf(f.orders[id])
  {
    match e
    case Accepts(_, _) =>
    case AcceptsOnShift(_, _) =>
    case Releases(_, _) =>
    case _ =>
  }

  lemma OtherEventsKeepOffer(f: Fleet, e: Event, id: nat)
    requires id < |f.orders| && IsOrderEvent(e) && e.id == id && !IsRequest(e)
    ensures var o := f.orders[id]; OfferOf(After(f, e, id)) == OfferOf(o).(refused := o.refused || Declines(e, o, id))
  {
    if e.Refuses? {
      RefusalChangesOffer(f, e, id);
    } else if e.Updates? {
      UpdateKeepsRest(f, e, id);
    } else if e.Cancels? {
      CancellationKeepsOffer(f, e, id);
    } else {
      DriverEventsKeepOffer(f, e, id);
    }
  }

  lemma BroadcastChangesOffer(f: Fleet, e: Event, id: nat)
    requires id < |f.orders| && e.Broadcasts?
    ensures var o := f.orders[id];
            OfferOf(After(f, e, id)) ==
              if BroadcastGoes(f, e, e.batch) && o.batch == Some(e.batch) then Offer(true, Some(e.target), None, false)
              else OfferOf(o)
  {
    BroadcastWritten(f, e);
  }

  lemma BatchEventChangesOffer(f: Fleet, e: Event, id: nat)
    requires id < |f.orders| && IsBatchEvent(e)
    ensures OfferChanges(f, e, id)
  {
    if e.Broadcasts? {
      BroadcastChangesOffer(f, e, id);
    } else {
      OtherBatchEventsKeepOffer(f, e, id);
    }
  }

  lemma BroadcastWritten(f: Fleet, e: Event)
    requires e.Broadcasts?
    ensures BatchStep(f, e).Ok? <==> BroadcastGoes(f, e, e.batch)
  {
  }

  lemma OtherBatchEventsKeepOffer(f: Fleet, e: Event, id: nat)
    requires id < |f.orders| && IsBatchEvent(e) && !e.Broadcasts?
    ensures var o := f.orders[id];
            OfferOf(After(f, e, id)) ==
              if o.batch.Some? && Dissolves(f, e, o.batch.value) then Offer(false, None, None, false) else OfferOf(o)
  {
    match e
    case AcceptsBatch(_, _, _) =>
    case ReleasesBatch(_, _) =>
    case RefusesBatch(_, _) =>
    case CancelsBatch(_, _) =>
    case _ =>
  }

  lemma OffersChangeExactly(f: Fleet, e: Event, id: nat)
    requires id < |f.orders|
    ensures OfferChanges(f, e, id)
  {
    if IsOrderEvent(e) && e.id == id {
      if IsRequest(e) {
        RequestChangesOffer(f, e, id);
      } else {
        OtherEventsKeepOffer(f, e, id);
      }
    } else if IsBatchEvent(e) {
      BatchEventChangesOffer(f, e, id);
    } else {
      OtherOrdersStay(f, e, id);
    }
  }

  datatype Marks = Marks(store: nat, delivery: bool, arrived: bool, returnPending: bool, returned: bool)

  function MarksOf(o: Order): Marks {
    Marks(o.store, o.delivery, o.arrived, o.returnPending, o.returned)
  }

  predicate IsMark(e: Event) {
    e.Arrives? || e.Releases? || e.ReleasesDriver? || e.Fails? || e.Returns?
  }

  /** A driver who came is forgotten when the order is given back, a failed delivery is to be returned, once. */
  function MarksAfter(e: Event, o: Order): Marks
    requires IsMark(e)
  {
    var ours := o.batch == None && Underway(o.status);
    match e
    case Arrives(driver, _) => MarksOf(o).(arrived := o.arrived || (ours && o.driver == Some(driver)))
    case Releases(driver, _) => MarksOf(o).(arrived := o.arrived && !(ours && o.driver == Some(driver)))
    case ReleasesDriver(store, _) =>
      MarksOf(o).(arrived := o.arrived && !(ours && o.driver.Some? && o.store == store))
    case Fails(driver, _) =>
      MarksOf(o).(returnPending := o.returnPending || (o.status == OutForDelivery && o.driver == Some(driver)))
    case Returns(confirmer, _) =>
      var theirs := confirmer == None || confirmer == Some(o.store);
      MarksOf(o).(returned := o.returned || (theirs && o.status == DeliveryFailed && o.returnPending))
  }

  lemma MarksChangeExactly(f: Fleet, e: Event, id: nat)
    requires id < |f.orders|
    ensures MarksOf(After(f, e, id)) ==
            if IsMark(e) && e.id == id then MarksAfter(e, f.orders[id]) else MarksOf(f.orders[id])
  {
    if IsMark(e) && e.id == id {
      match e
      case Arrives(_, _) =>
      case Releases(_, _) =>
      case ReleasesDriver(_, _) =>
      case Fails(_, _) =>
      case Returns(_, _) =>
    } else if IsOrderEvent(e) && e.id == id && ByTheStore(e) {
      StoreEventsKeepMarks(f, e, id);
    } else if IsOrderEvent(e) && e.id == id {
      DriverEventsKeepMarks(f, e, id);
    } else if IsBatchEvent(e) {
      BatchEventsKeepMarks(f, e, id);
    } else {
      OtherOrdersStay(f, e, id);
    }
  }

  lemma StoreEventsKeepMarks(f: Fleet, e: Event, id: nat)
    requires id < |f.orders| && ByTheStore(e) && e.id == id && !IsMark(e)
    ensures MarksOf(After(f, e, id)) == MarksOf(f.orders[id])
  {
    match e
    case Requests(_, _, _, _, _) =>
    case WithdrawsRequest(_, _) =>
    case Cancels(_) =>
    case Updates(_, _, _, _) => UpdateKeepsRest(f, e, id);
  }

  lemma DriverEventsKeepMarks(f: Fleet, e: Event, id: nat)
    requires id < |f.orders| && IsOrderEvent(e) && e.id == id && !ByTheStore(e) && !IsMark(e)
    ensures MarksOf(After(f, e, id)) == MarksOf(f.orders[id])
  {
    match e
    case Accepts(_, _) =>
    case AcceptsOnShift(_, _) =>
    case Refuses(_, _) =>
    case _ =>
  }

  lemma BatchEventsKeepMarks(f: Fleet, e: Event, id: nat)
    requires id < |f.orders| && IsBatchEvent(e)
    ensures MarksOf(After(f, e, id)) == MarksOf(f.orders[id])
  {
    match e
    case Broadcasts(_, _, _, _, _) =>
    case CancelsBatch(_, _) =>
    case AcceptsBatch(_, _, _) =>
    case ReleasesBatch(_, _) =>
    case _ =>
  }
}

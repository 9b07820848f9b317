/** What orders, batches and shifts keep to over every run of the dispatch services. */
module DispatchRuns {
  import opened Dispatch
  import opened OrderStatuses
  import opened Wrappers

  // ----- Couplings -----

  /** The store has taken the order on. */
  predicate Begun(s: OrderStatus) {
    !s.AwaitingPayment? && !s.Pending?
  }

  /** A batched order belongs to the batch's store and is with the batch's driver, or with nobody if the batch is. */
  predicate FitsBatch(o: Order, batches: seq<Batch>) {
    o.batch.Some? ==>
      && o.batch.value < |batches|
      && var b := batches[o.batch.value];
         && b.store == o.store && o.driver == b.driver
         && o.delivery && Begun(o.status) && !o.status.AwaitingDriver? && !b.status.Withdrawn?
         && (b.status.Collected? ==> o.status.OutForDelivery? || o.status.Delivered? || o.status.DeliveryFailed?)
  }

  /** An order's shift is one of its store and its driver, and has ended only if the order is finished. */
  predicate FitsShift(o: Order, shifts: seq<Shift>) {
    o.shift.Some? ==>
      && o.shift.value < |shifts|
      && var s := shifts[o.shift.value];
         s.store == o.store && o.driver == Some(s.driver) && (s.status.Active? || Finished(o))
  }

  predicate WaitsProperly(o: Order) {
    && (o.status.AwaitingDriver? ==> o.delivery && o.requested && o.batch.None?)
    && (o.driver.Some? ==> o.delivery && Begun(o.status))
    && (o.requested ==> o.delivery)
    && (o.status.DeliveryFailed? <==> o.returnPending) && (o.returned ==> o.returnPending)
  }

  predicate OrderOk(o: Order, batches: seq<Batch>, shifts: seq<Shift>) {
    FitsBatch(o, batches) && FitsShift(o, shifts) && WaitsProperly(o)
  }

  predicate BatchOk(b: Batch) {
    b.driver.Some? <==> b.status.Taken? || b.status.Collected?
  }

  ghost predicate OrdersOk(orders: seq<Order>, batches: seq<Batch>, shifts: seq<Shift>) {
    forall i | 0 <= i < |orders| :: OrderOk(orders[i], batches, shifts)
  }

  ghost predicate BatchesOk(batches: seq<Batch>) {
    forall b | 0 <= b < |batches| :: BatchOk(batches[b])
  }

  ghost predicate OneShiftEach(shifts: seq<Shift>) {
    forall j, k | 0 <= j < k < |shifts| && shifts[j].status.Active? && shifts[k].status.Active? ::
        shifts[j].driver != shifts[k].driver
  }

  ghost predicate Coherent(f: Fleet) {
    && OrdersOk(f.orders, f.batches, f.shifts) && BatchesOk(f.batches)
    && OneShiftEach(f.shifts)
  }

  // ----- Steps on one order -----

  /** An order may change if it fits again. */
  lemma OrderUpdate(f: Fleet, id: nat, o: Order)
    requires Coherent(f) && id < |f.orders| && OrderOk(o, f.batches, f.shifts)
    ensures Coherent(WithOrder(f, id, o))
  {
  }

  datatype Event =
    | Places(order: Order)
    | Pays(id: nat)
    | Accepts(driver: nat, id: nat)
    | AcceptsOnShift(driver: nat, id: nat)
    | Releases(driver: nat, id: nat)
    | Refuses(driver: nat, id: nat)
    | Arrives(driver: nat, id: nat)
    | Collects(driver: nat, id: nat)
    | Completes(driver: nat, id: nat)
    | Fails(driver: nat, id: nat)
    | Returns(confirmer: Option<nat>, id: nat)
    | Requests(store: nat, id: nat, target: Target, wanted: Option<nat>, linkConfirmed: bool)
    | WithdrawsRequest(store: nat, id: nat)
    | ReleasesDriver(store: nat, id: nat)
    | Cancels(id: nat)
    | Updates(store: nat, id: nat, to: OrderStatus, amendmentPending: bool)
    | CreatesBatch(store: nat, ids: set<nat>)
    | Broadcasts(store: nat, batch: nat, target: Target, wanted: Option<nat>, linkConfirmed: bool)
    | CancelsBatch(store: nat, batch: nat)
    | AcceptsBatch(driver: nat, batch: nat, available: bool)
    | ReleasesBatch(driver: nat, batch: nat)
    | RefusesBatch(driver: nat, batch: nat)
    | CollectsBatch(driver: nat, batch: nat)
    | StartsShift(store: nat, driver: nat)
    | EndsShift(shift: nat, close: bool)
    | DecidesShift(shift: nat)
    | ReopensShift(shift: nat)

  /** A new order has no driver, shift, batch or request yet. */
  predicate Fresh(o: Order) {
    && (o.status.AwaitingPayment? || o.status.Pending?)
    && o.driver.None? && o.shift.None? && o.batch.None? && !o.requested && o.target.None?
    && !o.returnPending && !o.returned
  }

  predicate IsOrderEvent(e: Event) {
    || e.Pays? || e.Accepts? || e.AcceptsOnShift? || e.Releases? || e.Refuses? || e.Arrives? || e.Collects?
        || e.Completes?
    || e.Fails? || e.Returns? || e.Requests? || e.WithdrawsRequest? || e.ReleasesDriver? || e.Cancels? || e.Updates?
  }

  function OrSame(r: Result<Fleet, DispatchError>, f: Fleet): Fleet {
    if r.Ok? then r.value else f
  }

  function OrderStep(f: Fleet, e: Event): Result<Fleet, DispatchError>
    requires IsOrderEvent(e)
  {
    match e
    case Pays(id) =>
      if id < |f.orders| && f.orders[id].status.AwaitingPayment? then
        Ok(WithOrder(f, id, f.orders[id].(status := Pending)))
      else Err(WrongStatus)
    case Accepts(driver, id) => Accept(f, driver, id)
    case AcceptsOnShift(driver, id) => AcceptOnShift(f, driver, id)
    case Releases(driver, id) => Release(f, driver, id)
    case Refuses(driver, id) => RefuseDirect(f, driver, id)
    case Arrives(driver, id) => Arrive(f, driver, id)
    case Collects(driver, id) => Collect(f, driver, id)
    case Completes(driver, id) => Complete(f, driver, id)
    case Fails(driver, id) => Fail(f, driver, id)
    case Returns(confirmer, id) => ConfirmReturn(f, confirmer, id)
    case Requests(store, id, target, wanted, confirmed) => RequestDriver(f, store, id, target, wanted, confirmed)
    case WithdrawsRequest(store, id) => WithdrawRequest(f, store, id)
    case ReleasesDriver(store, id) => StoreRelease(f, store, id)
    case Cancels(id) => Cancel(f, id)
    case Updates(store, id, to, pending) => StoreUpdate(f, store, id, to, pending)
  }

  predicate IsBatchEvent(e: Event) {
    e.CreatesBatch? || e.Broadcasts? || e.CancelsBatch? || e.AcceptsBatch? || e.ReleasesBatch? || e.RefusesBatch?
        || e.CollectsBatch?
  }

  function BatchStep(f: Fleet, e: Event): Result<Fleet, DispatchError>
    requires IsBatchEvent(e)
  {
    match e
    case CreatesBatch(store, ids) => CreateBatch(f, store, ids)
    case Broadcasts(store, b, target, wanted, confirmed) => BroadcastBatch(f, store, b, target, wanted, confirmed)
    case CancelsBatch(store, b) => CancelBatch(f, store, b)
    case AcceptsBatch(driver, b, available) => AcceptBatch(f, driver, b, available)
    case ReleasesBatch(driver, b) => ReleaseBatch(f, driver, b)
    case RefusesBatch(driver, b) => RefuseBatch(f, driver, b)
    case CollectsBatch(driver, b) => CollectBatch(f, driver, b)
  }

  function Next(f: Fleet, e: Event): Fleet {
    if IsOrderEvent(e) then OrSame(OrderStep(f, e), f)
    else if IsBatchEvent(e) then OrSame(BatchStep(f, e), f)
    else if e.Places? then if Fresh(e.order) then f.(orders := f.orders + [e.order]) else f
    else if e.StartsShift? then OrSame(StartShift(f, e.store, e.driver), f)
    else if e.EndsShift? then OrSame(EndShift(f, e.shift, if e.close then Closed else Waiting), f)
    else if e.DecidesShift? then OrSame(DecideShift(f, e.shift), f)
    else OrSame(ReopenShift(f, e.shift), f)
  }

  /** A single-order transaction touches that order alone. */
  lemma OrderStepIsLocal(f: Fleet, e: Event)
    requires IsOrderEvent(e) && OrderStep(f, e).Ok?
    ensures e.id < |f.orders|
    ensures |OrderStep(f, e).value.orders| == |f.orders|
    ensures OrderStep(f, e).value == WithOrder(f, e.id, OrderStep(f, e).value.orders[e.id])
  {
    assert f.orders[e.id := f.orders[e.id]] == f.orders;
  }

  lemma OrderStepFitsBatch(f: Fleet, e: Event)
    requires IsOrderEvent(e) && OrderStep(f, e).Ok? && Coherent(f)
    ensures e.id < |f.orders| && FitsBatch(OrderStep(f, e).value.orders[e.id], f.batches)
  {
    OrderStepIsLocal(f, e);
    assert OrderOk(f.orders[e.id], f.batches, f.shifts);
  }

  lemma OrderStepFitsShift(f: Fleet, e: Event)
    requires IsOrderEvent(e) && OrderStep(f, e).Ok? && Coherent(f)
    ensures e.id < |f.orders| && FitsShift(OrderStep(f, e).value.orders[e.id], f.shifts)
  {
    OrderStepIsLocal(f, e);
    assert OrderOk(f.orders[e.id], f.batches, f.shifts);
  }

  predicate IsStoreEvent(e: Event) {
    e.Requests? || e.WithdrawsRequest? || e.ReleasesDriver? || e.Cancels? || e.Updates?
  }

  lemma StoreStepWaitsProperly(f: Fleet, e: Event)
    requires IsStoreEvent(e) && OrderStep(f, e).Ok? && Coherent(f)
    ensures e.id < |f.orders| && WaitsProperly(OrderStep(f, e).value.orders[e.id])
  {
    OrderStepIsLocal(f, e);
    assert OrderOk(f.orders[e.id], f.batches, f.shifts);
  }

  lemma OrderStepWaitsProperly(f: Fleet, e: Event)
    requires IsOrderEvent(e) && OrderStep(f, e).Ok? && Coherent(f)
    ensures e.id < |f.orders| && WaitsProperly(OrderStep(f, e).value.orders[e.id])
  {
    if IsStoreEvent(e) {
      StoreStepWaitsProperly(f, e);
    } else {
      OrderStepIsLocal(f, e);
      assert OrderOk(f.orders[e.id], f.batches, f.shifts);
    }
  }

  lemma OrderStepKeepsCoherent(f: Fleet, e: Event)
    requires IsOrderEvent(e) && OrderStep(f, e).Ok? && Coherent(f)
    ensures Coherent(OrderStep(f, e).value)
  {
    OrderStepIsLocal(f, e);
    OrderStepFitsBatch(f, e);
    OrderStepFitsShift(f, e);
    OrderStepWaitsProperly(f, e);
    var o := OrderStep(f, e).value.orders[e.id];
    OrderUpdate(f, e.id, o);
  }

  // ----- Steps on a batch -----

  lemma CreateKeepsCoherent(f: Fleet, store: nat, ids: set<nat>)
    requires Coherent(f) && CreateBatch(f, store, ids).Ok?
    ensures Coherent(CreateBatch(f, store, ids).value)
  {
    var next := CreateBatch(f, store, ids).value;
    forall i | 0 <= i < |next.orders| ensures OrderOk(next.orders[i], next.batches, next.shifts) {
      assert OrderOk(f.orders[i], f.batches, f.shifts);
      assert i in ids ==> MayJoin(f.orders[i], store);
    }
  }

  /** Changing a batch and its orders together leaves all other orders as they were. */
  lemma BatchUpdate(f: Fleet, b: nat, batch: Batch, orders: seq<Order>)
    requires Coherent(f) && b < |f.batches| && BatchOk(batch) && |orders| == |f.orders|
    requires forall i | 0 <= i < |orders| && !In(f.orders[i], b) :: orders[i] == f.orders[i]
    requires forall i | 0 <= i < |orders| && In(f.orders[i], b) :: OrderOk(orders[i], f.batches[b := batch], f.shifts)
    ensures Coherent(f.(batches := f.batches[b := batch], orders := orders))
  {
    var batches := f.batches[b := batch];
    forall i | 0 <= i < |orders| ensures OrderOk(orders[i], batches, f.shifts) {
      assert OrderOk(f.orders[i], f.batches, f.shifts);
    }
  }

  lemma BroadcastKeepsCoherent(f: Fleet, store: nat, b: nat, target: Target, wanted: Option<nat>, confirmed: bool)
    requires Coherent(f) && BroadcastBatch(f, store, b, target, wanted, confirmed).Ok?
    ensures Coherent(BroadcastBatch(f, store, b, target, wanted, confirmed).value)
  {
    var next := BroadcastBatch(f, store, b, target, wanted, confirmed).value;
    forall i | 0 <= i < |next.orders| && In(f.orders[i], b) ensures OrderOk(next.orders[i], next.batches, f.shifts) {
      assert OrderOk(f.orders[i], f.batches, f.shifts);
    }
    BatchUpdate(f, b, next.batches[b], next.orders);
  }

  lemma CancelBatchKeepsCoherent(f: Fleet, store: nat, b: nat)
    requires Coherent(f) && CancelBatch(f, store, b).Ok?
    ensures Coherent(CancelBatch(f, store, b).value)
  {
    var next := CancelBatch(f, store, b).value;
    assert BatchOk(f.batches[b]);
    forall i | 0 <= i < |next.orders| && In(f.orders[i], b)
      ensures OrderOk(next.orders[i], next.batches, f.shifts) && next.orders[i].driver.None?
    {
      assert OrderOk(f.orders[i], f.batches, f.shifts);
    }
    BatchUpdate(f, b, next.batches[b], next.orders);
  }

  lemma AcceptBatchKeepsCoherent(f: Fleet, driver: nat, b: nat, available: bool)
    requires Coherent(f) && AcceptBatch(f, driver, b, available).Ok?
    ensures Coherent(AcceptBatch(f, driver, b, available).value)
  {
    var next := AcceptBatch(f, driver, b, available).value;
    forall i | 0 <= i < |next.orders| && In(f.orders[i], b) ensures OrderOk(next.orders[i], next.batches, f.shifts) {
      assert OrderOk(f.orders[i], f.batches, f.shifts);
      AcceptedOrderFits(f, driver, b, available, i);
    }
    BatchUpdate(f, b, next.batches[b], next.orders);
  }

  lemma AcceptedOrderFits(f: Fleet, driver: nat, b: nat, available: bool, i: nat)
    requires Coherent(f) && AcceptBatch(f, driver, b, available).Ok? && i < |f.orders| && In(f.orders[i], b)
    ensures OrderOk(AcceptBatch(f, driver, b, available).value.orders[i],
              AcceptBatch(f, driver, b, available).value.batches, f.shifts)
  {
    assert OrderOk(f.orders[i], f.batches, f.shifts);
  }

  lemma ReleaseBatchKeepsCoherent(f: Fleet, driver: nat, b: nat)
    requires Coherent(f) && ReleaseBatch(f, driver, b).Ok?
    ensures Coherent(ReleaseBatch(f, driver, b).value)
  {
    var next := ReleaseBatch(f, driver, b).value;
    forall i | 0 <= i < |next.orders| && In(f.orders[i], b) ensures OrderOk(next.orders[i], next.batches, f.shifts) {
      assert OrderOk(f.orders[i], f.batches, f.shifts);
    }
    BatchUpdate(f, b, next.batches[b], next.orders);
  }

  lemma CollectBatchKeepsCoherent(f: Fleet, driver: nat, b: nat)
    requires Coherent(f) && CollectBatch(f, driver, b).Ok?
    ensures Coherent(CollectBatch(f, driver, b).value)
  {
    var next := CollectBatch(f, driver, b).value;
    forall i | 0 <= i < |next.orders| && In(f.orders[i], b) ensures OrderOk(next.orders[i], next.batches, f.shifts) {
      assert OrderOk(f.orders[i], f.batches, f.shifts);
    }
    BatchUpdate(f, b, next.batches[b], next.orders);
  }

  lemma RefuseBatchKeepsCoherent(f: Fleet, driver: nat, b: nat)
    requires Coherent(f) && RefuseBatch(f, driver, b).Ok?
    ensures Coherent(RefuseBatch(f, driver, b).value)
  {
    var next := RefuseBatch(f, driver, b).value;
    assert BatchOk(f.batches[b]);
    forall i | 0 <= i < |next.orders| && In(f.orders[i], b) ensures OrderOk(next.orders[i], next.batches, f.shifts) {
      assert OrderOk(f.orders[i], f.batches, f.shifts);
    }
    BatchUpdate(f, b, next.batches[b], next.orders);
  }

  // ----- Steps on a shift -----

  lemma StartKeepsCoherent(f: Fleet, store: nat, driver: nat)
    requires Coherent(f) && StartShift(f, store, driver).Ok?
    ensures Coherent(StartShift(f, store, driver).value)
  {
    var next := StartShift(f, store, driver).value;
    forall i | 0 <= i < |f.orders| ensures OrderOk(f.orders[i], f.batches, next.shifts) {
      assert OrderOk(f.orders[i], f.batches, f.shifts);
    }
  }

  /** A shift may change its status if its orders allow it. */
  lemma ShiftUpdate(f: Fleet, k: nat, s: Shift)
    requires Coherent(f) && k < |f.shifts| && s.store == f.shifts[k].store && s.driver == f.shifts[k].driver
    requires s.status.Active? || forall i | 0 <= i < |f.orders| && f.orders[i].shift == Some(k) :: Finished(f.orders[i])
    requires s.status.Active? ==> ActiveShift(f.shifts, s.driver).None?
    ensures Coherent(f.(shifts := f.shifts[k := s]))
  {
    var shifts := f.shifts[k := s];
    forall i | 0 <= i < |f.orders| ensures OrderOk(f.orders[i], f.batches, shifts) {
      assert OrderOk(f.orders[i], f.batches, f.shifts);
    }
  }

  lemma ShiftStepKeepsCoherent(f: Fleet, e: Event)
    requires Coherent(f) && (e.EndsShift? || e.DecidesShift? || e.ReopensShift?)
    ensures Coherent(Next(f, e))
  {
    if Next(f, e) != f {
      if !e.EndsShift? {
        forall i | 0 <= i < |f.orders| && f.orders[i].shift == Some(e.shift) ensures Finished(f.orders[i]) {
          assert OrderOk(f.orders[i], f.batches, f.shifts);
        }
      }
      ShiftUpdate(f, e.shift, Next(f, e).shifts[e.shift]);
    }
  }

  // ----- Runs -----

  lemma PlaceKeepsCoherent(f: Fleet, o: Order)
    requires Coherent(f) && Fresh(o)
    ensures Coherent(f.(orders := f.orders + [o]))
  {
  }

  lemma BatchStepKeepsCoherent(f: Fleet, e: Event)
    requires Coherent(f) && IsBatchEvent(e) && BatchStep(f, e).Ok?
    ensures Coherent(BatchStep(f, e).value)
  {
    match e
    case CreatesBatch(store, ids) => CreateKeepsCoherent(f, store, ids);
    case Broadcasts(store, b, target, wanted, confirmed) =>
        BroadcastKeepsCoherent(f, store, b, target, wanted, confirmed);
    case CancelsBatch(store, b) => CancelBatchKeepsCoherent(f, store, b);
    case AcceptsBatch(driver, b, available) => AcceptBatchKeepsCoherent(f, driver, b, available);
    case ReleasesBatch(driver, b) => ReleaseBatchKeepsCoherent(f, driver, b);
    case RefusesBatch(driver, b) => RefuseBatchKeepsCoherent(f, driver, b);
    case CollectsBatch(driver, b) => CollectBatchKeepsCoherent(f, driver, b);
  }

  lemma NextKeepsCoherent(f: Fleet, e: Event)
    requires Coherent(f)
    ensures Coherent(Next(f, e))
  {
    if IsOrderEvent(e) {
      if OrderStep(f, e).Ok? {
        OrderStepKeepsCoherent(f, e);
      }
    } else if e.Places? {
      if Fresh(e.order) {
        PlaceKeepsCoherent(f, e.order);
      }
    } else if e.StartsShift? {
      if StartShift(f, e.store, e.driver).Ok? {
        StartKeepsCoherent(f, e.store, e.driver);
      }
    } else if e.EndsShift? || e.DecidesShift? || e.ReopensShift? {
      ShiftStepKeepsCoherent(f, e);
    } else if BatchStep(f, e).Ok? {
      BatchStepKeepsCoherent(f, e);
    }
  }

  function Run(events: seq<Event>): Fleet {
    if |events| == 0 then Fleet([], [], []) else Next(Run(events[..|events| - 1]), events[|events| - 1])
  }

  lemma {:induction false} RunsStayCoherent(events: seq<Event>)
    ensures Coherent(Run(events))
  {
    if |events| > 0 {
      RunsStayCoherent(events[..|events| - 1]);
      NextKeepsCoherent(Run(events[..|events| - 1]), events[|events| - 1]);
    }
  }

  // ----- What the couplings are good for -----

  /**
   * Over every run: a batched order is with the batch's store and driver and not waiting for one of its own, a
   * collected batch holds only what is on the road or was, and an order's shift is that of its store and its
   * driver.
   */
  lemma OrdersAgreeWithBatchesAndShifts(events: seq<Event>, id: nat)
    requires id < |Run(events).orders|
    ensures var f := Run(events);
            var o := f.orders[id];
            && (o.batch.Some? ==>
                  && o.batch.value < |f.batches|
                  && var b := f.batches[o.batch.value];
                     && b.store == o.store && o.driver == b.driver && !o.status.AwaitingDriver?
                     && (b.status.Collected? ==> o.status in {OutForDelivery, Delivered, DeliveryFailed}))
            && (o.shift.Some? ==>
                  && o.shift.value < |f.shifts|
                  && f.shifts[o.shift.value].store == o.store && o.driver == Some(f.shifts[o.shift.value].driver))
            && (o.status.AwaitingDriver? ==> o.requested)
  {
    RunsStayCoherent(events);
    assert OrderOk(Run(events).orders[id], Run(events).batches, Run(events).shifts);
  }

  /** Over every run: a shift that is over has left nothing undelivered, and no driver has two shifts at once. */
  lemma {:induction false} EndedShiftsAreDone(events: seq<Event>, k: nat)
    requires k < |Run(events).shifts|
    ensures var f := Run(events);
            && (!f.shifts[k].status.Active? ==> forall i | 0 <= i < |f.orders| && f.orders[i].shift == Some(k) ::
                Finished(f.orders[i]))
            && (f.shifts[k].status.Active? ==>
                  forall j | 0 <= j < |f.shifts| && j != k && f.shifts[j].status.Active? ::
                      f.shifts[j].driver != f.shifts[k].driver)
  {
    RunsStayCoherent(events);
    var f := Run(events);
    forall i | 0 <= i < |f.orders| && f.orders[i].shift == Some(k) && !f.shifts[k].status.Active?
        ensures Finished(f.orders[i]) {
      assert OrderOk(f.orders[i], f.batches, f.shifts);
    }
  }

  /** A status stays or takes one step through the table. */
  predicate Follows(was: OrderStatus, now: OrderStatus) {
    was == now || CanTransition(was, now)
  }

  /**
   * An accepted step on this order with which it stops waiting for a driver, or with which the store declares it ready
   * although a driver was requested for it already and none has come.
   */
  predicate LeavesTheTable(f: Fleet, e: Event, id: nat)
    requires id < |f.orders|
  {
    var o := f.orders[id];
    && IsOrderEvent(e) && OrderStep(f, e).Ok? && e.id == id
    && (|| (o.status.AwaitingDriver? && (e.WithdrawsRequest? || e.ReleasesDriver?))
        || (o.status.Preparing? && o.requested && o.driver.None? && o.batch.None? && e.Updates? && e.to.Ready?))
  }

  lemma OrderStepFollows(f: Fleet, e: Event)
    requires IsOrderEvent(e) && OrderStep(f, e).Ok?
    ensures e.id < |f.orders|
    ensures var was, now := f.orders[e.id].status, OrderStep(f, e).value.orders[e.id].status;
            Follows(was, now) <==> !LeavesTheTable(f, e, e.id)
  {
    OrderStepIsLocal(f, e);
  }

  lemma BatchStepFollows(f: Fleet, e: Event, id: nat)
    requires IsBatchEvent(e) && BatchStep(f, e).Ok? && id < |f.orders|
    ensures |BatchStep(f, e).value.orders| == |f.orders|
    ensures Follows(f.orders[id].status, BatchStep(f, e).value.orders[id].status)
  {
  }

  /**
   * Every change of status is in the table if and only if it is not one of two: an order stops waiting for a driver and
   * is ready again, or, with a driver requested early, goes from preparation through ready to waiting at once.
   */
  lemma StatusesFollowTheTable(f: Fleet, e: Event, id: nat)
    requires id < |f.orders|
    ensures id < |Next(f, e).orders|
    ensures Follows(f.orders[id].status, Next(f, e).orders[id].status) <==> !LeavesTheTable(f, e, id)
  {
    if IsOrderEvent(e) && OrderStep(f, e).Ok? {
      OrderStepIsLocal(f, e);
      OrderStepFollows(f, e);
    } else if IsBatchEvent(e) && BatchStep(f, e).Ok? {
      BatchStepFollows(f, e, id);
    }
  }

  predicate SameHandover(was: Order, o: Order) {
    o.status == was.status && o.driver == was.driver && o.shift == was.shift && o.batch == was.batch
  }

  /** In no batch, or in one that was collected as a whole, a delivered order is out of everybody's reach. */
  predicate Fixed(f: Fleet, id: nat) {
    && id < |f.orders| && f.orders[id].status.Delivered?
    && (f.orders[id].batch.Some? ==>
          f.orders[id].batch.value < |f.batches| && f.batches[f.orders[id].batch.value].status.Collected?)
  }

  lemma OrderStepKeepsDelivered(f: Fleet, e: Event)
    requires IsOrderEvent(e) && OrderStep(f, e).Ok?
    ensures e.id < |f.orders|
    ensures f.orders[e.id].status.Delivered? ==> SameHandover(f.orders[e.id], OrderStep(f, e).value.orders[e.id])
  {
    OrderStepIsLocal(f, e);
  }

  lemma BatchStepKeepsFixed(f: Fleet, e: Event, id: nat)
    requires IsBatchEvent(e) && BatchStep(f, e).Ok? && Fixed(f, id)
    ensures Fixed(BatchStep(f, e).value, id) && SameHandover(f.orders[id], BatchStep(f, e).value.orders[id])
  {
    if e.CreatesBatch? {
      assert forall x | x in e.ids :: MayJoin(f.orders[x], e.store);
    }
  }

  lemma NextKeepsFixed(f: Fleet, e: Event, id: nat)
    requires Fixed(f, id)
    ensures Fixed(Next(f, e), id) && SameHandover(f.orders[id], Next(f, e).orders[id])
  {
    if IsOrderEvent(e) && OrderStep(f, e).Ok? {
      OrderStepIsLocal(f, e);
      OrderStepKeepsDelivered(f, e);
    } else if IsBatchEvent(e) && BatchStep(f, e).Ok? {
      BatchStepKeepsFixed(f, e, id);
    }
  }

  /**
   * From any point of a run to any later one, an order delivered outside a batch, or in one that was collected as a
   * whole, keeps its driver and its shift.
   */
  lemma {:induction false} DeliveredOrdersKeepTheirShift(events: seq<Event>, k: nat, id: nat)
    requires k <= |events| && Fixed(Run(events[..k]), id)
    ensures Fixed(Run(events), id) && SameHandover(Run(events[..k]).orders[id], Run(events).orders[id])
  {
    if k == |events| {
      assert events[..k] == events;
    } else {
      var init := events[..|events| - 1];
      assert init[..k] == events[..k];
      DeliveredOrdersKeepTheirShift(init, k, id);
      NextKeepsFixed(Run(init), events[|events| - 1], id);
    }
  }

  /** The release of a batch takes a delivered order from its driver exactly when the order is in that batch. */
  lemma DeliveredOrdersInBatches(f: Fleet, driver: nat, b: nat, id: nat)
    requires Coherent(f) && id < |f.orders| && f.orders[id].status.Delivered? && ReleaseBatch(f, driver, b).Ok?
    ensures var o := ReleaseBatch(f, driver, b).value.orders[id];
            (o.driver != f.orders[id].driver || o.shift != f.orders[id].shift) <==> f.orders[id].batch == Some(b)
  {
    assert OrderOk(f.orders[id], f.batches, f.shifts);
  }

  // ----- What undoes what -----

  /** A driver who accepts and releases leaves everything as it was, from the pool as on a shift. */
  lemma ReleaseUndoesAccept(f: Fleet, driver: nat, id: nat)
    requires Coherent(f) && id < |f.orders| && !f.orders[id].arrived
    ensures Accept(f, driver, id).Ok? ==> Release(Accept(f, driver, id).value, driver, id) == Ok(f)
    ensures AcceptOnShift(f, driver, id).Ok? ==> Release(AcceptOnShift(f, driver, id).value, driver, id) == Ok(f)
  {
    assert OrderOk(f.orders[id], f.batches, f.shifts);
    if Accept(f, driver, id).Ok? {
      assert Unassigned(Accept(f, driver, id).value.orders[id]) == f.orders[id];
      assert Accept(f, driver, id).value.orders[id := f.orders[id]] == f.orders;
    }
    if AcceptOnShift(f, driver, id).Ok? {
      assert Unassigned(AcceptOnShift(f, driver, id).value.orders[id]) == f.orders[id];
      assert AcceptOnShift(f, driver, id).value.orders[id := f.orders[id]] == f.orders;
    }
  }

  /** The same for a whole batch: its orders had neither driver nor shift before. */
  lemma ReleaseUndoesAcceptBatch(f: Fleet, driver: nat, b: nat, available: bool)
    requires Coherent(f) && AcceptBatch(f, driver, b, available).Ok?
    ensures ReleaseBatch(AcceptBatch(f, driver, b, available).value, driver, b) == Ok(f)
  {
    var taken := AcceptBatch(f, driver, b, available).value;
    var back := ReleaseBatch(taken, driver, b).value;
    forall i | 0 <= i < |f.orders| ensures back.orders[i] == f.orders[i] {
      assert OrderOk(f.orders[i], f.batches, f.shifts);
    }
    assert back.batches[b] == f.batches[b];
    assert back.batches == f.batches && back.orders == f.orders;
  }

  /**
   * Cancelling a new batch gives its orders back, without their requests, and leaves only the cancelled batch
   * behind.
   */
  lemma CancelUndoesCreateBatch(f: Fleet, store: nat, ids: set<nat>)
    requires Coherent(f) && CreateBatch(f, store, ids).Ok?
    ensures var back := CancelBatch(CreateBatch(f, store, ids).value, store, |f.batches|);
            && back.Ok? && back.value.shifts == f.shifts && back.value.batches[..|f.batches|] == f.batches
            && |back.value.orders| == |f.orders|
            && forall i | 0 <= i < |f.orders| ::
                 back.value.orders[i] == if i in ids then Cleared(f.orders[i]) else f.orders[i]
  {
    var back := CancelBatch(CreateBatch(f, store, ids).value, store, |f.batches|).value;
    forall i | 0 <= i < |f.orders| ensures back.orders[i] == if i in ids then Cleared(f.orders[i]) else f.orders[i] {
      assert OrderOk(f.orders[i], f.batches, f.shifts);
      assert i in ids ==> MayJoin(f.orders[i], store);
    }
  }

  /** A withdrawn request leaves an order that had none, and was not waiting, as it was. */
  lemma WithdrawUndoesRequest(f: Fleet, store: nat, id: nat, target: Target, wanted: Option<nat>, confirmed: bool)
    requires Coherent(f) && id < |f.orders| && f.orders[id] == Cleared(f.orders[id])
    requires RequestDriver(f, store, id, target, wanted, confirmed).Ok?
    ensures WithdrawRequest(RequestDriver(f, store, id, target, wanted, confirmed).value, store, id) == Ok(f)
  {
    assert OrderOk(f.orders[id], f.batches, f.shifts);
    var asked := RequestDriver(f, store, id, target, wanted, confirmed).value;
    assert asked.orders[id := f.orders[id]] == f.orders;
  }
}

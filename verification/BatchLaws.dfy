/** When batches and shifts change in dispatch, and why its requests are refused, written out. */
module BatchLaws {
  import opened Dispatch
  import opened DispatchLaws
  import opened DispatchRuns
  import opened OrderStatuses
  import opened Wrappers

  // ----- Batches -----

  predicate GivesBack(f: Fleet, e: Event, b: nat)
    requires b < |f.batches|
  {
    e.ReleasesBatch? && e.batch == b && f.batches[b].driver == Some(e.driver) && f.batches[b].status == Taken
  }

  predicate SetsOut(f: Fleet, e: Event, b: nat)
    requires b < |f.batches|
  {
    && e.CollectsBatch? && e.batch == b && f.batches[b].driver == Some(e.driver) && f.batches[b].status == Taken
    && (exists i | 0 <= i < |f.orders| :: f.orders[i].batch == Some(b))
    && forall i | 0 <= i < |f.orders| && f.orders[i].batch == Some(b) :: f.orders[i].status == Ready
  }

  predicate DeclinesBatch(e: Event, batch: Batch, b: nat) {
    && e.RefusesBatch? && e.batch == b && batch.status == Broadcast && batch.target == Specific
    && batch.requestedDriver == Some(e.driver) && batch.driver == None
  }

  /** A batch is offered, taken, given back, declined, dissolved or sets out, and otherwise stays as it is. */
  ghost function BatchAfter(f: Fleet, e: Event, b: nat): Batch
    requires b < |f.batches|
  {
    var batch := f.batches[b];
    if BroadcastGoes(f, e, b) then
      Batch(batch.store, None, Broadcast, e.target, if e.target == Specific then e.wanted else None, false)
    else if Dissolves(f, e, b) then batch.(status := Withdrawn)
    else if e.AcceptsBatch? && TakesBatch(f, e, b, e.driver) then batch.(driver := Some(e.driver), status := Taken)
    else if GivesBack(f, e, b) then batch.(driver := None, status := Broadcast)
    else if SetsOut(f, e, b) then batch.(status := Collected)
    else if DeclinesBatch(e, batch, b) then batch.(refused := true)
    else batch
  }

  lemma OfferRows(f: Fleet, e: Event, b: nat)
    requires Coherent(f) && b < |f.batches| && (e.Broadcasts? || e.CancelsBatch? || e.AcceptsBatch?)
    ensures |Next(f, e).batches| == |f.batches| && Next(f, e).batches[b] == BatchAfter(f, e, b)
  {
    match e
    case Broadcasts(_, _, _, _, _) => BroadcastWritten(f, e);
    case CancelsBatch(_, _) =>
    case AcceptsBatch(driver, _, _) => ActiveShiftWritten(f, driver);
  }

  lemma DriverRows(f: Fleet, e: Event, b: nat)
    requires b < |f.batches| && (e.ReleasesBatch? || e.RefusesBatch? || e.CollectsBatch?)
    ensures |Next(f, e).batches| == |f.batches| && Next(f, e).batches[b] == BatchAfter(f, e, b)
  {
    match e
    case ReleasesBatch(_, _) =>
    case RefusesBatch(_, _) =>
    case CollectsBatch(_, _) =>
  }

  lemma NewBatch(f: Fleet, e: Event)
    requires e.CreatesBatch?
    ensures Next(f, e).batches == f.batches + if exists id: nat :: Joins(f, e, id) then
                [Batch(e.store, None, BatchStatus.Open, General, None, false)]
              else []
  {
    if |e.ids| >= 2 {
      var id :| id in e.ids;
      assert CreateBatch(f, e.store, e.ids).Ok? ==> Joins(f, e, id);
    }
  }

  lemma OtherEventsKeepBatches(f: Fleet, e: Event)
    requires !IsBatchEvent(e)
    ensures Next(f, e).batches == f.batches
  {
    if IsOrderEvent(e) && OrderStep(f, e).Ok? {
      OrderStepIsLocal(f, e);
    }
  }

  lemma BatchesChangeExactly(f: Fleet, e: Event, b: nat)
    requires Coherent(f) && b < |f.batches|
    ensures b < |Next(f, e).batches| && Next(f, e).batches[b] == BatchAfter(f, e, b)
  {
    if e.Broadcasts? || e.CancelsBatch? || e.AcceptsBatch? {
      OfferRows(f, e, b);
    } else if e.CreatesBatch? {
      NewBatch(f, e);
    } else if IsBatchEvent(e) {
      DriverRows(f, e, b);
    } else {
      OtherEventsKeepBatches(f, e);
    }
  }

  // ----- Shifts -----

  /** Nothing that the driver took from the pool is still to be delivered. */
  predicate PoolDone(f: Fleet, driver: nat) {
    forall i | 0 <= i < |f.orders| && f.orders[i].driver == Some(driver) && f.orders[i].shift == None ::
      !Underway(f.orders[i].status) && f.orders[i].status != OutForDelivery
  }

  /** Everything taken on the shift is delivered, cancelled or brought back. */
  predicate ShiftDone(f: Fleet, k: nat) {
    forall i | 0 <= i < |f.orders| && f.orders[i].shift == Some(k) ::
      f.orders[i].status in {Delivered, Cancelled} || (f.orders[i].status == DeliveryFailed && f.orders[i].returned)
  }

  /** A driver starts one shift at a time, ends it when everything is done, and may resume it until it is decided. */
  lemma ShiftsChangeExactly(f: Fleet, e: Event, k: nat)
    requires Coherent(f) && k < |f.shifts|
    ensures |Next(f, e).shifts| == |f.shifts| +
              if e.StartsShift? && OffShift(f, e.driver) && PoolDone(f, e.driver) then 1 else 0
    ensures |Next(f, e).shifts| > |f.shifts| ==> Next(f, e).shifts[|f.shifts|] == Shift(e.store, e.driver, Active)
    ensures var s := f.shifts[k];
            Next(f, e).shifts[k] ==
              if e.EndsShift? && e.shift == k && s.status == Active && ShiftDone(f, k) then
                s.(status := if e.close then Closed else Waiting)
              else if e == DecidesShift(k) && s.status == Waiting then s.(status := Closed)
              else if e == ReopensShift(k) && s.status == Waiting && OffShift(f, s.driver) then s.(status := Active)
              else s
  {
    if e.StartsShift? {
      ActiveShiftWritten(f, e.driver);
    } else if e.ReopensShift? && e.shift < |f.shifts| {
      ActiveShiftWritten(f, f.shifts[e.shift].driver);
    } else if IsOrderEvent(e) && OrderStep(f, e).Ok? {
      OrderStepIsLocal(f, e);
    }
  }

  // ----- Refusals -----

  /** Drivers are told whether they are on shift where that decides, and else only that there is nothing for them. */
  lemma DriversAreRefusedSo(f: Fleet, e: Event)
    requires Coherent(f) && IsOrderEvent(e) && !ByTheStore(e) && !e.Returns? && !e.Pays? && OrderStep(f, e).Err?
    ensures OrderStep(f, e).error ==
            if e.Accepts? && !OffShift(f, e.driver) then OnShift
            else if e.AcceptsOnShift? && OffShift(f, e.driver) then NotOnShift
            else Unavailable
  {
    ActiveShiftWritten(f, e.driver);
  }

  predicate Theirs(f: Fleet, e: Event)
    requires ByTheStore(e) || e.Returns?
  {
    && e.id < |f.orders|
    && if e.Cancels? then true
       else if e.Returns? then e.confirmer == None || e.confirmer == Some(f.orders[e.id].store)
       else f.orders[e.id].store == e.store
  }

  /** Asking the pool again for an order that is there already, or reporting a failure again, is accepted in silence. */
  lemma RepeatsAreAccepted(f: Fleet, e: Event)
    requires (e.Requests? || e.Fails?) && e.id < |f.orders|
    ensures var o := f.orders[e.id];
            OrderStep(f, e).Ok? <==>
              if e.Requests? then
                || RequestGoes(f, e, e.id)
                || (o.store == e.store && Free(o) && o.target == Some(General) && e.target == General)
              else
                && o.driver == Some(e.driver)
                && (o.status == OutForDelivery || (o.status == DeliveryFailed && o.returnPending))
  {
    match e
    case Requests(_, _, _, _, _) =>
    case Fails(_, _) =>
  }

  /** The first reason for which a store is refused. */
  function StoreRefusal(f: Fleet, e: Event): DispatchError
    requires ByTheStore(e) || e.Returns?
  {
    if e.Updates? && e.to in {AwaitingPayment, OrderStatus.Pending, AwaitingDriver, DeliveryFailed} then NotForTheStore
    else if !Theirs(f, e) then NotFound
    else
      var o := f.orders[e.id];
      match e
      case Requests(_, _, target, wanted, _) =>
        if !o.delivery then NotADelivery
        else if o.driver != None then HasDriver
        else if o.batch != None then InABatch
        else if !Underway(o.status) then WrongStatus
        else if o.target == Some(General) then AlreadyInThePool
        else if wanted == None then DriverNotChosen
        else NotOnShift
      case WithdrawsRequest(_, _) => if o.driver != None then HasDriver else WrongStatus
      case ReleasesDriver(_, _) => if o.batch != None then InABatch else WrongStatus
      case Updates(_, _, to, pending) =>
        if pending && to != Cancelled then AmendmentPending
        else if o.delivery && to == Delivered then NotForTheStore
        else if o.delivery && o.driver != None && to == OutForDelivery then HasDriver
        else WrongStatus
      case _ => WrongStatus
  }

  lemma StoresAreRefusedSo(f: Fleet, e: Event)
    requires (ByTheStore(e) || e.Returns?) && OrderStep(f, e).Err?
    ensures OrderStep(f, e).error == StoreRefusal(f, e)
  {
    match e
    case Requests(_, _, _, _, _) =>
    case WithdrawsRequest(_, _) =>
    case ReleasesDriver(_, _) =>
    case Cancels(_) =>
    case Updates(_, _, _, _) =>
    case Returns(_, _) =>
  }

  predicate Empty(f: Fleet, b: nat) {
    forall i | 0 <= i < |f.orders| :: f.orders[i].batch != Some(b)
  }

  predicate Held(f: Fleet, b: nat, driver: nat) {
    b < |f.batches| && f.batches[b].driver == Some(driver) && f.batches[b].status == Taken
  }

  /** The first reason for which work on a batch is refused. */
  function BatchRefusal(f: Fleet, e: Event): DispatchError
    requires IsBatchEvent(e)
  {
    match e
    case CreatesBatch(store, ids) =>
      if |ids| < 2 then TooFewOrders
      else if exists id | id in ids :: id >= |f.orders| || f.orders[id].store != store then NotFound
      else Unavailable
    case Broadcasts(store, b, target, wanted, confirmed) =>
      if b >= |f.batches| || f.batches[b].store != store then NotFound
      else if f.batches[b].status !in {BatchStatus.Open, Broadcast} then WrongStatus
      else if f.batches[b].status == Broadcast && f.batches[b].target == General && target != General then
        AlreadyInThePool
      else if target == Specific && wanted == None then DriverNotChosen
      else if target == Specific && !AtWork(f, store, wanted.value, confirmed) then NotOnShift
      else if f.batches[b].driver == None then TooFewOrders
      else if exists i, j | 0 <= i < j < |f.orders| :: f.orders[i].batch == Some(b) && f.orders[j].batch == Some(b) then
        Unavailable
      else TooFewOrders
    case CancelsBatch(store, b) =>
      if b >= |f.batches| || f.batches[b].store != store then NotFound else WrongStatus
    case CollectsBatch(driver, b) =>
      if !Held(f, b, driver) then NotFound else if Empty(f, b) then TooFewOrders else WrongStatus
    case _ => Unavailable
  }

  predicate AtWork(f: Fleet, store: nat, driver: nat, confirmed: bool) {
    confirmed && exists k | 0 <= k < |f.shifts| :: Working(f, k, driver) && f.shifts[k].store == store
  }

  lemma BatchWorkIsRefusedSo(f: Fleet, e: Event)
    requires IsBatchEvent(e) && !e.AcceptsBatch? && BatchStep(f, e).Err?
    ensures BatchStep(f, e).error == BatchRefusal(f, e)
  {
    match e
    case CreatesBatch(_, _) =>
    case Broadcasts(_, _, _, _, _) => BroadcastRefused(f, e);
    case CancelsBatch(_, _) =>
    case ReleasesBatch(_, _) =>
    case RefusesBatch(_, _) =>
    case CollectsBatch(_, _) =>
  }

  lemma BroadcastRefused(f: Fleet, e: Event)
    requires e.Broadcasts? && BatchStep(f, e).Err?
    ensures BatchStep(f, e).error == BatchRefusal(f, e)
  {
    if e.target == Specific && e.wanted.Some? {
      assert OnShiftAt(f.shifts, e.store, e.wanted.value, e.linkConfirmed) <==>
             AtWork(f, e.store, e.wanted.value, e.linkConfirmed);
    }
  }

  /** A batch that is on offer to the driver and holds nothing any more is refused for that. */
  lemma EmptyBatchIsRefused(f: Fleet, e: Event)
    requires Coherent(f) && e.AcceptsBatch? && BatchStep(f, e).Err?
    ensures BatchStep(f, e).error == Unavailable || (BatchStep(f, e).error == TooFewOrders && Empty(f, e.batch))
  {
  }

  lemma ShiftsAreRefusedSo(f: Fleet, store: nat, driver: nat, k: nat, to: ShiftStatus)
    requires Coherent(f) && to != Active
    ensures StartShift(f, store, driver).Err? ==>
              StartShift(f, store, driver).error == if PoolDone(f, driver) then OnShift else PoolOrdersOpen
    ensures EndShift(f, k, to).Err? ==>
              EndShift(f, k, to).error ==
              if k < |f.shifts| && f.shifts[k].status == Active then OrdersUnfinished else NotFound
    ensures DecideShift(f, k).Err? ==> DecideShift(f, k).error == NotFound
    ensures ReopenShift(f, k).Err? ==>
              ReopenShift(f, k).error ==
              if k < |f.shifts| && f.shifts[k].status == Waiting then OnShift else NotFound
  {
  }
}

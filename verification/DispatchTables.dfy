/** The dispatch services as they run: guarded updates of order, batch and shift rows within one transaction. */
module DispatchTables {
  import opened Dispatch
  import opened DispatchRuns
  import opened OrderStatuses
  import opened Wrappers

  ghost predicate Served(spec: Result<Fleet, DispatchError>, was: Fleet, state: Fleet, error: Option<DispatchError>) {
    match spec
    case Ok(next) => error.None? && state == next
    case Err(e) => error == Some(e) && state == was
  }

  /** A service on one order touches no other row, and keeps orders, batches and shifts coherent. */
  ghost predicate Kept(was: Fleet, state: Fleet, id: nat) {
    && state.batches == was.batches && state.shifts == was.shifts && |state.orders| == |was.orders|
    && (forall i | 0 <= i < |was.orders| && i != id :: state.orders[i] == was.orders[i])
    && (Coherent(was) ==> Coherent(state))
  }

  lemma OrderServiceKeeps(f: Fleet, e: Event)
    requires IsOrderEvent(e) && OrderStep(f, e).Ok?
    ensures Kept(f, OrderStep(f, e).value, e.id)
  {
    OrderStepIsLocal(f, e);
    if Coherent(f) {
      OrderStepKeepsCoherent(f, e);
    }
  }

  lemma BatchServiceKeeps(f: Fleet, e: Event)
    requires IsBatchEvent(e) && BatchStep(f, e).Ok? && Coherent(f)
    ensures Coherent(BatchStep(f, e).value)
  {
    BatchStepKeepsCoherent(f, e);
  }

  class Tables {
    var orders: seq<Order>
    var batches: seq<Batch>
    var shifts: seq<Shift>

    constructor ()
      ensures State() == Fleet([], [], [])
    {
      orders, batches, shifts := [], [], [];
    }

    function State(): Fleet
      reads this
    {
      Fleet(orders, batches, shifts)
    }

    // ----- Orders -----

    method AcceptDelivery(driver: nat, id: nat) returns (error: Option<DispatchError>)
      modifies this
      ensures Served(Accept(old(State()), driver, id), old(State()), State(), error)
      ensures Kept(old(State()), State(), id)
    {
      if OrderStep(State(), Accepts(driver, id)).Ok? {
        OrderServiceKeeps(State(), Accepts(driver, id));
      }
      var active := ActiveShift(shifts, driver);
      if active.Some? {
        return Some(OnShift);
      }
      if id < |orders| {
        var o := orders[id];
        if && o.driver.None? && o.batch.None? && o.requested && o.target == Some(General) && o.delivery
           && Acceptable(o.status) {
          orders := orders[id := o.(driver := Some(driver))];
          return None;
        }
      }
      return Some(Unavailable);
    }

    method AcceptShiftDelivery(driver: nat, id: nat) returns (error: Option<DispatchError>)
      modifies this
      ensures Served(AcceptOnShift(old(State()), driver, id), old(State()), State(), error)
      ensures Kept(old(State()), State(), id)
    {
      if OrderStep(State(), AcceptsOnShift(driver, id)).Ok? {
        OrderServiceKeeps(State(), AcceptsOnShift(driver, id));
      }
      var shift := ActiveShift(shifts, driver);
      if shift.None? {
        return Some(NotOnShift);
      }
      if id < |orders| {
        var o := orders[id];
        if && o.store == shifts[shift.value].store
           && (o.target == Some(Own) || (o.target == Some(Specific) && o.requestedDriver == Some(driver)))
           && !o.refused && o.driver.None? && o.batch.None? && o.requested && o.delivery && Acceptable(o.status) {
          orders := orders[id := o.(driver := Some(driver), shift := shift)];
          return None;
        }
      }
      return Some(Unavailable);
    }

    method ReleaseDelivery(driver: nat, id: nat) returns (error: Option<DispatchError>)
      modifies this
      ensures Served(Release(old(State()), driver, id), old(State()), State(), error)
      ensures Kept(old(State()), State(), id)
    {
      if OrderStep(State(), Releases(driver, id)).Ok? {
        OrderServiceKeeps(State(), Releases(driver, id));
      }
      if id < |orders| && orders[id].driver == Some(driver) && orders[id].batch.None? && Acceptable(orders[id].status) {
        orders := orders[id := orders[id].(driver := None, shift := None, arrived := false)];
        return None;
      }
      return Some(Unavailable);
    }

    method CollectDelivery(driver: nat, id: nat) returns (error: Option<DispatchError>)
      modifies this
      ensures Served(Collect(old(State()), driver, id), old(State()), State(), error)
      ensures Kept(old(State()), State(), id)
    {
      if OrderStep(State(), Collects(driver, id)).Ok? {
        OrderServiceKeeps(State(), Collects(driver, id));
      }
      if id < |orders| && orders[id].driver == Some(driver) && orders[id].batch.None?
          && Collectible(orders[id].status) {
        orders := orders[id := orders[id].(status := OutForDelivery)];
        return None;
      }
      return Some(Unavailable);
    }

    method CompleteDelivery(driver: nat, id: nat) returns (error: Option<DispatchError>)
      modifies this
      ensures Served(Complete(old(State()), driver, id), old(State()), State(), error)
      ensures Kept(old(State()), State(), id)
    {
      if OrderStep(State(), Completes(driver, id)).Ok? {
        OrderServiceKeeps(State(), Completes(driver, id));
      }
      if id < |orders| && orders[id].driver == Some(driver) && orders[id].status == OutForDelivery {
        orders := orders[id := orders[id].(status := Delivered)];
        return None;
      }
      return Some(Unavailable);
    }

    method FailDelivery(driver: nat, id: nat) returns (error: Option<DispatchError>)
      modifies this
      ensures Served(Fail(old(State()), driver, id), old(State()), State(), error)
      ensures Kept(old(State()), State(), id)
    {
      if OrderStep(State(), Fails(driver, id)).Ok? {
        OrderServiceKeeps(State(), Fails(driver, id));
      }
      if id >= |orders| || orders[id].driver != Some(driver) {
        return Some(Unavailable);
      }
      if orders[id].status == DeliveryFailed && orders[id].returnPending {
        return None;
      }
      if orders[id].status != OutForDelivery {
        return Some(Unavailable);
      }
      orders := orders[id := orders[id].(status := DeliveryFailed, returnPending := true)];
      return None;
    }

    method StoreReleaseDriver(store: nat, id: nat) returns (error: Option<DispatchError>)
      modifies this
      ensures Served(StoreRelease(old(State()), store, id), old(State()), State(), error)
      ensures Kept(old(State()), State(), id)
    {
      if OrderStep(State(), ReleasesDriver(store, id)).Ok? {
        OrderServiceKeeps(State(), ReleasesDriver(store, id));
      }
      if id >= |orders| || orders[id].store != store {
        return Some(NotFound);
      }
      var o := orders[id];
      if o.batch.Some? {
        return Some(InABatch);
      }
      if o.driver.None? || !Acceptable(o.status) {
        return Some(WrongStatus);
      }
      if o.status == AwaitingDriver {
        o := o.(status := Ready);
      }
      o := o.(driver := None, shift := None, arrived := false);
      o := o.(requested := false, target := None, requestedDriver := None, refused := false);
      orders := orders[id := o];
      return None;
    }

    method SetDriverRequestTarget(store: nat, id: nat, target: Target, wanted: Option<nat>, linkConfirmed: bool)
      returns (error: Option<DispatchError>)
      modifies this
      ensures Served(RequestDriver(old(State()), store, id, target, wanted, linkConfirmed),
                     old(State()), State(), error)
      ensures Kept(old(State()), State(), id)
    {
      if OrderStep(State(), Requests(store, id, target, wanted, linkConfirmed)).Ok? {
        OrderServiceKeeps(State(), Requests(store, id, target, wanted, linkConfirmed));
      }
      if id >= |orders| || orders[id].store != store {
        return Some(NotFound);
      }
      var o := orders[id];
      if !o.delivery {
        return Some(NotADelivery);
      }
      if o.driver.Some? {
        return Some(HasDriver);
      }
      if o.batch.Some? {
        return Some(InABatch);
      }
      if !Acceptable(o.status) {
        return Some(WrongStatus);
      }
      if o.target == Some(General) {
        return if target.General? then None else Some(AlreadyInThePool);
      }
      if target.Specific? {
        if wanted.None? {
          return Some(DriverNotChosen);
        }
        if !OnShiftAt(shifts, store, wanted.value, linkConfirmed) {
          return Some(NotOnShift);
        }
      }
      o := o.(requested := true, target := Some(target), requestedDriver := if target.Specific? then wanted else None,
              refused := false);
      if o.status == Ready {
        o := o.(status := AwaitingDriver);
      }
      orders := orders[id := o];
      return None;
    }

    method WithdrawDriverRequest(store: nat, id: nat) returns (error: Option<DispatchError>)
      modifies this
      ensures Served(WithdrawRequest(old(State()), store, id), old(State()), State(), error)
      ensures Kept(old(State()), State(), id)
    {
      if OrderStep(State(), WithdrawsRequest(store, id)).Ok? {
        OrderServiceKeeps(State(), WithdrawsRequest(store, id));
      }
      if id >= |orders| || orders[id].store != store {
        return Some(NotFound);
      }
      var o := orders[id];
      if o.driver.Some? {
        return Some(HasDriver);
      }
      if !o.requested {
        return Some(WrongStatus);
      }
      o := o.(requested := false, target := None, requestedDriver := None, refused := false);
      if o.status == AwaitingDriver {
        o := o.(status := Ready);
      }
      orders := orders[id := o];
      return None;
    }

    method StoreUpdateOrderStatus(store: nat, id: nat, to: OrderStatus, amendmentPending: bool)
      returns (error: Option<DispatchError>)
      modifies this
      ensures Served(StoreUpdate(old(State()), store, id, to, amendmentPending), old(State()), State(), error)
      ensures Kept(old(State()), State(), id)
    {
      if OrderStep(State(), Updates(store, id, to, amendmentPending)).Ok? {
        OrderServiceKeeps(State(), Updates(store, id, to, amendmentPending));
      }
      if !StoreAllowed(to) {
        return Some(NotForTheStore);
      }
      if id >= |orders| || orders[id].store != store {
        return Some(NotFound);
      }
      var o := orders[id];
      if to != Cancelled && amendmentPending {
        return Some(AmendmentPending);
      }
      if o.delivery && to == Delivered {
        return Some(NotForTheStore);
      }
      if o.delivery && o.driver.Some? && to == OutForDelivery {
        return Some(HasDriver);
      }
      if !CanTransition(o.status, to) {
        return Some(WrongStatus);
      }
      o := o.(status := to);
      if to == Cancelled {
        o := o.(batch := None);
      } else if to == Ready && o.requested && o.driver.None? && o.batch.None? {
        o := o.(status := AwaitingDriver);
      }
      orders := orders[id := o];
      return None;
    }

    // ----- Batches: one update touches all orders of the batch -----

    method AssignBatch(b: nat, driver: Option<nat>, shift: Option<nat>)
      modifies this`orders
      ensures orders == Assigned(old(orders), b, driver, shift)
    {
      for i := 0 to |orders|
        invariant |orders| == |old(orders)|
        invariant forall j | 0 <= j < i :: orders[j] == Assigned(old(orders), b, driver, shift)[j]
        invariant forall j | i <= j < |orders| :: orders[j] == old(orders)[j]
      {
        if orders[i].batch == Some(b) {
          orders := orders[i := orders[i].(driver := driver, shift := shift)];
        }
      }
    }

    method JoinBatch(ids: set<nat>, b: nat)
      modifies this`orders
      ensures orders == Batched(old(orders), ids, b)
    {
      for i := 0 to |orders|
        invariant |orders| == |old(orders)|
        invariant forall j | 0 <= j < i :: orders[j] == Batched(old(orders), ids, b)[j]
        invariant forall j | i <= j < |orders| :: orders[j] == old(orders)[j]
      {
        if i in ids {
          orders := orders[i := orders[i].(batch := Some(b))];
        }
      }
    }

    method CreateBatch(store: nat, ids: set<nat>) returns (error: Option<DispatchError>)
      modifies this
      ensures Served(Dispatch.CreateBatch(old(State()), store, ids), old(State()), State(), error)
      ensures Coherent(old(State())) ==> Coherent(State())
    {
      if Coherent(State()) && BatchStep(State(), CreatesBatch(store, ids)).Ok? {
        BatchServiceKeeps(State(), CreatesBatch(store, ids));
      }
      if |ids| < 2 {
        return Some(TooFewOrders);
      }
      if exists id | id in ids :: id >= |orders| || orders[id].store != store {
        return Some(NotFound);
      }
      if exists id | id in ids :: !MayJoin(orders[id], store) {
        return Some(Unavailable);
      }
      batches := batches + [Batch(store, None, Open, General, None, false)];
      JoinBatch(ids, |batches| - 1);
      return None;
    }

    method RequestBatch(b: nat, target: Target)
      modifies this`orders
      ensures orders == Requested(old(orders), b, target)
    {
      for i := 0 to |orders|
        invariant |orders| == |old(orders)|
        invariant forall j | 0 <= j < i :: orders[j] == Requested(old(orders), b, target)[j]
        invariant forall j | i <= j < |orders| :: orders[j] == old(orders)[j]
      {
        if orders[i].batch == Some(b) {
          orders := orders[i := orders[i].(requested := true, target := Some(target), requestedDriver := None,
                                           refused := false)];
        }
      }
    }

    method BroadcastBatch(store: nat, b: nat, target: Target, wanted: Option<nat>, linkConfirmed: bool)
      returns (error: Option<DispatchError>)
      modifies this
      ensures Served(Dispatch.BroadcastBatch(old(State()), store, b, target, wanted, linkConfirmed),
                     old(State()), State(), error)
      ensures Coherent(old(State())) ==> Coherent(State())
    {
      if Coherent(State()) && BatchStep(State(), Broadcasts(store, b, target, wanted, linkConfirmed)).Ok? {
        BatchServiceKeeps(State(), Broadcasts(store, b, target, wanted, linkConfirmed));
      }
      if b >= |batches| || batches[b].store != store {
        return Some(NotFound);
      }
      var batch := batches[b];
      if batch.status != Open && batch.status != Broadcast {
        return Some(WrongStatus);
      }
      if batch.status == Broadcast && batch.target == General && target != General {
        return Some(AlreadyInThePool);
      }
      if target.Specific? {
        if wanted.None? {
          return Some(DriverNotChosen);
        }
        if !OnShiftAt(shifts, store, wanted.value, linkConfirmed) {
          return Some(NotOnShift);
        }
      }
      if !HasTwo(orders, b) {
        return Some(TooFewOrders);
      }
      if batch.driver.Some? {
        return Some(Unavailable);
      }
      batches := batches[b := batch.(status := Broadcast, target := target, refused := false,
                                     requestedDriver := if target.Specific? then wanted else None)];
      RequestBatch(b, target);
      return None;
    }

    method AcceptBatch(driver: nat, b: nat, available: bool) returns (error: Option<DispatchError>)
      modifies this
      ensures Served(Dispatch.AcceptBatch(old(State()), driver, b, available), old(State()), State(), error)
      ensures Coherent(old(State())) ==> Coherent(State())
    {
      if Coherent(State()) && BatchStep(State(), AcceptsBatch(driver, b, available)).Ok? {
        BatchServiceKeeps(State(), AcceptsBatch(driver, b, available));
      }
      var k := ActiveShift(shifts, driver);
      if k.None? && !available {
        return Some(Unavailable);
      }
      if b >= |batches| || batches[b].driver.Some? || batches[b].status != Broadcast {
        return Some(Unavailable);
      }
      var batch := batches[b];
      if k.Some? {
        if batch.store != shifts[k.value].store || batch.refused
            || !Directed(Some(batch.target), batch.requestedDriver, driver) {
          return Some(Unavailable);
        }
      } else if batch.target != General {
        return Some(Unavailable);
      }
      if !HasAny(orders, b) {
        return Some(TooFewOrders);
      }
      batches := batches[b := batch.(driver := Some(driver), status := Taken)];
      AssignBatch(b, Some(driver), k);
      return None;
    }

    method ReleaseBatch(driver: nat, b: nat) returns (error: Option<DispatchError>)
      modifies this
      ensures Served(Dispatch.ReleaseBatch(old(State()), driver, b), old(State()), State(), error)
      ensures Coherent(old(State())) ==> Coherent(State())
    {
      if Coherent(State()) && BatchStep(State(), ReleasesBatch(driver, b)).Ok? {
        BatchServiceKeeps(State(), ReleasesBatch(driver, b));
      }
      if b >= |batches| || batches[b].driver != Some(driver) || batches[b].status != Taken {
        return Some(Unavailable);
      }
      AssignBatch(b, None, None);
      batches := batches[b := batches[b].(driver := None, status := Broadcast)];
      return None;
    }

    method CancelBatch(store: nat, b: nat) returns (error: Option<DispatchError>)
      modifies this
      ensures Served(Dispatch.CancelBatch(old(State()), store, b), old(State()), State(), error)
      ensures Coherent(old(State())) ==> Coherent(State())
    {
      if Coherent(State()) && BatchStep(State(), CancelsBatch(store, b)).Ok? {
        BatchServiceKeeps(State(), CancelsBatch(store, b));
      }
      if b >= |batches| || batches[b].store != store {
        return Some(NotFound);
      }
      if batches[b].status != Open && batches[b].status != Broadcast {
        return Some(WrongStatus);
      }
      for i := 0 to |orders|
        invariant batches == old(batches) && shifts == old(shifts) && |orders| == |old(orders)|
        invariant forall j | 0 <= j < i :: orders[j] == Unbatched(old(orders), b)[j]
        invariant forall j | i <= j < |orders| :: orders[j] == old(orders)[j]
      {
        if orders[i].batch == Some(b) {
          orders := orders[i := Cleared(orders[i]).(batch := None, shift := None)];
        }
      }
      assert orders == Unbatched(old(orders), b);
      batches := batches[b := batches[b].(status := Withdrawn)];
      return None;
    }

    method CollectBatch(driver: nat, b: nat) returns (error: Option<DispatchError>)
      modifies this
      ensures Served(Dispatch.CollectBatch(old(State()), driver, b), old(State()), State(), error)
      ensures Coherent(old(State())) ==> Coherent(State())
    {
      if Coherent(State()) && BatchStep(State(), CollectsBatch(driver, b)).Ok? {
        BatchServiceKeeps(State(), CollectsBatch(driver, b));
      }
      if b >= |batches| || batches[b].driver != Some(driver) || batches[b].status != Taken {
        return Some(NotFound);
      }
      if !HasAny(orders, b) {
        return Some(TooFewOrders);
      }
      for i := 0 to |orders|
        invariant forall j | 0 <= j < i :: In(orders[j], b) ==> orders[j].status.Ready?
      {
        if orders[i].batch == Some(b) && orders[i].status != Ready {
          return Some(WrongStatus);
        }
      }
      for i := 0 to |orders|
        invariant batches == old(batches) && shifts == old(shifts) && |orders| == |old(orders)|
        invariant forall j | 0 <= j < i :: orders[j] == SentOut(old(orders), b)[j]
        invariant forall j | i <= j < |orders| :: orders[j] == old(orders)[j]
      {
        if orders[i].batch == Some(b) && orders[i].status == Ready {
          orders := orders[i := orders[i].(status := OutForDelivery)];
        }
      }
      assert orders == SentOut(old(orders), b);
      batches := batches[b := batches[b].(status := Collected)];
      return None;
    }

    // ----- Shifts -----

    method EndShift(k: nat, close: bool) returns (error: Option<DispatchError>)
      modifies this
      ensures Served(Dispatch.EndShift(old(State()), k, if close then Closed else Waiting),
                     old(State()), State(), error)
      ensures Coherent(old(State())) ==> Coherent(State())
    {
      if Coherent(State()) {
        NextKeepsCoherent(State(), EndsShift(k, close));
      }
      if k >= |shifts| || shifts[k].status != Active {
        return Some(NotFound);
      }
      for i := 0 to |orders|
        invariant forall j | 0 <= j < i :: !(orders[j].shift == Some(k) && !Finished(orders[j]))
      {
        var o := orders[i];
        if && o.shift == Some(k) && o.status != Delivered && o.status != Cancelled
           && !(o.status == DeliveryFailed && o.returned) {
          return Some(OrdersUnfinished);
        }
      }
      shifts := shifts[k := shifts[k].(status := if close then Closed else Waiting)];
      return None;
    }
  }
}

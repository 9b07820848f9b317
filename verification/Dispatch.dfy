/** Orders, batches of orders and drivers' shifts, as the dispatch services change them together. */
module Dispatch {
  import opened OrderStatuses
  import opened Wrappers

  datatype Target = General | Own | Specific

  datatype Order = Order(
    store: nat, status: OrderStatus, delivery: bool,
    driver: Option<nat>, shift: Option<nat>, batch: Option<nat>,
    requested: bool, target: Option<Target>, requestedDriver: Option<nat>, refused: bool,
    arrived: bool, returnPending: bool, returned: bool
  )

  datatype BatchStatus = Open | Broadcast | Taken | Collected | Withdrawn

  datatype Batch = Batch(
    store: nat, driver: Option<nat>, status: BatchStatus, target: Target, requestedDriver: Option<nat>, refused: bool
  )

  datatype ShiftStatus = Active | Waiting | Closed

  datatype Shift = Shift(store: nat, driver: nat, status: ShiftStatus)

  datatype Fleet = Fleet(orders: seq<Order>, batches: seq<Batch>, shifts: seq<Shift>)

  datatype DispatchError =
    | NotFound
    | NotADelivery
    | HasDriver
    | InABatch
    | WrongStatus
    | TooFewOrders
    | Unavailable
    | OnShift
    | NotOnShift
    | AlreadyInThePool
    | DriverNotChosen
    | PoolOrdersOpen
    | OrdersUnfinished
    | NotForTheStore
    | AmendmentPending

  predicate Acceptable(s: OrderStatus) {
    s.Accepted? || s.Preparing? || s.Ready? || s.AwaitingDriver?
  }

  predicate Batchable(s: OrderStatus) {
    s.Accepted? || s.Preparing? || s.Ready?
  }

  predicate Collectible(s: OrderStatus) {
    s.Ready? || s.AwaitingDriver?
  }

  /** What keeps a driver from starting a shift when it came from the general pool. */
  predicate Ongoing(s: OrderStatus) {
    Acceptable(s) || s.OutForDelivery?
  }

  /** Done with, as the end of a shift requires. */
  predicate Finished(o: Order) {
    o.status.Delivered? || o.status.Cancelled? || (o.status.DeliveryFailed? && o.returned)
  }

  function ActiveShift(shifts: seq<Shift>, driver: nat): (r: Option<nat>)
    ensures r.Some? ==> r.value < |shifts| && shifts[r.value].status.Active? && shifts[r.value].driver == driver
    ensures r.None? ==> forall k | 0 <= k < |shifts| :: !(shifts[k].status.Active? && shifts[k].driver == driver)
  {
    if |shifts| == 0 then None
    else if shifts[|shifts| - 1].status.Active? && shifts[|shifts| - 1].driver == driver then Some(|shifts| - 1)
    else ActiveShift(shifts[..|shifts| - 1], driver)
  }

  /** An active shift of this driver at this store, under a confirmed link. */
  predicate OnShiftAt(shifts: seq<Shift>, store: nat, driver: nat, linkConfirmed: bool) {
    linkConfirmed && exists k | 0 <= k < |shifts| ::
      shifts[k].status.Active? && shifts[k].driver == driver && shifts[k].store == store
  }

  function Cleared(o: Order): Order {
    o.(requested := false, target := None, requestedDriver := None, refused := false)
  }

  function Unassigned(o: Order): Order {
    o.(driver := None, shift := None, arrived := false)
  }

  function WithOrder(f: Fleet, id: nat, o: Order): Fleet
    requires id < |f.orders|
  {
    f.(orders := f.orders[id := o])
  }

  // ----- Single orders -----

  function Accept(f: Fleet, driver: nat, id: nat): Result<Fleet, DispatchError> {
    if ActiveShift(f.shifts, driver).Some? then Err(OnShift)
    else if id >= |f.orders| then Err(Unavailable)
    else
      var o := f.orders[id];
      if o.driver.Some? || o.batch.Some? || !o.requested || o.target != Some(General) || !o.delivery
          || !Acceptable(o.status) then
        Err(Unavailable)
      else Ok(WithOrder(f, id, o.(driver := Some(driver))))
  }

  predicate Directed(target: Option<Target>, requestedDriver: Option<nat>, driver: nat) {
    target == Some(Own) || (target == Some(Specific) && requestedDriver == Some(driver))
  }

  function AcceptOnShift(f: Fleet, driver: nat, id: nat): Result<Fleet, DispatchError> {
    var shift := ActiveShift(f.shifts, driver);
    if shift.None? then Err(NotOnShift)
    else if id >= |f.orders| then Err(Unavailable)
    else
      var o := f.orders[id];
      if || o.store != f.shifts[shift.value].store || !Directed(o.target, o.requestedDriver, driver) || o.refused
         || o.driver.Some? || o.batch.Some? || !o.requested || !o.delivery || !Acceptable(o.status) then
             Err(Unavailable)
      else Ok(WithOrder(f, id, o.(driver := Some(driver), shift := shift)))
  }

  function Release(f: Fleet, driver: nat, id: nat): Result<Fleet, DispatchError> {
    if id >= |f.orders| then Err(Unavailable)
    else
      var o := f.orders[id];
      if o.driver != Some(driver) || o.batch.Some? || !Acceptable(o.status) then Err(Unavailable)
      else Ok(WithOrder(f, id, Unassigned(o)))
  }

  function RefuseDirect(f: Fleet, driver: nat, id: nat): Result<Fleet, DispatchError> {
    if id >= |f.orders| then Err(Unavailable)
    else
      var o := f.orders[id];
      if o.target != Some(Specific) || o.requestedDriver != Some(driver) || o.driver.Some? || o.batch.Some?
          || o.refused then
        Err(Unavailable)
      else Ok(WithOrder(f, id, o.(refused := true)))
  }

  function Arrive(f: Fleet, driver: nat, id: nat): Result<Fleet, DispatchError> {
    if id >= |f.orders| then Err(Unavailable)
    else
      var o := f.orders[id];
      if o.driver != Some(driver) || o.batch.Some? || o.arrived || !Acceptable(o.status) then Err(Unavailable)
      else Ok(WithOrder(f, id, o.(arrived := true)))
  }

  function Collect(f: Fleet, driver: nat, id: nat): Result<Fleet, DispatchError> {
    if id >= |f.orders| then Err(Unavailable)
    else
      var o := f.orders[id];
      if o.driver != Some(driver) || o.batch.Some? || !Collectible(o.status) then Err(Unavailable)
      else Ok(WithOrder(f, id, o.(status := OutForDelivery)))
  }

  function StoreRelease(f: Fleet, store: nat, id: nat): Result<Fleet, DispatchError> {
    if id >= |f.orders| || f.orders[id].store != store then Err(NotFound)
    else
      var o := f.orders[id];
      if o.batch.Some? then Err(InABatch)
      else if o.driver.None? || !Acceptable(o.status) then Err(WrongStatus)
      else Ok(WithOrder(f, id, Cleared(Unassigned(o)).(status := if o.status.AwaitingDriver? then Ready else o.status)))
  }

  function Complete(f: Fleet, driver: nat, id: nat): Result<Fleet, DispatchError> {
    if id >= |f.orders| || f.orders[id].driver != Some(driver) || !f.orders[id].status.OutForDelivery? then
      Err(Unavailable)
    else Ok(WithOrder(f, id, f.orders[id].(status := Delivered)))
  }

  /** A failure whose return is pending was reported before and is left as it is. */
  function Fail(f: Fleet, driver: nat, id: nat): Result<Fleet, DispatchError> {
    if id >= |f.orders| || f.orders[id].driver != Some(driver) then Err(Unavailable)
    else if f.orders[id].status.DeliveryFailed? && f.orders[id].returnPending then Ok(f)
    else if !f.orders[id].status.OutForDelivery? then Err(Unavailable)
    else Ok(WithOrder(f, id, f.orders[id].(status := DeliveryFailed, returnPending := true)))
  }

  /** A store confirms returns of its own orders, the support (no store) those of any. */
  function ConfirmReturn(f: Fleet, confirmer: Option<nat>, id: nat): Result<Fleet, DispatchError> {
    if id >= |f.orders| || (confirmer.Some? && f.orders[id].store != confirmer.value) then Err(NotFound)
    else
      var o := f.orders[id];
      if !o.status.DeliveryFailed? || !o.returnPending || o.returned then Err(WrongStatus)
      else Ok(WithOrder(f, id, o.(returned := true)))
  }

  function RequestDriver(f: Fleet, store: nat, id: nat, target: Target, wanted: Option<nat>, linkConfirmed: bool)
    : Result<Fleet, DispatchError>
  {
    if id >= |f.orders| || f.orders[id].store != store then Err(NotFound)
    else
      var o := f.orders[id];
      if !o.delivery then Err(NotADelivery)
      else if o.driver.Some? then Err(HasDriver)
      else if o.batch.Some? then Err(InABatch)
      else if !Acceptable(o.status) then Err(WrongStatus)
      else if o.target == Some(General) && !target.General? then Err(AlreadyInThePool)
      else if o.target == Some(General) then Ok(f)
      else if target.Specific? && wanted.None? then Err(DriverNotChosen)
      else if target.Specific? && !OnShiftAt(f.shifts, store, wanted.value, linkConfirmed) then Err(NotOnShift)
      else
        Ok(WithOrder(f, id, o.(requested := true, target := Some(target), refused := false,
                               requestedDriver := if target.Specific? then wanted else None,
                               status := if o.status.Ready? then AwaitingDriver else o.status)))
  }

  function WithdrawRequest(f: Fleet, store: nat, id: nat): Result<Fleet, DispatchError> {
    if id >= |f.orders| || f.orders[id].store != store then Err(NotFound)
    else
      var o := f.orders[id];
      if o.driver.Some? then Err(HasDriver)
      else if !o.requested then Err(WrongStatus)
      else Ok(WithOrder(f, id, Cleared(o).(status := if o.status.AwaitingDriver? then Ready else o.status)))
  }

  function CancelledOrder(o: Order): Order {
    o.(status := Cancelled, batch := None)
  }

  /** A customer, a store or the clock cancels. */
  function Cancel(f: Fleet, id: nat): Result<Fleet, DispatchError> {
    if id >= |f.orders| then Err(NotFound)
    else if !CanTransition(f.orders[id].status, Cancelled) then Err(WrongStatus)
    else Ok(WithOrder(f, id, CancelledOrder(f.orders[id])))
  }

  predicate StoreAllowed(to: OrderStatus) {
    to.Accepted? || to.Preparing? || to.Ready? || to.OutForDelivery? || to.Delivered? || to.Cancelled?
  }

  function StoreUpdate(f: Fleet, store: nat, id: nat, to: OrderStatus, amendmentPending: bool)
    : Result<Fleet, DispatchError>
  {
    if !StoreAllowed(to) then Err(NotForTheStore)
    else if id >= |f.orders| || f.orders[id].store != store then Err(NotFound)
    else
      var o := f.orders[id];
      if !to.Cancelled? && amendmentPending then Err(AmendmentPending)
      else if o.delivery && to.Delivered? then Err(NotForTheStore)
      else if o.delivery && o.driver.Some? && to.OutForDelivery? then Err(HasDriver)
      else if !CanTransition(o.status, to) then Err(WrongStatus)
      else if to.Cancelled? then Ok(WithOrder(f, id, CancelledOrder(o)))
      else
        var waits := to.Ready? && o.requested && o.driver.None? && o.batch.None?;
        Ok(WithOrder(f, id, o.(status := if waits then AwaitingDriver else to)))
  }

  // ----- Batches -----

  function Batched(orders: seq<Order>, ids: set<nat>, b: nat): (next: seq<Order>)
    ensures |next| == |orders|
    ensures forall i | 0 <= i < |orders| :: next[i] == if i in ids then orders[i].(batch := Some(b)) else orders[i]
  {
    seq(|orders|, i requires 0 <= i < |orders| => if i in ids then orders[i].(batch := Some(b)) else orders[i])
  }

  predicate MayJoin(o: Order, store: nat) {
    o.store == store && o.delivery && o.driver.None? && o.batch.None? && Batchable(o.status)
  }

  function CreateBatch(f: Fleet, store: nat, ids: set<nat>): Result<Fleet, DispatchError> {
    if |ids| < 2 then Err(TooFewOrders)
    else if exists id | id in ids :: id >= |f.orders| || f.orders[id].store != store then Err(NotFound)
    else if exists id | id in ids :: !MayJoin(f.orders[id], store) then Err(Unavailable)
    else
      Ok(f.(orders := Batched(f.orders, ids, |f.batches|),
            batches := f.batches + [Batch(store, None, Open, General, None, false)]))
  }

  predicate In(o: Order, b: nat) {
    o.batch == Some(b)
  }

  predicate HasTwo(orders: seq<Order>, b: nat) {
    exists i, j | 0 <= i < j < |orders| :: In(orders[i], b) && In(orders[j], b)
  }

  predicate HasAny(orders: seq<Order>, b: nat) {
    exists i | 0 <= i < |orders| :: In(orders[i], b)
  }

  predicate Mutable(b: Batch) {
    b.status.Open? || b.status.Broadcast?
  }

  function Requested(orders: seq<Order>, b: nat, target: Target): (next: seq<Order>)
    ensures |next| == |orders|
    ensures forall i | 0 <= i < |orders| ::
              next[i] == if In(orders[i], b) then Cleared(orders[i]).(requested := true, target := Some(target))
                         else orders[i]
  {
    seq(|orders|, i requires 0 <= i < |orders| =>
      if In(orders[i], b) then Cleared(orders[i]).(requested := true, target := Some(target)) else orders[i])
  }

  function BroadcastBatch(f: Fleet, store: nat, b: nat, target: Target, wanted: Option<nat>, linkConfirmed: bool)
    : Result<Fleet, DispatchError>
  {
    if b >= |f.batches| || f.batches[b].store != store then Err(NotFound)
    else
      var batch := f.batches[b];
      if !Mutable(batch) then Err(WrongStatus)
      else if batch.status.Broadcast? && batch.target.General? && !target.General? then Err(AlreadyInThePool)
      else if target.Specific? && wanted.None? then Err(DriverNotChosen)
      else if target.Specific? && !OnShiftAt(f.shifts, store, wanted.value, linkConfirmed) then Err(NotOnShift)
      else if !HasTwo(f.orders, b) then Err(TooFewOrders)
      else if batch.driver.Some? then Err(Unavailable)
      else
        Ok(f.(batches := f.batches[b := batch.(status := Broadcast, target := target, refused := false,
                                               requestedDriver := if target.Specific? then wanted else None)],
              orders := Requested(f.orders, b, target)))
  }

  function Unbatched(orders: seq<Order>, b: nat): (next: seq<Order>)
    ensures |next| == |orders|
    ensures forall i | 0 <= i < |orders| ::
              next[i] == if In(orders[i], b) then Cleared(orders[i]).(batch := None, shift := None) else orders[i]
  {
    seq(|orders|, i requires 0 <= i < |orders| =>
      if In(orders[i], b) then Cleared(orders[i]).(batch := None, shift := None) else orders[i])
  }

  function CancelBatch(f: Fleet, store: nat, b: nat): Result<Fleet, DispatchError> {
    if b >= |f.batches| || f.batches[b].store != store then Err(NotFound)
    else if !Mutable(f.batches[b]) then Err(WrongStatus)
    else Ok(f.(orders := Unbatched(f.orders, b), batches := f.batches[b := f.batches[b].(status := Withdrawn)]))
  }

  function Assigned(orders: seq<Order>, b: nat, driver: Option<nat>, shift: Option<nat>): (next: seq<Order>)
    ensures |next| == |orders|
    ensures forall i | 0 <= i < |orders| ::
              next[i] == if In(orders[i], b) then orders[i].(driver := driver, shift := shift) else orders[i]
  {
    seq(|orders|, i requires 0 <= i < |orders| =>
      if In(orders[i], b) then orders[i].(driver := driver, shift := shift) else orders[i])
  }

  predicate Offered(batch: Batch, shift: Option<Shift>, driver: nat) {
    && batch.driver.None? && batch.status.Broadcast?
    && if shift.Some? then batch.store == shift.value.store && !batch.refused
        && Directed(Some(batch.target), batch.requestedDriver, driver)
       else batch.target.General?
  }

  function AcceptBatch(f: Fleet, driver: nat, b: nat, available: bool): Result<Fleet, DispatchError> {
    var k := ActiveShift(f.shifts, driver);
    var shift := if k.Some? then Some(f.shifts[k.value]) else None;
    if k.None? && !available then Err(Unavailable)
    else if b >= |f.batches| || !Offered(f.batches[b], shift, driver) then Err(Unavailable)
    else if !HasAny(f.orders, b) then Err(TooFewOrders)
    else
      Ok(f.(batches := f.batches[b := f.batches[b].(driver := Some(driver), status := Taken)],
            orders := Assigned(f.orders, b, Some(driver), k)))
  }

  predicate HeldBy(f: Fleet, driver: nat, b: nat) {
    b < |f.batches| && f.batches[b].driver == Some(driver) && f.batches[b].status.Taken?
  }

  function ReleaseBatch(f: Fleet, driver: nat, b: nat): Result<Fleet, DispatchError> {
    if !HeldBy(f, driver, b) then Err(Unavailable)
    else
      Ok(f.(batches := f.batches[b := f.batches[b].(driver := None, status := Broadcast)],
            orders := Assigned(f.orders, b, None, None)))
  }

  function RefuseBatch(f: Fleet, driver: nat, b: nat): Result<Fleet, DispatchError> {
    if b >= |f.batches| then Err(Unavailable)
    else
      var batch := f.batches[b];
      if !batch.status.Broadcast? || !batch.target.Specific? || batch.requestedDriver != Some(driver)
          || batch.driver.Some? || batch.refused then
        Err(Unavailable)
      else Ok(f.(batches := f.batches[b := batch.(refused := true)]))
  }

  function SentOut(orders: seq<Order>, b: nat): (next: seq<Order>)
    ensures |next| == |orders|
    ensures forall i | 0 <= i < |orders| ::
              next[i] == if In(orders[i], b) then orders[i].(status := OutForDelivery) else orders[i]
  {
    seq(|orders|, i requires 0 <= i < |orders| =>
      if In(orders[i], b) then orders[i].(status := OutForDelivery) else orders[i])
  }

  function CollectBatch(f: Fleet, driver: nat, b: nat): Result<Fleet, DispatchError> {
    if !HeldBy(f, driver, b) then Err(NotFound)
    else if !HasAny(f.orders, b) then Err(TooFewOrders)
    else if exists i | 0 <= i < |f.orders| :: In(f.orders[i], b) && !f.orders[i].status.Ready? then Err(WrongStatus)
    else Ok(f.(orders := SentOut(f.orders, b), batches := f.batches[b := f.batches[b].(status := Collected)]))
  }

  // ----- Shifts -----

  predicate PoolWork(o: Order, driver: nat) {
    o.driver == Some(driver) && o.shift.None? && Ongoing(o.status)
  }

  function StartShift(f: Fleet, store: nat, driver: nat): Result<Fleet, DispatchError> {
    if exists i | 0 <= i < |f.orders| :: PoolWork(f.orders[i], driver) then Err(PoolOrdersOpen)
    else if ActiveShift(f.shifts, driver).Some? then Err(OnShift)
    else Ok(f.(shifts := f.shifts + [Shift(store, driver, Active)]))
  }

  /** The driver ends it and waits for the store, or the store closes it at once. */
  function EndShift(f: Fleet, k: nat, to: ShiftStatus): Result<Fleet, DispatchError>
    requires !to.Active?
  {
    if k >= |f.shifts| || !f.shifts[k].status.Active? then Err(NotFound)
    else if exists i | 0 <= i < |f.orders| :: f.orders[i].shift == Some(k) && !Finished(f.orders[i]) then
      Err(OrdersUnfinished)
    else Ok(f.(shifts := f.shifts[k := f.shifts[k].(status := to)]))
  }

  function DecideShift(f: Fleet, k: nat): Result<Fleet, DispatchError> {
    if k >= |f.shifts| || !f.shifts[k].status.Waiting? then Err(NotFound)
    else Ok(f.(shifts := f.shifts[k := f.shifts[k].(status := Closed)]))
  }

  function ReopenShift(f: Fleet, k: nat): Result<Fleet, DispatchError> {
    if k >= |f.shifts| || !f.shifts[k].status.Waiting? then Err(NotFound)
    else if ActiveShift(f.shifts, f.shifts[k].driver).Some? then Err(OnShift)
    else Ok(f.(shifts := f.shifts[k := f.shifts[k].(status := Active)]))
  }
}

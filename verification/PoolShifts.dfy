/** Deliveries from the general pool and deliveries on a shift, which a driver is not to mix. */
module PoolShifts {
  import opened Dispatch
  import opened DispatchRuns
  import opened OrderStatuses
  import opened Wrappers

  predicate HasPoolWork(f: Fleet, driver: nat) {
    exists i | 0 <= i < |f.orders| :: PoolWork(f.orders[i], driver)
  }

  /** On shift, a driver has nothing under way from the general pool. */
  predicate Separate(f: Fleet, driver: nat) {
    ActiveShift(f.shifts, driver).Some? ==> !HasPoolWork(f, driver)
  }

  /** The driver takes up an ended shift again, with orders from the pool in hand. */
  predicate Mixes(f: Fleet, e: Event, driver: nat) {
    e.ReopensShift? && ReopenShift(f, e.shift).Ok? && f.shifts[e.shift].driver == driver && HasPoolWork(f, driver)
  }

  // ----- Nothing comes from the pool during a shift -----

  /** Only accepting from the pool creates pool work, and a driver on shift cannot. */
  lemma OrderStepAddsNoPoolWork(f: Fleet, e: Event, driver: nat)
    requires IsOrderEvent(e) && OrderStep(f, e).Ok? && Coherent(f) && ActiveShift(f.shifts, driver).Some?
    ensures e.id < |f.orders|
    ensures PoolWork(OrderStep(f, e).value.orders[e.id], driver) ==> PoolWork(f.orders[e.id], driver)
  {
    OrderStepIsLocal(f, e);
    assert OrderOk(f.orders[e.id], f.batches, f.shifts);
  }

  /** A batch that is taken on shift is taken into the shift; one that nobody holds has orders that nobody holds. */
  lemma BatchStepAddsNoPoolWork(f: Fleet, e: Event, driver: nat, id: nat)
    requires IsBatchEvent(e) && BatchStep(f, e).Ok? && Coherent(f) && ActiveShift(f.shifts, driver).Some?
    requires id < |f.orders|
    ensures |BatchStep(f, e).value.orders| == |f.orders|
    ensures PoolWork(BatchStep(f, e).value.orders[id], driver) ==> PoolWork(f.orders[id], driver)
  {
    assert OrderOk(f.orders[id], f.batches, f.shifts);
    if e.CancelsBatch? {
      assert BatchOk(f.batches[e.batch]);
    }
  }

  /** Whatever happens, a driver on shift gets no more work from the pool than there was. */
  lemma ShiftsAddNoPoolWork(f: Fleet, e: Event, driver: nat)
    requires Coherent(f) && ActiveShift(f.shifts, driver).Some? && HasPoolWork(Next(f, e), driver)
    ensures HasPoolWork(f, driver)
  {
    var id :| 0 <= id < |Next(f, e).orders| && PoolWork(Next(f, e).orders[id], driver);
    if IsOrderEvent(e) && OrderStep(f, e).Ok? {
      OrderStepIsLocal(f, e);
      OrderStepAddsNoPoolWork(f, e, driver);
      assert PoolWork(f.orders[id], driver);
    } else if IsBatchEvent(e) && BatchStep(f, e).Ok? {
      BatchStepKeepsCount(f, e);
      BatchStepAddsNoPoolWork(f, e, driver, id);
      assert PoolWork(f.orders[id], driver);
    } else {
      assert id < |f.orders| && PoolWork(f.orders[id], driver);
    }
  }

  lemma BatchStepKeepsCount(f: Fleet, e: Event)
    requires IsBatchEvent(e) && BatchStep(f, e).Ok?
    ensures |BatchStep(f, e).value.orders| == |f.orders| && BatchStep(f, e).value.shifts == f.shifts
  {
  }

  // ----- The one step that mixes -----

  /** Only a start or a reopening brings a driver on shift. */
  lemma ComingOnShift(f: Fleet, e: Event, driver: nat)
    requires ActiveShift(f.shifts, driver).None? && ActiveShift(Next(f, e).shifts, driver).Some?
    ensures Next(f, e).orders == f.orders
    ensures || (e.StartsShift? && e.driver == driver && StartShift(f, e.store, e.driver).Ok?)
            || (e.ReopensShift? && ReopenShift(f, e.shift).Ok? && f.shifts[e.shift].driver == driver)
  {
    if IsOrderEvent(e) {
      if OrderStep(f, e).Ok? {
        OrderStepIsLocal(f, e);
      }
      assert false;
    } else if IsBatchEvent(e) {
      if BatchStep(f, e).Ok? {
        BatchStepKeepsCount(f, e);
      }
      assert false;
    } else {
      var k := ActiveShift(Next(f, e).shifts, driver).value;
      assert k < |f.shifts| ==> !(f.shifts[k].status.Active? && f.shifts[k].driver == driver);
    }
  }

  lemma ReopenedIsOnShift(f: Fleet, k: nat)
    requires ReopenShift(f, k).Ok?
    ensures ActiveShift(ReopenShift(f, k).value.shifts, f.shifts[k].driver).Some?
  {
    var s := ReopenShift(f, k).value.shifts[k];
    assert s.status.Active? && s.driver == f.shifts[k].driver;
  }

  /**
   * Reopening is what makes the difference, and exactly when the driver has pool orders in hand: then a start would
   * have been refused.
   */
  lemma SeparatedUnlessReopened(f: Fleet, e: Event, driver: nat)
    requires Coherent(f) && Separate(f, driver)
    ensures Separate(Next(f, e), driver) <==> !Mixes(f, e, driver)
    ensures Mixes(f, e, driver) ==> StartShift(f, f.shifts[e.shift].store, driver) == Err(PoolOrdersOpen)
  {
    if Mixes(f, e, driver) {
      ReopenedIsOnShift(f, e.shift);
      var id :| 0 <= id < |f.orders| && PoolWork(f.orders[id], driver);
      assert PoolWork(Next(f, e).orders[id], driver);
    } else if ActiveShift(Next(f, e).shifts, driver).Some? {
      if ActiveShift(f.shifts, driver).None? {
        ComingOnShift(f, e, driver);
      } else if HasPoolWork(Next(f, e), driver) {
        ShiftsAddNoPoolWork(f, e, driver);
        assert false;
      }
    }
  }

  // ----- Runs -----

  lemma RunPrefix(events: seq<Event>, n: nat)
    requires n < |events|
    ensures Run(events[..n + 1]) == Next(Run(events[..n]), events[n])
  {
    assert events[..n + 1][..n] == events[..n];
  }

  lemma {:induction false} StaysSeparate(events: seq<Event>, m: nat, n: nat, driver: nat)
    requires m <= n <= |events| && Separate(Run(events[..m]), driver)
    requires forall j | m <= j < n :: !Mixes(Run(events[..j]), events[j], driver)
    ensures Separate(Run(events[..n]), driver)
  {
    if m < n {
      StaysSeparate(events, m, n - 1, driver);
      RunsStayCoherent(events[..n - 1]);
      RunPrefix(events, n - 1);
      SeparatedUnlessReopened(Run(events[..n - 1]), events[n - 1], driver);
    }
  }

  /**
   * Over every run, and for every driver: from the beginning, and from any moment at which they are apart, shifts and
   * pool stay apart if and only if no ended shift is taken up again with pool orders in hand.
   */
  lemma ShiftOrPool(events: seq<Event>, m: nat, driver: nat)
    requires m <= |events| && (m == 0 || Separate(Run(events[..m]), driver))
    ensures (forall n | m <= n <= |events| :: Separate(Run(events[..n]), driver)) <==>
            (forall j | m <= j < |events| :: !Mixes(Run(events[..j]), events[j], driver))
  {
    assert m == 0 ==> Run(events[..m]) == Fleet([], [], []);
    if forall j | m <= j < |events| :: !Mixes(Run(events[..j]), events[j], driver) {
      forall n | m <= n <= |events| ensures Separate(Run(events[..n]), driver) {
        StaysSeparate(events, m, n, driver);
      }
    }
    if forall n | m <= n <= |events| :: Separate(Run(events[..n]), driver) {
      forall j | m <= j < |events| ensures !Mixes(Run(events[..j]), events[j], driver) {
        RunsStayCoherent(events[..j]);
        RunPrefix(events, j);
        assert Separate(Run(events[..j + 1]), driver);
        SeparatedUnlessReopened(Run(events[..j]), events[j], driver);
      }
    }
  }

  // ----- A driver on shift with an order from the pool -----

  function Parcel(status: OrderStatus, asked: bool, driver: Option<nat>): Order {
    var target := if asked then Some(General) else None;
    Order(0, status, true, driver, None, None, asked, target, None, false, false, false, false)
  }

  /** A driver ends a shift, takes an order from the pool, and comes back to the shift. */
  function Script(): seq<Event> {
    [StartsShift(0, 1), EndsShift(0, false), Places(Parcel(Pending, false, None)), Updates(0, 0, Accepted, false),
     Requests(0, 0, General, None, true), Accepts(1, 0), ReopensShift(0)]
  }

  function Stage(n: nat): Fleet {
    var on, off := [Shift(0, 1, Active)], [Shift(0, 1, Waiting)];
    if n == 0 then Fleet([], [], [])
    else if n == 1 then Fleet([], [], on)
    else if n == 2 then Fleet([], [], off)
    else if n == 3 then Fleet([Parcel(Pending, false, None)], [], off)
    else if n == 4 then Fleet([Parcel(Accepted, false, None)], [], off)
    else if n == 5 then Fleet([Parcel(Accepted, true, None)], [], off)
    else if n == 6 then Fleet([Parcel(Accepted, true, Some(1))], [], off)
    else Fleet([Parcel(Accepted, true, Some(1))], [], on)
  }

  lemma ScriptStep(n: nat)
    requires n < 7
    ensures |Script()| == 7 && Next(Stage(n), Script()[n]) == Stage(n + 1)
  {
    assert Next(Stage(n), Script()[n]).orders == Stage(n + 1).orders;
    assert Next(Stage(n), Script()[n]).shifts == Stage(n + 1).shifts;
  }

  lemma {:induction false} ScriptRuns(n: nat)
    requires n <= 7
    ensures |Script()| == 7 && Run(Script()[..n]) == Stage(n)
  {
    if n > 0 {
      ScriptRuns(n - 1);
      ScriptStep(n - 1);
      RunPrefix(Script(), n - 1);
    }
  }

  /** The last of these events mixes: the driver is then on shift with an order from the pool. */
  lemma ReopenedWithPoolWork()
    ensures var f := Run(Script());
            && |f.shifts| == 1 && f.shifts[0].status.Active? && |f.orders| == 1
            && PoolWork(f.orders[0], f.shifts[0].driver) && !Separate(f, f.shifts[0].driver)
    ensures |Script()| == 7 && Mixes(Run(Script()[..6]), Script()[6], 1)
  {
    ScriptRuns(6);
    ScriptRuns(7);
    assert Script()[..7] == Script();
    assert PoolWork(Stage(6).orders[0], 1);
    assert ActiveShift(Stage(7).shifts, 1).Some?;
  }
}

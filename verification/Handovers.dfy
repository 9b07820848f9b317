/** How orders change hands in dispatch, and that the ledger's steps allow for all of it. */
module Handovers {
  import opened Dispatch
  import opened DispatchRuns
  import L = Ledger
  import LR = LedgerRuns
  import opened OrderStatuses
  import opened Wrappers

  // ----- Every change of hands is a step of the ledger model -----

  /** In a batch that may still be released. */
  predicate Loose(f: Fleet, o: Order) {
    o.batch.Some? && (o.batch.value < |f.batches| ==> !f.batches[o.batch.value].status.Collected?)
  }

  datatype Hands = Hands(driver: Option<nat>, shift: Option<nat>, batched: bool)

  function HandsOf(f: Fleet, id: nat): Hands
    requires id < |f.orders|
  {
    Hands(f.orders[id].driver, f.orders[id].shift, Loose(f, f.orders[id]))
  }

  function BookedHands(o: L.Order): Hands {
    Hands(o.driver, o.shift, o.batched)
  }

  predicate Finishing(s: OrderStatus) {
    s.Delivered? || s.DeliveryFailed?
  }

  /** The step of the ledger model by which a finished order goes from one pair of hands to the other. */
  function MirrorStep(id: nat, was: Hands, now: Hands): Option<LR.Step> {
    if was == now then None
    else if now.batched then Some(LR.Reassigns(id, now.driver, now.shift))
    else Some(LR.Unbatches(id))
  }

  function Mirrored(b: LR.Books, step: Option<LR.Step>): LR.Books {
    if step.None? then b else LR.Next(b, step.value)
  }

  lemma OrderStepKeepsHands(f: Fleet, e: Event, id: nat)
    requires IsOrderEvent(e) && OrderStep(f, e).Ok? && id < |f.orders| && Finishing(f.orders[id].status)
    ensures id < |OrderStep(f, e).value.orders| && HandsOf(OrderStep(f, e).value, id) == HandsOf(f, id)
  {
    OrderStepIsLocal(f, e);
  }

  /** A finished order stays where it is, is passed on within its batch, or leaves the batch without a shift. */
  predicate Moves(was: Hands, now: Hands) {
    || was == now
    || (was.batched && now.batched)
    || (was.batched && now == Hands(was.driver, None, false))
  }

  lemma BatchingKeepsHands(f: Fleet, e: Event, id: nat)
    requires (e.CreatesBatch? || e.Broadcasts? || e.RefusesBatch?) && BatchStep(f, e).Ok?
    requires id < |f.orders| && OrderOk(f.orders[id], f.batches, f.shifts) && Finishing(f.orders[id].status)
    ensures id < |BatchStep(f, e).value.orders| && HandsOf(BatchStep(f, e).value, id) == HandsOf(f, id)
  {
    if e.CreatesBatch? {
      assert forall x | x in e.ids :: MayJoin(f.orders[x], e.store);
    }
  }

  lemma CollectingKeepsHands(f: Fleet, driver: nat, b: nat, id: nat)
    requires CollectBatch(f, driver, b).Ok? && id < |f.orders| && Finishing(f.orders[id].status)
    ensures id < |CollectBatch(f, driver, b).value.orders|
              && HandsOf(CollectBatch(f, driver, b).value, id) == HandsOf(f, id)
  {
    assert !In(f.orders[id], b);
  }

  lemma CancellingMovesHands(f: Fleet, store: nat, b: nat, id: nat)
    requires CancelBatch(f, store, b).Ok? && id < |f.orders|
    ensures id < |CancelBatch(f, store, b).value.orders|
    ensures Moves(HandsOf(f, id), HandsOf(CancelBatch(f, store, b).value, id))
  {
  }

  lemma AcceptingMovesHands(f: Fleet, driver: nat, b: nat, available: bool, id: nat)
    requires AcceptBatch(f, driver, b, available).Ok? && id < |f.orders|
    ensures id < |AcceptBatch(f, driver, b, available).value.orders|
    ensures Moves(HandsOf(f, id), HandsOf(AcceptBatch(f, driver, b, available).value, id))
  {
  }

  lemma ReleasingMovesHands(f: Fleet, driver: nat, b: nat, id: nat)
    requires ReleaseBatch(f, driver, b).Ok? && id < |f.orders|
    ensures id < |ReleaseBatch(f, driver, b).value.orders|
    ensures Moves(HandsOf(f, id), HandsOf(ReleaseBatch(f, driver, b).value, id))
  {
  }

  lemma BatchStepMovesHands(f: Fleet, e: Event, id: nat)
    requires Coherent(f) && IsBatchEvent(e) && BatchStep(f, e).Ok? && id < |f.orders| && Finishing(f.orders[id].status)
    ensures id < |BatchStep(f, e).value.orders| && Moves(HandsOf(f, id), HandsOf(BatchStep(f, e).value, id))
  {
    assert OrderOk(f.orders[id], f.batches, f.shifts);
    if e.CreatesBatch? || e.Broadcasts? || e.RefusesBatch? {
      BatchingKeepsHands(f, e, id);
    } else if e.CollectsBatch? {
      CollectingKeepsHands(f, e.driver, e.batch, id);
    } else if e.CancelsBatch? {
      CancellingMovesHands(f, e.store, e.batch, id);
    } else if e.AcceptsBatch? {
      AcceptingMovesHands(f, e.driver, e.batch, e.available, id);
    } else {
      ReleasingMovesHands(f, e.driver, e.batch, id);
    }
  }

  lemma FinishedHandsMove(f: Fleet, e: Event, id: nat)
    requires Coherent(f) && id < |f.orders| && Finishing(f.orders[id].status)
    ensures id < |Next(f, e).orders| && Moves(HandsOf(f, id), HandsOf(Next(f, e), id))
  {
    if IsOrderEvent(e) && OrderStep(f, e).Ok? {
      OrderStepKeepsHands(f, e, id);
    } else if IsBatchEvent(e) && BatchStep(f, e).Ok? {
      BatchStepMovesHands(f, e, id);
    }
  }

  lemma MirrorMoves(b: LR.Books, id: nat, was: Hands, now: Hands)
    requires id < |b.orders| && !b.orders[id].progress.Underway? && BookedHands(b.orders[id]) == was && Moves(was, now)
    ensures var next := Mirrored(b, MirrorStep(id, was, now));
            && id < |next.orders| && BookedHands(next.orders[id]) == now
            && next.orders[id].progress == b.orders[id].progress && next.ledger == b.ledger
  {
  }

  /**
   * Whatever dispatch does to a delivered or failed order, at most one step of the ledger model on that order leaves it
   * in the same hands.
   */
  lemma LedgerFollowsDispatch(f: Fleet, e: Event, id: nat, b: LR.Books)
    requires Coherent(f) && id < |f.orders| && Finishing(f.orders[id].status)
    requires id < |b.orders| && !b.orders[id].progress.Underway? && BookedHands(b.orders[id]) == HandsOf(f, id)
    ensures id < |Next(f, e).orders|
    ensures var next := Mirrored(b, MirrorStep(id, HandsOf(f, id), HandsOf(Next(f, e), id)));
            && id < |next.orders| && BookedHands(next.orders[id]) == HandsOf(Next(f, e), id)
            && next.orders[id].progress == b.orders[id].progress && next.ledger == b.ledger
  {
    FinishedHandsMove(f, e, id);
    MirrorMoves(b, id, HandsOf(f, id), HandsOf(Next(f, e), id));
  }

  lemma OrderStepFinishesInHand(f: Fleet, e: Event)
    requires IsOrderEvent(e) && OrderStep(f, e).Ok?
    ensures e.id < |f.orders|
    ensures !Finishing(f.orders[e.id].status) && Finishing(OrderStep(f, e).value.orders[e.id].status) ==>
              HandsOf(OrderStep(f, e).value, e.id) == HandsOf(f, e.id)
  {
    OrderStepIsLocal(f, e);
  }

  /** The step that delivers or fails an order leaves it in the hands it was in. */
  lemma FinishingKeepsHands(f: Fleet, e: Event, id: nat)
    requires id < |f.orders| && id < |Next(f, e).orders|
    requires !Finishing(f.orders[id].status) && Finishing(Next(f, e).orders[id].status)
    ensures HandsOf(Next(f, e), id) == HandsOf(f, id)
  {
    if IsOrderEvent(e) && OrderStep(f, e).Ok? {
      OrderStepIsLocal(f, e);
      OrderStepFinishesInHand(f, e);
    } else if IsBatchEvent(e) && BatchStep(f, e).Ok? {
      BatchStepFollows(f, e, id);
      BatchStepFinishesNothing(f, e, id);
    }
  }

  lemma BatchStepFinishesNothing(f: Fleet, e: Event, id: nat)
    requires IsBatchEvent(e) && BatchStep(f, e).Ok? && id < |f.orders|
    ensures |BatchStep(f, e).value.orders| == |f.orders|
    ensures Finishing(BatchStep(f, e).value.orders[id].status) ==> Finishing(f.orders[id].status)
  {
  }

  /**
   * Until then, and as long as it is in no loose batch, its shift is one of its store and driver, as the ledger
   * asks.
   */
  lemma HandsAgreeWithTheLedger(f: Fleet, id: nat, o: L.Order, shifts: seq<L.WorkShift>)
    requires Coherent(f) && id < |f.orders| && BookedHands(o) == HandsOf(f, id) && o.store == f.orders[id].store
    requires |shifts| == |f.shifts|
    requires forall k | 0 <= k < |shifts| ::
              shifts[k].store == f.shifts[k].store && shifts[k].driver == f.shifts[k].driver
    ensures LR.Agrees(o, shifts)
  {
    assert OrderOk(f.orders[id], f.batches, f.shifts);
  }

  // ----- A delivered order that is handed over -----

  function Parcel(status: OrderStatus, driver: Option<nat>, shift: Option<nat>, batch: Option<nat>,
                  asked: bool): Order {
    var target := if asked then Some(Own) else None;
    Order(0, status, true, driver, shift, batch, asked, target, None, false, false, false, false)
  }

  function Package(driver: Option<nat>, status: BatchStatus, target: Target): Batch {
    Batch(0, driver, status, target, None, false)
  }

  function OnDuty(driver: nat): Shift {
    Shift(0, driver, Active)
  }

  /**
   * Two drivers on shift, two orders in a batch, and a store that sends one of them out before anybody took the
   * batch.
   */
  function Script(): seq<Event> {
    [StartsShift(0, 1), StartsShift(0, 2), Places(Parcel(Pending, None, None, None, false)),
     Places(Parcel(Pending, None, None, None, false)), Updates(0, 0, Accepted, false), Updates(0, 1, Accepted, false),
     Updates(0, 0, Preparing, false), Updates(0, 0, Ready, false), CreatesBatch(0, {0, 1}),
     Broadcasts(0, 0, Own, None, true), Updates(0, 0, OutForDelivery, false), AcceptsBatch(1, 0, true),
     Completes(1, 0), ReleasesBatch(1, 0), AcceptsBatch(2, 0, true)]
  }

  /** The fleet after the first `n` events of the script. */
  function Stage(n: nat): Fleet {
    var both := [OnDuty(1), OnDuty(2)];
    var placed := Parcel(Pending, None, None, None, false);
    var other := Parcel(Accepted, None, None, None, false);
    if n == 0 then Fleet([], [], [])
    else if n == 1 then Fleet([], [], [OnDuty(1)])
    else if n == 2 then Fleet([], [], both)
    else if n == 3 then Fleet([placed], [], both)
    else if n == 4 then Fleet([placed, placed], [], both)
    else if n == 5 then Fleet([other, placed], [], both)
    else if n == 6 then Fleet([other, other], [], both)
    else if n == 7 then Fleet([Parcel(Preparing, None, None, None, false), other], [], both)
    else if n == 8 then Fleet([Parcel(Ready, None, None, None, false), other], [], both)
    else if n == 9 then Packed(Ready, None, None, Open, General, false)
    else if n == 10 then Packed(Ready, None, None, Broadcast, Own, true)
    else if n == 11 then Packed(OutForDelivery, None, None, Broadcast, Own, true)
    else if n == 12 then Packed(OutForDelivery, Some(1), Some(0), Taken, Own, true)
    else if n == 13 then Packed(Delivered, Some(1), Some(0), Taken, Own, true)
    else if n == 14 then Packed(Delivered, None, None, Broadcast, Own, true)
    else Packed(Delivered, Some(2), Some(1), Taken, Own, true)
  }

  function Packed(first: OrderStatus, driver: Option<nat>, shift: Option<nat>, status: BatchStatus, target: Target,
      asked: bool)
    : Fleet
  {
    Fleet([Parcel(first, driver, shift, Some(0), asked), Parcel(Accepted, driver, shift, Some(0), asked)],
          [Package(driver, status, target)], [OnDuty(1), OnDuty(2)])
  }

  lemma ScriptBegins(n: nat)
    requires n < 4
    ensures Next(Stage(n), Script()[n]) == Stage(n + 1)
  {
  }

  lemma ScriptPrepares(n: nat)
    requires 4 <= n < 8
    ensures Next(Stage(n), Script()[n]) == Stage(n + 1)
  {
    assert Next(Stage(n), Script()[n]).orders == Stage(n + 1).orders;
  }

  lemma ScriptPacks()
    ensures Next(Stage(8), Script()[8]) == Stage(9)
  {
    var f := Stage(8);
    assert |{0, 1}| == 2;
    assert CreateBatch(f, 0, {0, 1}).Ok?;
    assert CreateBatch(f, 0, {0, 1}).value.orders == Stage(9).orders;
  }

  lemma ScriptBroadcasts()
    ensures Next(Stage(9), Script()[9]) == Stage(10)
  {
    var f := Stage(9);
    assert In(f.orders[0], 0) && In(f.orders[1], 0);
    assert BroadcastBatch(f, 0, 0, Own, None, true).value.orders == Stage(10).orders;
  }

  lemma ScriptSendsOut()
    ensures Next(Stage(10), Script()[10]) == Stage(11)
  {
    assert Next(Stage(10), Script()[10]).orders == Stage(11).orders;
  }

  lemma ActiveOne(driver: nat)
    requires driver == 1 || driver == 2
    ensures ActiveShift([OnDuty(1), OnDuty(2)], driver) == Some(driver - 1)
  {
  }

  lemma ScriptIsAccepted(driver: nat, before: nat)
    requires (driver == 1 && before == 11) || (driver == 2 && before == 14)
    ensures var r := AcceptBatch(Stage(before), driver, 0, true); r == Ok(Stage(before + 1))
  {
    var f := Stage(before);
    ActiveOne(driver);
    assert In(f.orders[0], 0);
    assert HasAny(f.orders, 0);
    assert f.batches[0 := f.batches[0].(driver := Some(driver), status := Taken)] == Stage(before + 1).batches;
    assert Assigned(f.orders, 0, Some(driver), Some(driver - 1)) == Stage(before + 1).orders;
  }

  lemma ScriptDeliversAndReleases(n: nat)
    requires n == 12 || n == 13
    ensures Next(Stage(n), Script()[n]) == Stage(n + 1)
  {
    assert Next(Stage(n), Script()[n]).orders == Stage(n + 1).orders;
  }

  lemma ScriptStep(n: nat)
    requires n < 15
    ensures |Script()| == 15 && Next(Stage(n), Script()[n]) == Stage(n + 1)
  {
    if n < 4 {
      ScriptBegins(n);
    } else if n < 8 {
      ScriptPrepares(n);
    } else if n == 8 {
      ScriptPacks();
    } else if n == 9 {
      ScriptBroadcasts();
    } else if n == 10 {
      ScriptSendsOut();
    } else if n == 12 || n == 13 {
      ScriptDeliversAndReleases(n);
    } else {
      ScriptIsAccepted(if n == 11 then 1 else 2, n);
    }
  }

  lemma {:induction false} ScriptRuns(events: seq<Event>, n: nat)
    requires |events| == 15 && events == Script() && n <= 15
    ensures Run(events[..n]) == Stage(n)
  {
    if n > 0 {
      ScriptRuns(events, n - 1);
      assert events[..n][..n - 1] == events[..n - 1];
      ScriptStep(n - 1);
    }
  }

  /** An order delivered in one shift that is, still delivered, another shift's. */
  predicate ChangedShift(early: Fleet, late: Fleet, id: nat) {
    && id < |early.orders| && id < |late.orders|
    && early.orders[id].status.Delivered? && early.orders[id].shift.Some?
    && late.orders[id].status.Delivered? && late.orders[id].shift.Some?
    && early.orders[id].shift != late.orders[id].shift
  }

  lemma PackageChangedShift()
    ensures ChangedShift(Stage(13), Stage(15), 0)
    ensures Stage(13).orders[0].shift == Some(0) && Stage(15).orders[0].shift == Some(1)
  {
  }

  /** A run of dispatch in which an order delivered in the first shift ends up, still delivered, in the second. */
  lemma DeliveredOrderIsHandedOver(events: seq<Event>)
    requires |events| == 15 && events == Script()
    ensures ChangedShift(Run(events[..13]), Run(events), 0)
    ensures Run(events[..13]).orders[0].shift == Some(0) && Run(events).orders[0].shift == Some(1)
  {
    ScriptRuns(events, 13);
    ScriptRuns(events, 15);
    assert events[..15] == events;
    PackageChangedShift();
  }
}

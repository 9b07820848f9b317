/**
 * Dispatch and the ledger together: every run of dispatch, with terms, dailies and prices changing in between, is
 * booked by a run of the ledger in which each order has the same hands at every moment.
 */
module Bookkeeping {
  import opened Dispatch
  import opened DispatchRuns
  import opened Handovers
  import L = Ledger
  import LR = LedgerRuns
  import opened Wrappers

  // ----- Which state of the ledger goes with which state of dispatch -----

  datatype Phase = Ahead | Arrived | Astray | BroughtBack

  function PhaseOf(o: Order): Phase {
    if o.status.Delivered? then Arrived
    else if o.returned then BroughtBack
    else if o.status.DeliveryFailed? then Astray
    else Ahead
  }

  function BookedPhase(p: L.Progress): Phase {
    match p
    case Underway => Ahead
    case Delivered(_) => Arrived
    case Failed(_) => Astray
    case Returned(_) => BroughtBack
  }

  predicate SamePhase(o: Order, booked: L.Order) {
    PhaseOf(o) == BookedPhase(booked.progress) && o.store == booked.store
  }

  predicate SameShift(s: Shift, booked: L.WorkShift) {
    s.store == booked.store && s.driver == booked.driver && (s.status.Active? <==> booked.active)
  }

  ghost predicate SameShifts(f: Fleet, b: LR.Books) {
    |b.shifts| == |f.shifts| && forall k | 0 <= k < |f.shifts| :: SameShift(f.shifts[k], b.shifts[k])
  }

  ghost predicate SamePhases(f: Fleet, b: LR.Books) {
    |b.orders| == |f.orders| && forall id | 0 <= id < |f.orders| :: SamePhase(f.orders[id], b.orders[id])
  }

  /** What is booked for the order can be brought into these hands by one step at most. */
  predicate Reachable(booked: L.Order, hands: Hands) {
    booked.progress.Underway? || Moves(BookedHands(booked), hands)
  }

  /** The orders from `n` on are within reach of their hands, those before are in them. */
  ghost predicate Handed(f: Fleet, b: LR.Books, n: nat) {
    && |b.orders| == |f.orders|
    && (forall id | 0 <= id < |f.orders| && id < n :: BookedHands(b.orders[id]) == HandsOf(f, id))
    && (forall id | n <= id < |f.orders| :: Reachable(b.orders[id], HandsOf(f, id)))
  }

  ghost predicate Mirrors(f: Fleet, b: LR.Books) {
    SamePhases(f, b) && SameShifts(f, b) && Handed(f, b, |f.orders|)
  }

  // ----- Runs -----

  /** The amounts that an event may need: those of a new order, a commission rate, and the terms of a new shift. */
  datatype Bill = Bill(subtotal: nat, fee: nat, online: bool, bps: nat, daily: nat, perDelivery: nat)

  datatype JointEvent =
    | Dispatches(event: Event, bill: Bill)
    | Adjusts(shift: nat, newDaily: nat, newPerDelivery: nat, retroactive: bool)
    | PaysDaily(shift: nat)
    | Reprices(id: nat, subtotal: nat, fee: nat, online: bool)

  /** The fleet, and the steps that the ledger has taken. */
  datatype World = World(fleet: Fleet, steps: seq<LR.Step>)

  /** What an event does to the ledger directly; all else is a change of hands. */
  function Booking(f: Fleet, e: Event, bill: Bill): Option<LR.Step> {
    match e
    case Places(o) =>
      if Fresh(o) then
        Some(LR.Places(L.Order(L.Underway, bill.subtotal, bill.fee, bill.online, o.store, None, None, false)))
      else None
    case Completes(driver, id) => if Complete(f, driver, id).Ok? then Some(LR.Delivers(id, bill.bps)) else None
    case Updates(_, id, to, _) =>
      if OrderStep(f, e).Ok? && to.Delivered? then Some(LR.Delivers(id, bill.bps)) else None
    case Fails(driver, id) =>
      if Fail(f, driver, id).Ok? && f.orders[id].status.OutForDelivery? then Some(LR.Fails(id)) else None
    case Returns(confirmer, id) => if ConfirmReturn(f, confirmer, id).Ok? then Some(LR.Returns(id)) else None
    case ReleasesDriver(store, id) =>
      if StoreRelease(f, store, id).Ok? then Some(LR.ReleasesDriver(id, f.orders[id].arrived)) else None
    case StartsShift(store, driver) =>
      if StartShift(f, store, driver).Ok? then Some(LR.StartsShift(store, driver, bill.daily, bill.perDelivery))
      else None
    case EndsShift(k, close) =>
      if EndShift(f, k, if close then Closed else Waiting).Ok? then Some(LR.EndsShift(k)) else None
    case ReopensShift(k) => if ReopenShift(f, k).Ok? then Some(LR.ReopensShift(k)) else None
    case _ => None
  }

  function Booked(steps: seq<LR.Step>, step: Option<LR.Step>): seq<LR.Step> {
    if step.None? then steps else steps + [step.value]
  }

  /** The step of the ledger alone that an event other than one of dispatch is. */
  function MoneyStep(b: LR.Books, e: JointEvent): Option<LR.Step>
    requires !e.Dispatches?
  {
    match e
    case Adjusts(k, daily, perDelivery, retroactive) => Some(LR.AcceptsTerms(k, daily, perDelivery, retroactive))
    case PaysDaily(k) => Some(LR.PaysDaily(k))
    case Reprices(id, subtotal, fee, online) =>
      if id < |b.orders| && b.orders[id].progress.Underway? then
        Some(LR.Rewrites(id, b.orders[id].(subtotal := subtotal, fee := fee, online := online)))
      else None
  }

  /** An order on its way is written anew; a finished one is passed on or leaves its batch. */
  function HandStep(booked: L.Order, id: nat, hands: Hands): Option<LR.Step> {
    if BookedHands(booked) == hands then None
    else if booked.progress.Underway? then
      Some(LR.Rewrites(id, booked.(driver := hands.driver, shift := hands.shift, batched := hands.batched)))
    else MirrorStep(id, BookedHands(booked), hands)
  }

  /** One order's change of hands, if any, joins the run. */
  function HandOn(f: Fleet, before: seq<LR.Step>, id: nat): seq<LR.Step>
    requires id < |f.orders|
  {
    var orders := LR.Run(before).orders;
    if id < |orders| then Booked(before, HandStep(orders[id], id, HandsOf(f, id))) else before
  }

  /** Brings the first `n` orders into the hands they are in. */
  function HandedOn(f: Fleet, steps: seq<LR.Step>, n: nat): seq<LR.Step>
    requires n <= |f.orders|
  {
    if n == 0 then steps
    else HandOn(f, HandedOn(f, steps, n - 1), n - 1)
  }

  function NextWorld(w: World, e: JointEvent): World {
    match e
    case Dispatches(event, bill) =>
      var f := Next(w.fleet, event);
      World(f, HandedOn(f, Booked(w.steps, Booking(w.fleet, event, bill)), |f.orders|))
    case _ => w.(steps := Booked(w.steps, MoneyStep(LR.Run(w.steps), e)))
  }

  function RunAll(events: seq<JointEvent>): World {
    if |events| == 0 then World(Fleet([], [], []), [])
    else NextWorld(RunAll(events[..|events| - 1]), events[|events| - 1])
  }

  /** The dispatch events alone. */
  function Dispatched(events: seq<JointEvent>): seq<Event> {
    if |events| == 0 then []
    else
      var init, last := Dispatched(events[..|events| - 1]), events[|events| - 1];
      if last.Dispatches? then init + [last.event] else init
  }

  /** Commission rates are those that the administration may set. */
  ghost predicate Billed(events: seq<JointEvent>) {
    forall i | 0 <= i < |events| :: events[i].Dispatches? ==> events[i].bill.bps <= L.FULL_BPS
  }

  // ----- Bringing orders into hands -----

  lemma BookedRun(steps: seq<LR.Step>, step: Option<LR.Step>)
    requires LR.Plausible(steps) && (step.Some? ==> LR.Admissible(LR.Run(steps), step.value))
    ensures LR.Plausible(Booked(steps, step))
    ensures LR.Run(Booked(steps, step)) == Mirrored(LR.Run(steps), step)
  {
    if step.Some? {
      LR.RunAppend(steps, step.value);
    }
  }

  /** One step gives one order the hands it is in, and leaves everything else. */
  lemma HandStepHands(f: Fleet, b: LR.Books, id: nat)
    requires SamePhases(f, b) && SameShifts(f, b) && id < |f.orders| && Reachable(b.orders[id], HandsOf(f, id))
    ensures var next := Mirrored(b, HandStep(b.orders[id], id, HandsOf(f, id)));
            && |next.orders| == |b.orders| && next.shifts == b.shifts
            && BookedHands(next.orders[id]) == HandsOf(f, id)
            && next.orders[id].progress == b.orders[id].progress && next.orders[id].store == b.orders[id].store
            && (forall x | 0 <= x < |b.orders| && x != id :: next.orders[x] == b.orders[x])
  {
    if !b.orders[id].progress.Underway? {
      MirrorMoves(b, id, BookedHands(b.orders[id]), HandsOf(f, id));
    }
  }

  lemma HandStepIsAdmissible(f: Fleet, b: LR.Books, id: nat)
    requires Coherent(f) && SamePhases(f, b) && SameShifts(f, b) && id < |f.orders|
    ensures var step := HandStep(b.orders[id], id, HandsOf(f, id)); step.Some? ==> LR.Admissible(b, step.value)
  {
    var hands := HandsOf(f, id);
    var o := b.orders[id].(driver := hands.driver, shift := hands.shift, batched := hands.batched);
    assert SamePhase(f.orders[id], b.orders[id]);
    forall k | 0 <= k < |b.shifts|
      ensures b.shifts[k].store == f.shifts[k].store && b.shifts[k].driver == f.shifts[k].driver
    {
      assert SameShift(f.shifts[k], b.shifts[k]);
    }
    HandsAgreeWithTheLedger(f, id, o, b.shifts);
  }

  lemma HandStepKeeps(f: Fleet, b: LR.Books, next: LR.Books, id: nat)
    requires SamePhases(f, b) && SameShifts(f, b) && Handed(f, b, id) && id < |f.orders|
    requires |next.orders| == |b.orders| && next.shifts == b.shifts
    requires BookedHands(next.orders[id]) == HandsOf(f, id)
    requires next.orders[id].progress == b.orders[id].progress && next.orders[id].store == b.orders[id].store
    requires forall x | 0 <= x < |b.orders| && x != id :: next.orders[x] == b.orders[x]
    ensures SamePhases(f, next) && SameShifts(f, next) && Handed(f, next, id + 1)
  {
    forall x | 0 <= x < |f.orders| ensures SamePhase(f.orders[x], next.orders[x]) {
      assert SamePhase(f.orders[x], b.orders[x]);
    }
  }

  /** A plausible run of the ledger that has caught up with dispatch for so many orders. */
  ghost predicate CaughtUp(f: Fleet, steps: seq<LR.Step>, n: nat) {
    && LR.Plausible(steps) && n <= |f.orders|
    && SamePhases(f, LR.Run(steps)) && SameShifts(f, LR.Run(steps)) && Handed(f, LR.Run(steps), n)
  }

  lemma OneHandedOn(f: Fleet, before: seq<LR.Step>, id: nat, after: seq<LR.Step>, n: nat)
    requires Coherent(f) && id < |f.orders| && n == id + 1 && CaughtUp(f, before, id) && after == HandOn(f, before, id)
    ensures CaughtUp(f, after, n)
  {
    var b := LR.Run(before);
    var step := HandStep(b.orders[id], id, HandsOf(f, id));
    HandStepIsAdmissible(f, b, id);
    HandStepHands(f, b, id);
    BookedRun(before, step);
    HandStepKeeps(f, b, Mirrored(b, step), id);
  }

  lemma {:induction false} AllHandedOn(f: Fleet, steps: seq<LR.Step>, n: nat, after: seq<LR.Step>)
    requires Coherent(f) && n <= |f.orders| && CaughtUp(f, steps, 0) && after == HandedOn(f, steps, n)
    ensures CaughtUp(f, after, n)
  {
    if n > 0 {
      var before := HandedOn(f, steps, n - 1);
      AllHandedOn(f, steps, n - 1, before);
      OneHandedOn(f, before, n - 1, after, n);
    }
  }

  // ----- Steps on one order -----

  /** Whether the event delivers the order, fails it, or brings it back. */
  predicate Progresses(e: Event) {
    e.Completes? || e.Fails? || e.Returns? || (e.Updates? && e.to.Delivered?)
  }

  /** What is to be shown of the order that an event is about. */
  predicate Tracks(f: Fleet, id: nat, booked: L.Order) {
    id < |f.orders| && SamePhase(f.orders[id], booked) && Reachable(booked, HandsOf(f, id))
  }

  lemma UntouchedTracks(f: Fleet, next: Fleet, id: nat, booked: L.Order)
    requires id < |f.orders| && id < |next.orders| && next.orders[id] == f.orders[id] && next.batches == f.batches
    requires SamePhase(f.orders[id], booked) && BookedHands(booked) == HandsOf(f, id)
    ensures Tracks(next, id, booked)
  {
  }

  lemma ProgressTracks(f: Fleet, e: Event, bill: Bill, b: LR.Books)
    requires IsOrderEvent(e) && OrderStep(f, e).Ok? && Coherent(f) && Progresses(e) && e.id < |f.orders| == |b.orders|
    requires SamePhase(f.orders[e.id], b.orders[e.id]) && BookedHands(b.orders[e.id]) == HandsOf(f, e.id)
    ensures var next := Mirrored(b, Booking(f, e, bill));
            && |next.orders| == |b.orders| && next.shifts == b.shifts
            && (forall x | 0 <= x < |b.orders| && x != e.id :: next.orders[x] == b.orders[x])
            && Tracks(OrderStep(f, e).value, e.id, next.orders[e.id])
  {
    OrderStepIsLocal(f, e);
    assert OrderOk(f.orders[e.id], f.batches, f.shifts);
  }

  lemma OtherPhasesStay(f: Fleet, e: Event)
    requires IsOrderEvent(e) && OrderStep(f, e).Ok? && Coherent(f) && !Progresses(e)
    ensures e.id < |f.orders| && e.id < |OrderStep(f, e).value.orders|
    ensures PhaseOf(OrderStep(f, e).value.orders[e.id]) == PhaseOf(f.orders[e.id])
    ensures OrderStep(f, e).value.orders[e.id].store == f.orders[e.id].store
  {
    OrderStepIsLocal(f, e);
    assert OrderOk(f.orders[e.id], f.batches, f.shifts);
  }

  lemma ReleaseTracks(f: Fleet, store: nat, id: nat, b: LR.Books)
    requires StoreRelease(f, store, id).Ok? && Coherent(f) && id < |f.orders| == |b.orders|
    requires SamePhase(f.orders[id], b.orders[id]) && BookedHands(b.orders[id]) == HandsOf(f, id)
    ensures var next := LR.Next(b, LR.ReleasesDriver(id, f.orders[id].arrived));
            && |next.orders| == |b.orders| && next.shifts == b.shifts
            && (forall x | 0 <= x < |b.orders| && x != id :: next.orders[x] == b.orders[x])
            && Tracks(StoreRelease(f, store, id).value, id, next.orders[id])
  {
    assert OrderOk(f.orders[id], f.batches, f.shifts);
  }

  lemma OtherTracks(f: Fleet, e: Event, booked: L.Order)
    requires IsOrderEvent(e) && OrderStep(f, e).Ok? && Coherent(f) && !Progresses(e) && e.id < |f.orders|
    requires SamePhase(f.orders[e.id], booked) && BookedHands(booked) == HandsOf(f, e.id)
    ensures Tracks(OrderStep(f, e).value, e.id, booked)
  {
    OtherPhasesStay(f, e);
    if Finishing(f.orders[e.id].status) {
      OrderStepKeepsHands(f, e, e.id);
    } else {
      assert OrderOk(f.orders[e.id], f.batches, f.shifts);
      assert booked.progress.Underway?;
    }
  }

  lemma OrderStepTracks(f: Fleet, e: Event, bill: Bill, b: LR.Books)
    requires IsOrderEvent(e) && OrderStep(f, e).Ok? && Coherent(f) && e.id < |f.orders| == |b.orders|
    requires SamePhase(f.orders[e.id], b.orders[e.id]) && BookedHands(b.orders[e.id]) == HandsOf(f, e.id)
    ensures var next := Mirrored(b, Booking(f, e, bill));
            && |next.orders| == |b.orders| && next.shifts == b.shifts
            && (forall x | 0 <= x < |b.orders| && x != e.id :: next.orders[x] == b.orders[x])
            && Tracks(OrderStep(f, e).value, e.id, next.orders[e.id])
  {
    if Progresses(e) {
      ProgressTracks(f, e, bill, b);
    } else if e.ReleasesDriver? {
      ReleaseTracks(f, e.store, e.id, b);
    } else {
      OtherTracks(f, e, b.orders[e.id]);
    }
  }

  /** All orders, one of which an event was about. */
  lemma OneTracks(f: Fleet, next: Fleet, b: LR.Books, c: LR.Books, id: nat)
    requires Mirrors(f, b) && id < |f.orders| == |next.orders| && next == WithOrder(f, id, next.orders[id])
    requires |c.orders| == |b.orders| && c.shifts == b.shifts
    requires forall x | 0 <= x < |b.orders| && x != id :: c.orders[x] == b.orders[x]
    requires Tracks(next, id, c.orders[id])
    ensures SamePhases(next, c) && SameShifts(next, c) && Handed(next, c, 0)
  {
    forall x | 0 <= x < |next.orders| ensures Tracks(next, x, c.orders[x]) {
      if x != id {
        assert SamePhase(f.orders[x], b.orders[x]);
        UntouchedTracks(f, next, x, b.orders[x]);
      }
    }
  }

  lemma OrderEventIsBooked(f: Fleet, e: Event, bill: Bill, b: LR.Books)
    requires IsOrderEvent(e) && Coherent(f) && Mirrors(f, b)
    ensures var next := Mirrored(b, Booking(f, e, bill));
            SamePhases(Next(f, e), next) && SameShifts(Next(f, e), next) && Handed(Next(f, e), next, 0)
  {
    if OrderStep(f, e).Ok? {
      OrderStepIsLocal(f, e);
      assert SamePhase(f.orders[e.id], b.orders[e.id]);
      OrderStepTracks(f, e, bill, b);
      OneTracks(f, OrderStep(f, e).value, b, Mirrored(b, Booking(f, e, bill)), e.id);
    }
  }

  // ----- Batches, new orders and shifts -----

  lemma BatchStepKeepsPhase(f: Fleet, e: Event, id: nat)
    requires IsBatchEvent(e) && BatchStep(f, e).Ok? && id < |f.orders|
    ensures |BatchStep(f, e).value.orders| == |f.orders| && BatchStep(f, e).value.shifts == f.shifts
    ensures var o := BatchStep(f, e).value.orders[id];
            o.store == f.orders[id].store && o.returned == f.orders[id].returned
            && (o.status == f.orders[id].status || (f.orders[id].status.Ready? && o.status.OutForDelivery?))
  {
  }

  lemma BatchStepTracks(f: Fleet, e: Event, id: nat, booked: L.Order)
    requires IsBatchEvent(e) && BatchStep(f, e).Ok? && Coherent(f) && id < |f.orders|
    requires SamePhase(f.orders[id], booked) && BookedHands(booked) == HandsOf(f, id)
    ensures Tracks(BatchStep(f, e).value, id, booked)
  {
    BatchStepKeepsPhase(f, e, id);
    if Finishing(f.orders[id].status) {
      FinishedHandsMove(f, e, id);
    } else {
      assert OrderOk(f.orders[id], f.batches, f.shifts);
      assert booked.progress.Underway?;
    }
  }

  lemma BatchEventIsBooked(f: Fleet, e: Event, b: LR.Books)
    requires IsBatchEvent(e) && Coherent(f) && Mirrors(f, b)
    ensures SamePhases(Next(f, e), b) && SameShifts(Next(f, e), b) && Handed(Next(f, e), b, 0)
  {
    if BatchStep(f, e).Ok? {
      BatchStepKeepsSizes(f, e);
      forall id | 0 <= id < |f.orders| ensures Tracks(BatchStep(f, e).value, id, b.orders[id]) {
        assert SamePhase(f.orders[id], b.orders[id]);
        BatchStepTracks(f, e, id, b.orders[id]);
      }
    }
  }

  lemma BatchStepKeepsSizes(f: Fleet, e: Event)
    requires IsBatchEvent(e) && BatchStep(f, e).Ok?
    ensures |BatchStep(f, e).value.orders| == |f.orders| && BatchStep(f, e).value.shifts == f.shifts
  {
  }

  lemma SameOrdersTrack(f: Fleet, next: Fleet, b: LR.Books)
    requires Mirrors(f, b) && |f.orders| <= |next.orders| && next.batches == f.batches
    requires forall id | 0 <= id < |f.orders| :: next.orders[id] == f.orders[id]
    ensures forall id | 0 <= id < |f.orders| :: Tracks(next, id, b.orders[id])
  {
    forall id | 0 <= id < |f.orders| ensures Tracks(next, id, b.orders[id]) {
      assert SamePhase(f.orders[id], b.orders[id]);
      UntouchedTracks(f, next, id, b.orders[id]);
    }
  }

  lemma PlaceIsBooked(f: Fleet, e: Event, bill: Bill, b: LR.Books)
    requires e.Places? && Mirrors(f, b)
    ensures var next := Mirrored(b, Booking(f, e, bill));
            SamePhases(Next(f, e), next) && SameShifts(Next(f, e), next) && Handed(Next(f, e), next, 0)
  {
    if Fresh(e.order) {
      SameOrdersTrack(f, Next(f, e), b);
    }
  }

  lemma ShiftEventIsBooked(f: Fleet, e: Event, bill: Bill, b: LR.Books)
    requires (e.StartsShift? || e.EndsShift? || e.DecidesShift? || e.ReopensShift?) && Mirrors(f, b)
    ensures var next := Mirrored(b, Booking(f, e, bill));
            SamePhases(Next(f, e), next) && SameShifts(Next(f, e), next) && Handed(Next(f, e), next, 0)
  {
    var next, c := Next(f, e), Mirrored(b, Booking(f, e, bill));
    SameOrdersTrack(f, next, b);
    forall k | 0 <= k < |next.shifts| ensures k < |c.shifts| && SameShift(next.shifts[k], c.shifts[k]) {
      if k < |f.shifts| {
        assert SameShift(f.shifts[k], b.shifts[k]);
      }
    }
  }

  lemma EventIsBooked(f: Fleet, e: Event, bill: Bill, b: LR.Books)
    requires Coherent(f) && Mirrors(f, b)
    ensures var next := Mirrored(b, Booking(f, e, bill));
            SamePhases(Next(f, e), next) && SameShifts(Next(f, e), next) && Handed(Next(f, e), next, 0)
  {
    if IsOrderEvent(e) {
      OrderEventIsBooked(f, e, bill, b);
    } else if IsBatchEvent(e) {
      BatchEventIsBooked(f, e, b);
    } else if e.Places? {
      PlaceIsBooked(f, e, bill, b);
    } else {
      ShiftEventIsBooked(f, e, bill, b);
    }
  }

  // ----- Runs of both -----

  lemma BookingIsAdmissible(f: Fleet, e: Event, bill: Bill, b: LR.Books)
    requires bill.bps <= L.FULL_BPS
    ensures var step := Booking(f, e, bill); step.Some? ==> LR.Admissible(b, step.value)
  {
  }

  lemma DispatchKeepsMirrors(w: World, e: Event, bill: Bill)
    requires Coherent(w.fleet) && LR.Plausible(w.steps) && Mirrors(w.fleet, LR.Run(w.steps)) && bill.bps <= L.FULL_BPS
    ensures var next := NextWorld(w, Dispatches(e, bill));
            next.fleet == Next(w.fleet, e) && LR.Plausible(next.steps) && Mirrors(next.fleet, LR.Run(next.steps))
  {
    var f, step := Next(w.fleet, e), Booking(w.fleet, e, bill);
    NextKeepsCoherent(w.fleet, e);
    EventIsBooked(w.fleet, e, bill, LR.Run(w.steps));
    BookingIsAdmissible(w.fleet, e, bill, LR.Run(w.steps));
    BookedRun(w.steps, step);
    AllHandedOn(f, Booked(w.steps, step), |f.orders|, HandedOn(f, Booked(w.steps, step), |f.orders|));
  }

  lemma MoneyKeepsMirrors(f: Fleet, b: LR.Books, e: JointEvent)
    requires !e.Dispatches? && Mirrors(f, b) && LR.AllAgree(b.orders, b.shifts)
    ensures Mirrors(f, Mirrored(b, MoneyStep(b, e)))
    ensures MoneyStep(b, e).Some? ==> LR.Admissible(b, MoneyStep(b, e).value)
  {
    var next := Mirrored(b, MoneyStep(b, e));
    forall id | 0 <= id < |f.orders| ensures SamePhase(f.orders[id], next.orders[id]) {
      assert SamePhase(f.orders[id], b.orders[id]);
    }
    forall k | 0 <= k < |f.shifts| ensures SameShift(f.shifts[k], next.shifts[k]) {
      assert SameShift(f.shifts[k], b.shifts[k]);
    }
  }

  lemma NextKeepsMirrors(w: World, e: JointEvent)
    requires Coherent(w.fleet) && LR.Plausible(w.steps) && Mirrors(w.fleet, LR.Run(w.steps))
    requires e.Dispatches? ==> e.bill.bps <= L.FULL_BPS
    ensures var next := NextWorld(w, e); LR.Plausible(next.steps) && Mirrors(next.fleet, LR.Run(next.steps))
  {
    if e.Dispatches? {
      DispatchKeepsMirrors(w, e.event, e.bill);
    } else {
      var b := LR.Run(w.steps);
      LR.RunsKeepSound(w.steps);
      MoneyKeepsMirrors(w.fleet, b, e);
      BookedRun(w.steps, MoneyStep(b, e));
    }
  }

  /**
   * Over every run of dispatch, with terms, dailies and prices changing in between: the ledger has taken a plausible
   * run of its own steps, and its orders and shifts are those of dispatch, in the same hands and as far along.
   */
  lemma {:induction false} DispatchIsBooked(events: seq<JointEvent>)
    requires Billed(events)
    ensures RunAll(events).fleet == Run(Dispatched(events))
    ensures LR.Plausible(RunAll(events).steps) && Mirrors(RunAll(events).fleet, LR.Run(RunAll(events).steps))
  {
    if |events| > 0 {
      var init, last := events[..|events| - 1], events[|events| - 1];
      DispatchIsBooked(init);
      RunsStayCoherent(Dispatched(init));
      if last.Dispatches? {
        assert Dispatched(events)[..|Dispatched(init)|] == Dispatched(init);
      }
      NextKeepsMirrors(RunAll(init), last);
    }
  }

  /**
   * So in dispatch itself: an order that was delivered on a running shift, outside a batch or in one that was
   * collected, pays exactly the new extra once retroactive terms are accepted, and charges the store as much.
   */
  lemma DeliveredOrdersReachNewTerms(events: seq<JointEvent>, k: nat, daily: nat, perDelivery: nat, id: nat)
    requires Billed(events)
    requires var f := RunAll(events).fleet;
             k < |f.shifts| && f.shifts[k].status.Active? && Fixed(f, id) && f.orders[id].shift == Some(k)
    ensures var b := LR.Run(RunAll(events).steps);
            && k < |b.shifts| && b.shifts[k].active
            && var l := LR.AcceptTerms(b, k, daily, perDelivery, true).ledger;
               L.Total(l, L.Extras(id)) == perDelivery && L.Total(l, L.StoreExtras(id)) == 0 - perDelivery
               && L.Total(l, L.ExtrasOf(id, RunAll(events).fleet.shifts[k].driver)) == perDelivery
  {
    DispatchIsBooked(events);
    var w := RunAll(events);
    var b := LR.Run(w.steps);
    assert SamePhase(w.fleet.orders[id], b.orders[id]) && SameShift(w.fleet.shifts[k], b.shifts[k]);
    assert BookedHands(b.orders[id]) == HandsOf(w.fleet, id);
    LR.RetroactiveTermsAreExact(w.steps, k, daily, perDelivery, id);
  }

  /** And every delivered order of dispatch, batched or not, balances in the ledger. */
  lemma DispatchedOrdersBalance(events: seq<JointEvent>, id: nat)
    requires Billed(events)
    requires id < |RunAll(events).fleet.orders| && RunAll(events).fleet.orders[id].status.Delivered?
    ensures var b := LR.Run(RunAll(events).steps);
            && id < |b.orders| && b.orders[id].progress.Delivered?
            && var o := b.orders[id];
               L.Total(b.ledger, L.OfOrder(id)) ==
                 (if o.online then o.subtotal + o.fee else 0) - L.Commission(o.subtotal, o.progress.bps)
  {
    DispatchIsBooked(events);
    assert SamePhase(RunAll(events).fleet.orders[id], LR.Run(RunAll(events).steps).orders[id]);
    LR.DeliveredOrdersBalance(RunAll(events).steps, id);
  }
}

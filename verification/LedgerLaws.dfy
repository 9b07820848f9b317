/** What each event books, for which party, under which entry type and for whom, written out. */
module LedgerLaws {
  import opened Ledger
  import opened LedgerRuns
  import opened Wrappers

  // ----- Amounts -----

  /** The commission is the product with the rate, to the nearest cent and halves up. */
  lemma CommissionRounds(subtotal: nat, bps: nat)
    ensures Commission(subtotal, bps) * 10_000 <= subtotal * bps + 5_000 < (Commission(subtotal, bps) + 1) * 10_000
  {
  }

  lemma HalfFeeRoundsUp(fee: nat)
    ensures fee <= 2 * HalfFee(fee) <= fee + 1
  {
  }

  /** Delivered on a shift of the order's own store, by that shift's driver. */
  predicate OnShift(o: Order, shifts: seq<WorkShift>) {
    && o.shift.Some? && o.shift.value < |shifts|
    && shifts[o.shift.value].store == o.store && o.driver == Some(shifts[o.shift.value].driver)
  }

  predicate FromThePool(o: Order, shifts: seq<WorkShift>) {
    o.driver.Some? && !OnShift(o, shifts)
  }

  function AtLeastZero(x: int): int {
    if x < 0 then 0 else x
  }

  /**
   * Every amount that a delivery books. Online sales credit the store, without the freight if a driver of the pool gets
   * it. Others debit the commission, and that freight. A driver gets the freight from the pool or the shift's extra,
   * which the store pays.
   */
  function DeliveryAmount(o: Order, shifts: seq<WorkShift>, bps: nat, party: Party, kind: EntryType, owner: nat): int {
    if party.Store? && owner == o.store then
      match kind
      case StoreSaleCredit =>
        if !o.online then 0
        else AtLeastZero(o.subtotal - Commission(o.subtotal, bps) + if FromThePool(o, shifts) then 0 else o.fee)
      case StoreCommissionDebit => if o.online then 0 else 0 - Commission(o.subtotal, bps)
      case StoreDriverFeeDebit => if !o.online && FromThePool(o, shifts) then 0 - o.fee else 0
      case StorePerDeliveryDebit => if OnShift(o, shifts) then 0 - shifts[o.shift.value].perDelivery else 0
      case _ => 0
    else if party.Driver? && Some(owner) == o.driver then
      match kind
      case DriverDeliveryCredit => if FromThePool(o, shifts) then o.fee else 0
      case DriverPerDeliveryCredit => if OnShift(o, shifts) then shifts[o.shift.value].perDelivery else 0
      case _ => 0
    else 0
  }

  lemma SaleBooks(id: nat, o: Order, fixed: bool, commission: nat, party: Party, kind: EntryType, owner: nat)
    ensures var pool := o.driver.Some? && !fixed;
            Total(SaleEntries(id, o, fixed, commission), Booked(Some(id), party, kind, owner)) ==
              if !party.Store? || owner != o.store then 0
              else match kind
                   case StoreSaleCredit =>
                     if o.online then AtLeastZero(o.subtotal - commission + if pool then 0 else o.fee) else 0
                   case StoreCommissionDebit => if o.online then 0 else 0 - commission
                   case StoreDriverFeeDebit => if !o.online && pool then 0 - o.fee else 0
                   case _ => 0
  {
    var l, f := SaleEntries(id, o, fixed, commission), Booked(Some(id), party, kind, owner);
    if |l| == 1 {
      assert l == [l[0]];
      TotalOfOne(l[0], f);
    } else if |l| == 2 {
      assert l == [l[0], l[1]];
      TotalOfTwo(l[0], l[1], f);
    }
  }

  lemma FeeBooks(id: nat, o: Order, fixed: bool, party: Party, kind: EntryType, owner: nat)
    ensures Total(FeeEntries(id, o, fixed), Booked(Some(id), party, kind, owner)) ==
              if party.Driver? && kind.DriverDeliveryCredit? && o.driver == Some(owner) && !fixed then o.fee else 0
  {
    var l := FeeEntries(id, o, fixed);
    if |l| == 1 {
      TotalOfOne(l[0], Booked(Some(id), party, kind, owner));
    }
  }

  lemma ExtraBooks(id: nat, o: Order, shift: Option<WorkShift>, party: Party, kind: EntryType, owner: nat)
    ensures var extra := if shift.Some? && o.driver.Some? then shift.value.perDelivery else 0;
            Total(ExtraEntries(id, o, shift), Booked(Some(id), party, kind, owner)) ==
              if party.Driver? && kind.DriverPerDeliveryCredit? && o.driver == Some(owner) then extra
              else if party.Store? && kind.StorePerDeliveryDebit? && owner == o.store then 0 - extra
              else 0
  {
    var l := ExtraEntries(id, o, shift);
    if |l| == 2 {
      TotalOfTwo(l[0], l[1], Booked(Some(id), party, kind, owner));
    }
  }

  lemma FixedWritten(o: Order, shifts: seq<WorkShift>)
    ensures FixedShift(o, shifts) == if OnShift(o, shifts) then Some(shifts[o.shift.value]) else None
  {
  }

  /** A delivery books exactly these amounts, whoever the party, the entry type and the owner. */
  lemma DeliveryBooks(id: nat, o: Order, shifts: seq<WorkShift>, bps: nat, party: Party, kind: EntryType, owner: nat)
    ensures Total(OrderEntries(id, o, shifts, bps), Booked(Some(id), party, kind, owner)) ==
              DeliveryAmount(o, shifts, bps, party, kind, owner)
  {
    var shift, f := FixedShift(o, shifts), Booked(Some(id), party, kind, owner);
    var sale, fee := SaleEntries(id, o, shift.Some?, Commission(o.subtotal, bps)), FeeEntries(id, o, shift.Some?);
    FixedWritten(o, shifts);
    SaleBooks(id, o, shift.Some?, Commission(o.subtotal, bps), party, kind, owner);
    FeeBooks(id, o, shift.Some?, party, kind, owner);
    ExtraBooks(id, o, shift, party, kind, owner);
    TotalConcat(sale, fee, f);
    TotalConcat(sale + fee, ExtraEntries(id, o, shift), f);
  }

  /** What a store gets for a delivery in all: its sale without commission, freight of the pool and extras. */
  function StoreDue(o: Order, shifts: seq<WorkShift>, bps: nat): int {
    var sale := if o.online then o.subtotal + o.fee else 0;
    var freight := if FromThePool(o, shifts) then o.fee else 0;
    var extra := if OnShift(o, shifts) then shifts[o.shift.value].perDelivery else 0;
    sale - Commission(o.subtotal, bps) - freight - extra
  }

  lemma SaleStoreShare(id: nat, o: Order, fixed: bool, commission: nat, store: nat)
    requires commission <= o.subtotal
    ensures var freight := if o.driver.Some? && !fixed then o.fee else 0;
            Total(SaleEntries(id, o, fixed, commission), StoreShare(id, store)) ==
              if store == o.store then (if o.online then o.subtotal + o.fee else 0) - commission - freight else 0
  {
    var l := SaleEntries(id, o, fixed, commission);
    if |l| == 1 {
      assert l == [l[0]];
      TotalOfOne(l[0], StoreShare(id, store));
    } else if |l| == 2 {
      assert l == [l[0], l[1]];
      TotalOfTwo(l[0], l[1], StoreShare(id, store));
    }
  }

  lemma ExtraStoreShare(id: nat, o: Order, shift: Option<WorkShift>, store: nat)
    ensures Total(ExtraEntries(id, o, shift), StoreShare(id, store)) ==
              if store == o.store && shift.Some? && o.driver.Some? then 0 - shift.value.perDelivery else 0
  {
    var l := ExtraEntries(id, o, shift);
    if |l| == 2 {
      TotalOfTwo(l[0], l[1], StoreShare(id, store));
    }
  }

  /** A delivery pays and charges its own store, and no other. */
  lemma DeliveryPaysTheStore(id: nat, o: Order, shifts: seq<WorkShift>, bps: nat, store: nat)
    requires bps <= FULL_BPS
    ensures Total(OrderEntries(id, o, shifts, bps), StoreShare(id, store)) ==
              if store == o.store then StoreDue(o, shifts, bps) else 0
  {
    var shift, f := FixedShift(o, shifts), StoreShare(id, store);
    var sale, fee := SaleEntries(id, o, shift.Some?, Commission(o.subtotal, bps)), FeeEntries(id, o, shift.Some?);
    FixedWritten(o, shifts);
    CommissionIsNearest(o.subtotal, bps);
    SaleStoreShare(id, o, shift.Some?, Commission(o.subtotal, bps), store);
    TotalOfNone(fee, f);
    ExtraStoreShare(id, o, shift, store);
    TotalConcat(sale, fee, f);
    TotalConcat(sale + fee, ExtraEntries(id, o, shift), f);
  }

  // ----- Pairs -----

  /** A returned delivery pays the frozen amount: to a driver of the pool, or as an extra that the store pays. */
  function ReturnAmount(o: Order, pay: nat, shifts: seq<WorkShift>, party: Party, kind: EntryType, owner: nat): int {
    if party.Driver? && o.driver == Some(owner) then
      if kind.DriverDeliveryCredit? && FromThePool(o, shifts) then pay
      else if kind.DriverPerDeliveryCredit? && OnShift(o, shifts) then pay
      else 0
    else if party.Store? && kind.StorePerDeliveryDebit? && owner == o.store && OnShift(o, shifts) then 0 - pay
    else 0
  }

  lemma ReturnBooks(id: nat, o: Order, pay: nat, shifts: seq<WorkShift>, party: Party, kind: EntryType, owner: nat)
    ensures Total(ReturnEntries(id, o, pay, shifts), Booked(Some(id), party, kind, owner)) ==
              ReturnAmount(o, pay, shifts, party, kind, owner)
  {
    var l, f := ReturnEntries(id, o, pay, shifts), Booked(Some(id), party, kind, owner);
    FixedWritten(o, shifts);
    if |l| == 1 {
      TotalOfOne(l[0], f);
    } else if |l| == 2 {
      TotalOfTwo(l[0], l[1], f);
    }
  }

  lemma HalfFeeBooks(id: nat, store: nat, driver: nat, amount: nat, party: Party, kind: EntryType, owner: nat)
    ensures Total(HalfFeeEntries(id, store, driver, amount), Booked(Some(id), party, kind, owner)) ==
              if party.Driver? && kind.DriverHalfFeeCredit? && owner == driver then amount
              else if party.Store? && kind.StoreHalfFeeDebit? && owner == store then 0 - amount
              else 0
  {
    var l := HalfFeeEntries(id, store, driver, amount);
    if |l| == 2 {
      TotalOfTwo(l[0], l[1], Booked(Some(id), party, kind, owner));
    }
  }

  lemma DailyBooks(k: nat, s: WorkShift, party: Party, kind: EntryType, owner: nat)
    ensures Total(DailyEntries(k, s), Booked(None, party, kind, owner)) ==
              if party.Driver? && kind.DriverDailyRateCredit? && owner == s.driver then s.daily
              else if party.Store? && kind.StoreDailyRateDebit? && owner == s.store then 0 - s.daily
              else 0
  {
    var l := DailyEntries(k, s);
    if |l| == 2 {
      TotalOfTwo(l[0], l[1], Booked(None, party, kind, owner));
    }
  }

  lemma AdjustmentBooks(l: seq<Entry>, a: Adjustment, id: nat, party: Party, kind: EntryType, owner: nat)
    ensures var delta := a.target - Total(l, ExtrasOf(id, a.driver));
            Total(AdjustmentPair(l, a, id), Booked(Some(id), party, kind, owner)) ==
              if party.Driver? && kind.DriverPerDeliveryCredit? && owner == a.driver then delta
              else if party.Store? && kind.StorePerDeliveryDebit? && owner == a.store then 0 - delta
              else 0
  {
    var pair := AdjustmentPair(l, a, id);
    if |pair| == 2 {
      TotalOfTwo(pair[0], pair[1], Booked(Some(id), party, kind, owner));
    }
  }

  // ----- Whose entries they are, over every run -----

  /** A store's entries are of store types and a driver's of driver types. */
  predicate FitsParty(e: Entry) {
    e.party.Store? <==>
      || e.kind.StoreSaleCredit? || e.kind.StoreCommissionDebit? || e.kind.StoreDriverFeeDebit?
      || e.kind.StorePerDeliveryDebit? || e.kind.StoreDailyRateDebit? || e.kind.StoreHalfFeeDebit?
  }

  /** Nothing is booked for nothing, credits are positive and debits negative; only adjustments go both ways. */
  predicate FitsAmount(e: Entry) {
    && e.amount != 0
    && (!e.key.AdjustmentKey? ==> (e.amount > 0 <==> e.kind.StoreSaleCredit? || e.party.Driver?))
  }

  /** An order's entry for a store is for the order's own store. */
  predicate OwnStore(e: Entry, orders: seq<Order>) {
    && FitsParty(e) && FitsAmount(e)
    && (e.order.Some? && e.party.Store? ==> e.order.value < |orders| && e.owner == orders[e.order.value].store)
  }

  ghost predicate AllOwnStore(l: seq<Entry>, orders: seq<Order>) {
    forall e | e in l :: OwnStore(e, orders)
  }

  /** The order's shift, if any, is one of the order's store. */
  ghost predicate ShiftsOfStores(orders: seq<Order>, shifts: seq<WorkShift>) {
    forall id | 0 <= id < |orders| && orders[id].shift.Some? ::
      orders[id].shift.value < |shifts| && shifts[orders[id].shift.value].store == orders[id].store
  }

  ghost predicate Owned(b: Books) {
    AllOwnStore(b.ledger, b.orders) && ShiftsOfStores(b.orders, b.shifts)
  }

  lemma InsertAllOwned(l: seq<Entry>, es: seq<Entry>, orders: seq<Order>)
    requires AllOwnStore(l, orders) && AllOwnStore(es, orders)
    ensures AllOwnStore(InsertAll(l, es), orders)
  {
    InsertAllAddsOnly(l, es);
  }

  lemma InsertPairOwned(l: seq<Entry>, es: seq<Entry>, orders: seq<Order>)
    requires AllOwnStore(l, orders) && AllOwnStore(es, orders)
    ensures AllOwnStore(InsertPair(l, es), orders)
  {
    if |es| == 2 {
      assert es[0] in es && es[1] in es;
    }
  }

  lemma {:induction false} AdjustedOwned(l: seq<Entry>, a: Adjustment, ids: seq<nat>, n: nat, orders: seq<Order>)
    requires n <= |ids| && AllOwnStore(l, orders)
    requires forall i | 0 <= i < |ids| :: ids[i] < |orders| && orders[ids[i]].store == a.store
    ensures AllOwnStore(Adjusted(l, a, ids, n), orders)
  {
    if n > 0 {
      AdjustedOwned(l, a, ids, n - 1, orders);
      var before := Adjusted(l, a, ids, n - 1);
      InsertPairOwned(before, AdjustmentPair(l, a, ids[n - 1]), orders);
    }
  }

  lemma TermsKeepOwned(b: Books, k: nat, daily: nat, perDelivery: nat, retroactive: bool)
    requires Owned(b) && k < |b.shifts| && b.shifts[k].active
    ensures Owned(AcceptTerms(b, k, daily, perDelivery, retroactive))
  {
    var next, ids := AcceptTerms(b, k, daily, perDelivery, retroactive), DeliveredIn(b.orders, k);
    if retroactive {
      forall i | 0 <= i < |ids| ensures ids[i] < |b.orders| && b.orders[ids[i]].store == b.shifts[k].store {
        assert ids[i] in ids;
      }
      AdjustedOwned(b.ledger, AdjustmentOf(next.shifts[k]), ids, |ids|, b.orders);
    }
  }

  lemma DeliverKeepsOwned(b: Books, id: nat, bps: nat)
    requires Owned(b) && id < |b.orders|
    ensures Owned(Deliver(b, id, bps))
  {
    var next := Deliver(b, id, bps);
    var o, shift := b.orders[id], FixedShift(b.orders[id], b.shifts);
    var sale, fee, extra := SaleEntries(id, o, shift.Some?, Commission(o.subtotal, bps)),
        FeeEntries(id, o, shift.Some?), ExtraEntries(id, o, shift);
    assert AllOwnStore(sale, next.orders) && AllOwnStore(fee, next.orders) && AllOwnStore(extra, next.orders);
    InsertAllOwned(b.ledger, sale + fee + extra, next.orders);
  }

  lemma ReturnKeepsOwned(b: Books, id: nat, pay: nat)
    requires Owned(b) && id < |b.orders|
    ensures Owned(Return(b, id, pay))
  {
    var next := Return(b, id, pay);
    assert AllOwnStore(b.ledger, next.orders);
    InsertAllOwned(b.ledger, ReturnEntries(id, b.orders[id], pay, b.shifts), next.orders);
  }

  lemma ReleaseKeepsOwned(b: Books, id: nat, driver: nat, arrived: bool)
    requires Owned(b) && id < |b.orders|
    ensures Owned(ReleaseDriver(b, id, driver, arrived))
  {
    var o, next := b.orders[id], ReleaseDriver(b, id, driver, arrived);
    var amount := if o.shift.None? && arrived then HalfFee(o.fee) else 0;
    assert AllOwnStore(b.ledger, next.orders);
    InsertPairOwned(b.ledger, HalfFeeEntries(id, o.store, driver, amount), next.orders);
  }

  lemma NextKeepsOwned(b: Books, step: Step)
    requires Owned(b) && Admissible(b, step)
    ensures Owned(Next(b, step))
  {
    if Next(b, step) != b {
      match step
      case Delivers(id, bps) => DeliverKeepsOwned(b, id, bps);
      case Returns(id) => ReturnKeepsOwned(b, id, b.orders[id].progress.pay);
      case ReleasesDriver(id, arrived) => ReleaseKeepsOwned(b, id, b.orders[id].driver.value, arrived);
      case AcceptsTerms(k, daily, perDelivery, retroactive) => TermsKeepOwned(b, k, daily, perDelivery, retroactive);
      case PaysDaily(k) => InsertPairOwned(b.ledger, DailyEntries(k, b.shifts[k]), b.orders);
      case _ =>
    }
  }

  /** Over every run each store entry of an order is its own store's, and parties, entry types and signs go together. */
  lemma {:induction false} EntriesAreTheStoresOwn(steps: seq<Step>)
    requires Plausible(steps)
    ensures Owned(Run(steps))
  {
    if |steps| > 0 {
      var init := steps[..|steps| - 1];
      forall i | 0 <= i < |init| ensures Admissible(Run(init[..i]), init[i]) {
        assert init[..i] == steps[..i];
      }
      EntriesAreTheStoresOwn(init);
      NextKeepsOwned(Run(init), steps[|steps| - 1]);
    }
  }

  // ----- What the steps of a run add -----

  function BookedSoFar(b: Books, id: nat, party: Party, kind: EntryType, owner: nat): int {
    Total(b.ledger, Booked(Some(id), party, kind, owner))
  }

  lemma DeliveryAdds(b: Books, id: nat, bps: nat, party: Party, kind: EntryType, owner: nat)
    requires AllFit(b.ledger, b.orders, b.shifts) && id < |b.orders| && b.orders[id].progress.Underway?
    ensures BookedSoFar(Deliver(b, id, bps), id, party, kind, owner) ==
              BookedSoFar(b, id, party, kind, owner)
              + DeliveryAmount(b.orders[id], b.shifts, bps, party, kind, owner)
  {
    DeliveryIsAppended(b, id, bps);
    DeliveryBooks(id, b.orders[id], b.shifts, bps, party, kind, owner);
    TotalConcat(b.ledger, OrderEntries(id, b.orders[id], b.shifts, bps), Booked(Some(id), party, kind, owner));
  }

  /** After every run, delivering an order adds exactly the amounts of a delivery to what was booked for it before. */
  lemma DeliveriesAreBooked(steps: seq<Step>, id: nat, bps: nat, party: Party, kind: EntryType, owner: nat)
    requires Plausible(steps) && id < |Run(steps).orders| && Run(steps).orders[id].progress.Underway?
    ensures var b, next := Run(steps), Next(Run(steps), Delivers(id, bps));
            && next.orders == b.orders[id := b.orders[id].(progress := Delivered(bps))] && next.shifts == b.shifts
            && BookedSoFar(next, id, party, kind, owner) ==
                 BookedSoFar(b, id, party, kind, owner)
                 + DeliveryAmount(b.orders[id], b.shifts, bps, party, kind, owner)
  {
    RunsKeepSound(steps);
    DeliveryAdds(Run(steps), id, bps, party, kind, owner);
  }

  /** What a delivery that failed will pay when the order is brought back: the freight, or the extra of its shift. */
  function PayOnReturn(o: Order, shifts: seq<WorkShift>): nat {
    if OnShift(o, shifts) then shifts[o.shift.value].perDelivery else o.fee
  }

  lemma ReturnAdds(b: Books, id: nat, party: Party, kind: EntryType, owner: nat)
    requires AllFit(b.ledger, b.orders, b.shifts) && id < |b.orders| && b.orders[id].progress.Failed?
    ensures BookedSoFar(Next(b, Returns(id)), id, party, kind, owner) ==
              BookedSoFar(b, id, party, kind, owner)
              + ReturnAmount(b.orders[id], b.orders[id].progress.pay, b.shifts, party, kind, owner)
  {
    var pay := b.orders[id].progress.pay;
    ReturnIsAppended(b, id, pay);
    ReturnBooks(id, b.orders[id], pay, b.shifts, party, kind, owner);
    TotalConcat(b.ledger, ReturnEntries(id, b.orders[id], pay, b.shifts), Booked(Some(id), party, kind, owner));
  }

  lemma FailureFreezes(b: Books, id: nat)
    requires id < |b.orders| && b.orders[id].progress.Underway?
    ensures var o := b.orders[id];
            Next(b, Fails(id)) == b.(orders := b.orders[id := o.(progress := Failed(PayOnReturn(o, b.shifts)))])
  {
    FixedWritten(b.orders[id], b.shifts);
  }

  /** Bringing an order back after any run books the pay that was frozen when its delivery failed. */
  lemma ReturnsAreBooked(steps: seq<Step>, id: nat, party: Party, kind: EntryType, owner: nat)
    requires Plausible(steps) && id < |Run(steps).orders| && Run(steps).orders[id].progress.Failed?
    ensures var b, next := Run(steps), Next(Run(steps), Returns(id));
            BookedSoFar(next, id, party, kind, owner) ==
              BookedSoFar(b, id, party, kind, owner)
              + ReturnAmount(b.orders[id], b.orders[id].progress.pay, b.shifts, party, kind, owner)
  {
    RunsKeepSound(steps);
    ReturnAdds(Run(steps), id, party, kind, owner);
  }
}

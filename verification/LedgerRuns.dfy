/** The ledger over every history of orders, shifts and adjustments. */
module LedgerRuns {
  import opened Ledger
  import opened Wrappers

  datatype Books = Books(orders: seq<Order>, shifts: seq<WorkShift>, ledger: seq<Entry>)

  datatype Step =
    | Places(order: Order)
    | Rewrites(id: nat, order: Order)
    | Delivers(id: nat, bps: nat)
    | Fails(id: nat)
    | Returns(id: nat)
    | ReleasesDriver(id: nat, arrived: bool)
    | Reassigns(id: nat, newDriver: Option<nat>, newShift: Option<nat>)
    | Unbatches(id: nat)
    | StartsShift(store: nat, driver: nat, daily: nat, perDelivery: nat)
    | AcceptsTerms(shift: nat, newDaily: nat, newPerDelivery: nat, retroactive: bool)
    | EndsShift(shift: nat)
    | ReopensShift(shift: nat)
    | PaysDaily(shift: nat)

  /** The orders that count as delivered in a shift. */
  function DeliveredIn(orders: seq<Order>, shift: nat): (ids: seq<nat>)
    ensures forall id: nat :: id in ids <==>
              id < |orders| && orders[id].progress.Delivered? && orders[id].shift == Some(shift)
    ensures forall i, j | 0 <= i < j < |ids| :: ids[i] < ids[j]
  {
    if |orders| == 0 then []
    else
      var last := |orders| - 1;
      var earlier := DeliveredIn(orders[..last], shift);
      assert forall i | 0 <= i < |earlier| :: earlier[i] in earlier;
      if orders[last].progress.Delivered? && orders[last].shift == Some(shift) then earlier + [last] else earlier
  }

  function AdjustmentOf(s: WorkShift): Adjustment {
    Adjustment(s.version, s.store, s.driver, s.perDelivery)
  }

  /** New terms of a running shift; the version in the keys is what lets a second adjustment be recorded. */
  function AcceptTerms(b: Books, k: nat, daily: nat, perDelivery: nat, retroactive: bool): Books
    requires k < |b.shifts| && b.shifts[k].active
  {
    var s := b.shifts[k].(daily := daily, perDelivery := perDelivery, version := b.shifts[k].version + 1);
    var ids := DeliveredIn(b.orders, k);
    b.(shifts := b.shifts[k := s],
       ledger := if retroactive then Adjusted(b.ledger, AdjustmentOf(s), ids, |ids|) else b.ledger)
  }

  function Deliver(b: Books, id: nat, bps: nat): Books
    requires id < |b.orders|
  {
    b.(orders := b.orders[id := b.orders[id].(progress := Delivered(bps))],
       ledger := InsertAll(b.ledger, OrderEntries(id, b.orders[id], b.shifts, bps)))
  }

  /** The pay is frozen when the delivery fails and released on return. */
  function FailurePay(o: Order, shifts: seq<WorkShift>): nat {
    var s := FixedShift(o, shifts);
    if s.Some? then s.value.perDelivery else o.fee
  }

  function Return(b: Books, id: nat, pay: nat): Books
    requires id < |b.orders|
  {
    var o := b.orders[id];
    var paid := if o.driver.Some? && FixedShift(o, b.shifts).None? then pay else 0;
    b.(orders := b.orders[id := o.(progress := Returned(paid))],
        ledger := InsertAll(b.ledger, ReturnEntries(id, o, pay, b.shifts)))
  }

  function ReleaseDriver(b: Books, id: nat, driver: nat, arrived: bool): Books
    requires id < |b.orders|
  {
    var o := b.orders[id];
    var amount := if o.shift.None? && arrived then HalfFee(o.fee) else 0;
    b.(orders := b.orders[id := o.(driver := None, shift := None)],
       ledger := InsertPair(b.ledger, HalfFeeEntries(id, o.store, driver, amount)))
  }

  function Next(b: Books, step: Step): Books {
    match step
    case Places(o) => if o.progress.Underway? then b.(orders := b.orders + [o]) else b
    case Rewrites(id, o) =>
      if id < |b.orders| && b.orders[id].progress.Underway? && o.progress.Underway? then
        b.(orders := b.orders[id := o]) else b
    case Delivers(id, bps) => if id < |b.orders| && b.orders[id].progress.Underway? then Deliver(b, id, bps) else b
    case Fails(id) =>
      if id < |b.orders| && b.orders[id].progress.Underway? then
        b.(orders := b.orders[id := b.orders[id].(progress := Failed(FailurePay(b.orders[id], b.shifts)))])
      else b
    case Returns(id) =>
      if id < |b.orders| && b.orders[id].progress.Failed? then Return(b, id, b.orders[id].progress.pay) else b
    case ReleasesDriver(id, arrived) =>
      if id < |b.orders| && b.orders[id].progress.Underway? && !b.orders[id].batched && b.orders[id].driver.Some? then
        ReleaseDriver(b, id, b.orders[id].driver.value, arrived)
      else b
    case Reassigns(id, driver, shift) =>
      if id < |b.orders| && !b.orders[id].progress.Underway? && b.orders[id].batched then
        b.(orders := b.orders[id := b.orders[id].(driver := driver, shift := shift)])
      else b
    case Unbatches(id) =>
      if id < |b.orders| && b.orders[id].batched then
        b.(orders := b.orders[id := b.orders[id].(shift := None, batched := false)])
      else b
    case StartsShift(store, driver, daily, perDelivery) =>
      b.(shifts := b.shifts + [WorkShift(store, driver, true, daily, perDelivery, 0)])
    case AcceptsTerms(k, daily, perDelivery, retroactive) =>
      if k < |b.shifts| && b.shifts[k].active then AcceptTerms(b, k, daily, perDelivery, retroactive) else b
    case EndsShift(k) => if k < |b.shifts| then b.(shifts := b.shifts[k := b.shifts[k].(active := false)]) else b
    case ReopensShift(k) => if k < |b.shifts| then b.(shifts := b.shifts[k := b.shifts[k].(active := true)]) else b
    case PaysDaily(k) => if k < |b.shifts| then b.(ledger := InsertPair(b.ledger, DailyEntries(k, b.shifts[k]))) else b
  }

  // ----- What holds of every ledger -----

  /** An order with a shift has that shift's store and driver. */
  predicate Agrees(o: Order, shifts: seq<WorkShift>) {
    o.shift.Some? ==>
      && o.shift.value < |shifts|
      && shifts[o.shift.value].store == o.store && o.driver == Some(shifts[o.shift.value].driver)
  }

  /**
   * Delivered, in a shift that can no longer be taken from it: `batched` says that the order is in a batch that may
   * still be released, which one that was collected as a whole may not.
   */
  predicate Settled(o: Order) {
    o.progress.Delivered? && !o.batched && o.shift.Some?
  }

  function OrderOf(key: Key): Option<nat> {
    match key
    case DailyKey(_, _) => None
    case SaleKey(o) => Some(o)
    case CommissionKey(o) => Some(o)
    case DriverFeeKey(o) => Some(o)
    case DeliveryKey(o) => Some(o)
    case PerDeliveryKey(o, _) => Some(o)
    case ReturnKey(o) => Some(o)
    case ReturnPerDeliveryKey(o, _) => Some(o)
    case HalfFeeKey(o, _, _) => Some(o)
    case AdjustmentKey(o, _, _) => Some(o)
  }

  /** Which entries an order may have by now, and whom they belong to. */
  predicate FitsOrder(e: Entry, o: Order, shifts: seq<WorkShift>) {
    && (match e.key
        case HalfFeeKey(_, _, _) => !e.kind.DriverPerDeliveryCredit?
        case ReturnKey(_) => o.progress.Returned?
        case ReturnPerDeliveryKey(_, _) => o.progress.Returned?
        case _ => o.progress.Delivered?)
    && (Settled(o) && o.shift.value < |shifts| ==>
          && (e.key.AdjustmentKey? ==> e.key.version <= shifts[o.shift.value].version)
          && (e.kind.DriverPerDeliveryCredit? ==> e.owner == shifts[o.shift.value].driver))
  }

  predicate Fits(e: Entry, orders: seq<Order>, shifts: seq<WorkShift>) {
    && e.order == OrderOf(e.key)
    && (e.order.Some? ==> e.order.value < |orders| && FitsOrder(e, orders[e.order.value], shifts))
  }

  ghost predicate AllFit(l: seq<Entry>, orders: seq<Order>, shifts: seq<WorkShift>) {
    forall e | e in l :: Fits(e, orders, shifts)
  }

  predicate Doubled(key: Key) {
    (key.HalfFeeKey? || key.AdjustmentKey? || key.DailyKey?) && key.party.Driver?
  }

  function Twin(key: Key): Key
    requires Doubled(key)
  {
    key.(party := Store)
  }

  /** What a driver gets by a pair, the store has paid, and the other way around. */
  ghost predicate Paired(l: seq<Entry>) {
    forall key | Doubled(key) :: HasKey(l, key) <==> HasKey(l, Twin(key))
  }

  ghost predicate UniqueKeys(l: seq<Entry>) {
    forall i, j | 0 <= i < j < |l| :: l[i].key != l[j].key
  }

  ghost predicate Balanced(l: seq<Entry>, orders: seq<Order>) {
    && (forall id | 0 <= id < |orders| :: Total(l, OfOrder(id)) == Due(orders[id]))
    && (forall id | 0 <= id < |orders| :: Total(l, StoreExtras(id)) + Total(l, Extras(id)) == 0)
  }

  ghost predicate AllAgree(orders: seq<Order>, shifts: seq<WorkShift>) {
    forall id | 0 <= id < |orders| && (orders[id].progress.Underway? || !orders[id].batched) ::
        Agrees(orders[id], shifts)
  }

  ghost predicate Sound(b: Books) {
    && AllFit(b.ledger, b.orders, b.shifts)
    && Paired(b.ledger)
    && UniqueKeys(b.ledger)
    && Balanced(b.ledger, b.orders)
    && AllAgree(b.orders, b.shifts)
  }

  lemma {:induction false} InsertAllKeepsUnique(l: seq<Entry>, es: seq<Entry>)
    requires UniqueKeys(l)
    ensures UniqueKeys(InsertAll(l, es))
  {
    if |es| > 0 {
      var before := InsertAll(l, es[..|es| - 1]);
      InsertAllKeepsUnique(l, es[..|es| - 1]);
      if !HasKey(before, es[|es| - 1].key) {
        assert forall i | 0 <= i < |before| :: before[i].key != es[|es| - 1].key;
      }
    }
  }

  lemma {:induction false} InsertAllAddsOnly(l: seq<Entry>, es: seq<Entry>)
    ensures l <= InsertAll(l, es)
    ensures forall e | e in InsertAll(l, es) :: e in l || e in es
  {
    if |es| > 0 {
      InsertAllAddsOnly(l, es[..|es| - 1]);
    }
  }

  ghost predicate NoneOrPair(es: seq<Entry>) {
    es == [] || (IsPair(es) && Doubled(es[0].key) && es[1].key == Twin(es[0].key))
  }

  lemma PairKeepsPaired(l: seq<Entry>, es: seq<Entry>)
    requires Paired(l) && NoneOrPair(es)
    ensures Paired(InsertPair(l, es))
  {
    if es != [] {
      PairInsertion(l, es);
      var next := InsertPair(l, es);
      if !HasKey(l, es[0].key) {
        forall key | Doubled(key) ensures HasKey(next, key) <==> HasKey(next, Twin(key)) {
          HasKeyAppend(l, es[0], key);
          HasKeyAppend(l + [es[0]], es[1], key);
          HasKeyAppend(l, es[0], Twin(key));
          HasKeyAppend(l + [es[0]], es[1], Twin(key));
        }
      }
    }
  }

  /** A pair keeps every balance. */
  lemma PairKeepsBalance(l: seq<Entry>, es: seq<Entry>, orders: seq<Order>)
    requires Paired(l) && Balanced(l, orders) && NoneOrPair(es)
    ensures Balanced(InsertPair(l, es), orders)
  {
    if es != [] {
      var next := InsertPair(l, es);
      forall id | 0 <= id < |orders|
        ensures Total(next, OfOrder(id)) == Due(orders[id])
        ensures Total(next, StoreExtras(id)) + Total(next, Extras(id)) == 0
      {
        PairTotals(l, es, id);
      }
    }
  }

  lemma PairKeepsUnique(l: seq<Entry>, es: seq<Entry>)
    requires UniqueKeys(l)
    ensures UniqueKeys(InsertPair(l, es))
  {
    if |es| == 2 {
      InsertKeepsUnique(l, es[0]);
      InsertKeepsUnique(Insert(l, es[0]), es[1]);
    }
  }

  lemma InsertKeepsUnique(l: seq<Entry>, e: Entry)
    requires UniqueKeys(l)
    ensures UniqueKeys(Insert(l, e))
  {
    if !HasKey(l, e.key) {
      assert forall i | 0 <= i < |l| :: l[i].key != e.key;
    }
  }

  lemma FitsAfterInsert(l: seq<Entry>, es: seq<Entry>, orders: seq<Order>, shifts: seq<WorkShift>)
    requires AllFit(l, orders, shifts) && AllFit(es, orders, shifts)
    ensures AllFit(InsertAll(l, es), orders, shifts)
  {
    InsertAllAddsOnly(l, es);
  }

  // ----- Adjustments -----

  lemma PairOfAdjustment(l: seq<Entry>, a: Adjustment, id: nat)
    ensures NoneOrPair(AdjustmentPair(l, a, id))
  {
  }

  lemma {:induction false} AdjustmentsKeepPaired(l: seq<Entry>, a: Adjustment, ids: seq<nat>, n: nat)
    requires n <= |ids| && Paired(l)
    ensures Paired(Adjusted(l, a, ids, n))
  {
    if n > 0 {
      AdjustmentsKeepPaired(l, a, ids, n - 1);
      PairOfAdjustment(l, a, ids[n - 1]);
      PairKeepsPaired(Adjusted(l, a, ids, n - 1), AdjustmentPair(l, a, ids[n - 1]));
    }
  }

  lemma {:induction false} AdjustmentsKeepBalance(l: seq<Entry>, a: Adjustment, ids: seq<nat>, n: nat,
      orders: seq<Order>)
    requires n <= |ids| && Paired(l) && Balanced(l, orders)
    ensures Balanced(Adjusted(l, a, ids, n), orders)
  {
    if n > 0 {
      AdjustmentsKeepBalance(l, a, ids, n - 1, orders);
      AdjustmentsKeepPaired(l, a, ids, n - 1);
      PairOfAdjustment(l, a, ids[n - 1]);
      PairKeepsBalance(Adjusted(l, a, ids, n - 1), AdjustmentPair(l, a, ids[n - 1]), orders);
    }
  }

  lemma {:induction false} AdjustmentsKeepUnique(l: seq<Entry>, a: Adjustment, ids: seq<nat>, n: nat)
    requires n <= |ids| && UniqueKeys(l)
    ensures UniqueKeys(Adjusted(l, a, ids, n))
  {
    if n > 0 {
      AdjustmentsKeepUnique(l, a, ids, n - 1);
      PairKeepsUnique(Adjusted(l, a, ids, n - 1), AdjustmentPair(l, a, ids[n - 1]));
    }
  }

  predicate IsAdjustment(e: Entry, a: Adjustment, ids: seq<nat>) {
    && e.key.AdjustmentKey? && e.key.version == a.version && e.key.order in ids && e.order == Some(e.key.order)
    && (e.kind.DriverPerDeliveryCredit? ==> e.owner == a.driver)
  }

  lemma {:induction false} AdjustedAddsOnly(l: seq<Entry>, a: Adjustment, ids: seq<nat>, n: nat)
    requires n <= |ids|
    ensures l <= Adjusted(l, a, ids, n)
    ensures forall e | e in Adjusted(l, a, ids, n) :: e in l || IsAdjustment(e, a, ids[..n])
  {
    if n > 0 {
      AdjustedAddsOnly(l, a, ids, n - 1);
      assert ids[..n] == ids[..n - 1] + [ids[n - 1]];
    }
  }

  lemma AdjustmentKeysOf(l: seq<Entry>, a: Adjustment, ids: seq<nat>, n: nat, key: Key)
    requires n <= |ids| && !(key.AdjustmentKey? && key.version == a.version && key.order in ids[..n])
    ensures HasKey(Adjusted(l, a, ids, n), key) <==> HasKey(l, key)
  {
    var next := Adjusted(l, a, ids, n);
    AdjustedAddsOnly(l, a, ids, n);
    if HasKey(next, key) {
      var i :| 0 <= i < |next| && next[i].key == key;
      assert next[i] in next;
      var j :| 0 <= j < |l| && l[j] == next[i];
    }
    if HasKey(l, key) {
      var i :| 0 <= i < |l| && l[i].key == key;
      assert next[i] == l[i];
    }
  }

  /** The sums that an adjustment of order `x` is about: the extras of its driver, or those of all drivers. */
  predicate Concerns(f: Filter, a: Adjustment, x: nat) {
    f == ExtrasOf(x, a.driver) || f == Extras(x)
  }

  lemma AdjustmentPairTotals(l: seq<Entry>, state: seq<Entry>, a: Adjustment, id: nat, x: nat, f: Filter)
    requires Paired(state) && Concerns(f, a, x)
    ensures Total(InsertPair(state, AdjustmentPair(l, a, id)), f) ==
              Total(state, f)
              + if x == id && !HasKey(state, AdjustmentKey(id, a.version, Driver))
                then a.target - Total(l, ExtrasOf(id, a.driver)) else 0
  {
    var pair := AdjustmentPair(l, a, id);
    if |pair| == 2 {
      assert Doubled(pair[0].key) && Twin(pair[0].key) == pair[1].key;
      PairInsertion(state, pair);
      if !HasKey(state, pair[0].key) {
        TotalAppend(state, pair[0], f);
        TotalAppend(state + [pair[0]], pair[1], f);
      }
    }
  }

  lemma {:induction false} AdjustmentLeaves(l: seq<Entry>, a: Adjustment, ids: seq<nat>, n: nat, x: nat, f: Filter)
    requires n <= |ids| && Paired(l) && x !in ids[..n] && Concerns(f, a, x)
    ensures Total(Adjusted(l, a, ids, n), f) == Total(l, f)
  {
    if n > 0 {
      assert ids[n - 1] in ids[..n] && forall y | y in ids[..n - 1] :: y in ids[..n];
      AdjustmentLeaves(l, a, ids, n - 1, x, f);
      AdjustmentsKeepPaired(l, a, ids, n - 1);
      AdjustmentPairTotals(l, Adjusted(l, a, ids, n - 1), a, ids[n - 1], x, f);
    }
  }

  /** An adjustment adds what its own driver lacks, once, and nothing when the key of its version is taken. */
  lemma {:induction false} AdjustmentAdds(l: seq<Entry>, a: Adjustment, ids: seq<nat>, n: nat, k: nat, f: Filter)
    requires k < n <= |ids| && Paired(l) && Concerns(f, a, ids[k])
    requires forall i, j | 0 <= i < j < |ids| :: ids[i] < ids[j]
    ensures Total(Adjusted(l, a, ids, n), f) ==
              Total(l, f)
              + if HasKey(l, AdjustmentKey(ids[k], a.version, Driver)) then 0
                else a.target - Total(l, ExtrasOf(ids[k], a.driver))
  {
    AdjustmentsKeepPaired(l, a, ids, n - 1);
    AdjustmentPairTotals(l, Adjusted(l, a, ids, n - 1), a, ids[n - 1], ids[k], f);
    if k < n - 1 {
      AdjustmentAdds(l, a, ids, n - 1, k, f);
    } else {
      assert forall i | 0 <= i < k :: ids[i] != ids[k];
      assert ids[k] !in ids[..k];
      AdjustmentLeaves(l, a, ids, k, ids[k], f);
      AdjustmentKeysOf(l, a, ids, k, AdjustmentKey(ids[k], a.version, Driver));
    }
  }

  /** When all extras of an order are one driver's, the two ways to add them up agree. */
  lemma {:induction false} ExtrasOfOneDriver(l: seq<Entry>, id: nat, driver: nat)
    requires forall e | e in l && Picks(Extras(id), e) :: e.owner == driver
    ensures Total(l, Extras(id)) == Total(l, ExtrasOf(id, driver))
  {
    if |l| > 0 {
      assert l[|l| - 1] in l;
      ExtrasOfOneDriver(l[..|l| - 1], id, driver);
    }
  }

  // ----- Every step keeps the ledger sound -----

  /** The entries of a delivery are all new. */
  lemma DeliveryIsAppended(b: Books, id: nat, bps: nat)
    requires AllFit(b.ledger, b.orders, b.shifts) && id < |b.orders| && b.orders[id].progress.Underway?
    ensures Deliver(b, id, bps).ledger == b.ledger + OrderEntries(id, b.orders[id], b.shifts, bps)
  {
    var es := OrderEntries(id, b.orders[id], b.shifts, bps);
    HalfFeesOnly(b, id);
    forall i | 0 <= i < |es| ensures !HasKey(b.ledger, es[i].key) {
      forall j | 0 <= j < |b.ledger| ensures b.ledger[j].key != es[i].key {
        assert Fits(b.ledger[j], b.orders, b.shifts);
      }
    }
    FreshEntriesAreAppended(b.ledger, es);
  }

  lemma DeliverKeepsBalance(b: Books, id: nat, bps: nat)
    requires Sound(b) && id < |b.orders| && b.orders[id].progress.Underway? && bps <= FULL_BPS
    ensures Balanced(Deliver(b, id, bps).ledger, Deliver(b, id, bps).orders)
  {
    var o, es := b.orders[id], OrderEntries(id, b.orders[id], b.shifts, bps);
    var next := Deliver(b, id, bps);
    DeliveryIsAppended(b, id, bps);
    forall x | 0 <= x < |next.orders|
      ensures Total(next.ledger, OfOrder(x)) == Due(next.orders[x])
      ensures Total(next.ledger, StoreExtras(x)) + Total(next.ledger, Extras(x)) == 0
    {
      DeliveryBalances(id, o, b.shifts, bps, x);
      TotalConcat(b.ledger, es, OfOrder(x));
      TotalConcat(b.ledger, es, Extras(x));
      TotalConcat(b.ledger, es, StoreExtras(x));
    }
  }

  lemma DeliverKeepsPaired(b: Books, id: nat, bps: nat)
    requires AllFit(b.ledger, b.orders, b.shifts) && Paired(b.ledger)
    requires id < |b.orders| && b.orders[id].progress.Underway?
    ensures Paired(Deliver(b, id, bps).ledger)
  {
    DeliveryIsAppended(b, id, bps);
    UndoubledKeepsPaired(b.ledger, OrderEntries(id, b.orders[id], b.shifts, bps));
  }

  lemma DeliverKeepsSound(b: Books, id: nat, bps: nat)
    requires Sound(b) && id < |b.orders| && b.orders[id].progress.Underway? && bps <= FULL_BPS
    ensures Sound(Deliver(b, id, bps))
  {
    var next := Deliver(b, id, bps);
    DeliverKeepsBalance(b, id, bps);
    InsertAllKeepsUnique(b.ledger, OrderEntries(id, b.orders[id], b.shifts, bps));
    DeliverKeepsFit(b, id, bps);
    DeliverKeepsPaired(b, id, bps);
    forall x | 0 <= x < |next.orders| && (next.orders[x].progress.Underway? || !next.orders[x].batched)
      ensures Agrees(next.orders[x], next.shifts)
    {
      assert Agrees(b.orders[x], b.shifts);
    }
  }

  lemma UndoubledKeepsPaired(l: seq<Entry>, es: seq<Entry>)
    requires Paired(l) && forall e | e in es :: !(e.key.HalfFeeKey? || e.key.AdjustmentKey? || e.key.DailyKey?)
    ensures Paired(l + es)
  {
    var next := l + es;
    assert forall i | |l| <= i < |next| :: next[i] in es;
    forall key: Key | key.HalfFeeKey? || key.AdjustmentKey? || key.DailyKey?
      ensures HasKey(next, key) <==> HasKey(l, key)
    {
      if HasKey(next, key) {
        var i :| 0 <= i < |next| && next[i].key == key;
        assert l[i] == next[i];
      }
      if HasKey(l, key) {
        var i :| 0 <= i < |l| && l[i].key == key;
        assert next[i] == l[i];
      }
    }
  }

  lemma DeliveryEntriesFit(id: nat, o: Order, shifts: seq<WorkShift>, bps: nat, orders: seq<Order>)
    requires id < |orders| && orders[id] == o.(progress := Delivered(bps)) && Agrees(o, shifts)
    ensures AllFit(OrderEntries(id, o, shifts, bps), orders, shifts)
  {
    var shift := FixedShift(o, shifts);
    var sale, fee, extra := SaleEntries(id, o, shift.Some?, Commission(o.subtotal, bps)),
        FeeEntries(id, o, shift.Some?), ExtraEntries(id, o, shift);
    assert AllFit(sale, orders, shifts);
    assert AllFit(fee, orders, shifts);
    assert AllFit(extra, orders, shifts);
  }

  /** An order that moves on without changing hands keeps its entries fitting. */
  lemma DeliverKeepsFit(b: Books, id: nat, bps: nat)
    requires Sound(b) && id < |b.orders| && b.orders[id].progress.Underway?
    ensures AllFit(Deliver(b, id, bps).ledger, Deliver(b, id, bps).orders, b.shifts)
  {
    var orders := Deliver(b, id, bps).orders;
    HalfFeesOnly(b, id);
    forall e | e in b.ledger ensures Fits(e, orders, b.shifts) {
      assert Fits(e, b.orders, b.shifts);
    }
    DeliveryEntriesFit(id, b.orders[id], b.shifts, bps, orders);
    FitsAfterInsert(b.ledger, OrderEntries(id, b.orders[id], b.shifts, bps), orders, b.shifts);
  }

  /** Before it is delivered or returned, an order has no entries other than half fees. */
  lemma HalfFeesOnly(b: Books, id: nat)
    requires AllFit(b.ledger, b.orders, b.shifts) && id < |b.orders|
    requires b.orders[id].progress.Underway? || b.orders[id].progress.Failed?
    ensures forall e | e in b.ledger && e.order == Some(id) :: e.key.HalfFeeKey?
  {
    forall e | e in b.ledger && e.order == Some(id) ensures e.key.HalfFeeKey? {
      assert Fits(e, b.orders, b.shifts);
    }
  }

  /** Entries under a pair of keys, for an order that may have them. */
  lemma PairKeepsSound(b: Books, es: seq<Entry>, orders: seq<Order>, shifts: seq<WorkShift>)
    requires Sound(b) && |orders| == |b.orders| && AllAgree(orders, shifts)
    requires AllFit(b.ledger, orders, shifts) && AllFit(es, orders, shifts)
    requires NoneOrPair(es)
    requires forall id | 0 <= id < |orders| :: Due(orders[id]) == Due(b.orders[id])
    ensures Sound(Books(orders, shifts, InsertPair(b.ledger, es)))
  {
    assert Balanced(b.ledger, orders);
    PairKeepsBalance(b.ledger, es, orders);
    PairKeepsPaired(b.ledger, es);
    PairKeepsUnique(b.ledger, es);
  }

  lemma ReleaseDriverKeepsSound(b: Books, id: nat, driver: nat, arrived: bool)
    requires Sound(b) && id < |b.orders| && b.orders[id].progress.Underway?
    ensures Sound(ReleaseDriver(b, id, driver, arrived))
  {
    var o := b.orders[id];
    var amount := if o.shift.None? && arrived then HalfFee(o.fee) else 0;
    var next := ReleaseDriver(b, id, driver, arrived);
    forall e | e in b.ledger ensures Fits(e, next.orders, b.shifts) {
      assert Fits(e, b.orders, b.shifts);
    }
    PairKeepsSound(b, HalfFeeEntries(id, o.store, driver, amount), next.orders, b.shifts);
  }

  lemma PayDailyKeepsSound(b: Books, k: nat)
    requires Sound(b) && k < |b.shifts|
    ensures Sound(b.(ledger := InsertPair(b.ledger, DailyEntries(k, b.shifts[k]))))
  {
    PairKeepsSound(b, DailyEntries(k, b.shifts[k]), b.orders, b.shifts);
  }

  lemma AcceptTermsKeepsFit(b: Books, k: nat, daily: nat, perDelivery: nat, retroactive: bool)
    requires Sound(b) && k < |b.shifts| && b.shifts[k].active
    ensures var next := AcceptTerms(b, k, daily, perDelivery, retroactive);
            AllFit(next.ledger, next.orders, next.shifts)
  {
    var next := AcceptTerms(b, k, daily, perDelivery, retroactive);
    var a, ids := AdjustmentOf(next.shifts[k]), DeliveredIn(b.orders, k);
    forall e | e in b.ledger ensures Fits(e, b.orders, next.shifts) {
      assert Fits(e, b.orders, b.shifts);
    }
    if retroactive {
      AdjustedAddsOnly(b.ledger, a, ids, |ids|);
      forall e | e in next.ledger ensures Fits(e, b.orders, next.shifts) {
        if e !in b.ledger {
          assert IsAdjustment(e, a, ids[..|ids|]) && e.key.order in ids;
        }
      }
    }
  }

  lemma AcceptTermsKeepsSound(b: Books, k: nat, daily: nat, perDelivery: nat, retroactive: bool)
    requires Sound(b) && k < |b.shifts| && b.shifts[k].active
    ensures Sound(AcceptTerms(b, k, daily, perDelivery, retroactive))
  {
    var next := AcceptTerms(b, k, daily, perDelivery, retroactive);
    var a, ids := AdjustmentOf(next.shifts[k]), DeliveredIn(b.orders, k);
    AcceptTermsKeepsFit(b, k, daily, perDelivery, retroactive);
    if retroactive {
      AdjustmentsKeepPaired(b.ledger, a, ids, |ids|);
      AdjustmentsKeepUnique(b.ledger, a, ids, |ids|);
      AdjustmentsKeepBalance(b.ledger, a, ids, |ids|, b.orders);
    }
    assert AllAgree(next.orders, next.shifts);
  }

  lemma ReturnTotals(id: nat, o: Order, pay: nat, shifts: seq<WorkShift>, x: nat)
    ensures var l := ReturnEntries(id, o, pay, shifts);
            && Total(l, OfOrder(x)) == (if x == id && o.driver.Some? && FixedShift(o, shifts).None? then pay else 0)
            && Total(l, StoreExtras(x)) + Total(l, Extras(x)) == 0
  {
    var l := ReturnEntries(id, o, pay, shifts);
    if |l| == 2 {
      TotalOfTwo(l[0], l[1], OfOrder(x));
      TotalOfTwo(l[0], l[1], Extras(x));
      TotalOfTwo(l[0], l[1], StoreExtras(x));
    }
  }

  lemma ReturnIsAppended(b: Books, id: nat, pay: nat)
    requires AllFit(b.ledger, b.orders, b.shifts) && id < |b.orders| && b.orders[id].progress.Failed?
    ensures Return(b, id, pay).ledger == b.ledger + ReturnEntries(id, b.orders[id], pay, b.shifts)
  {
    var es := ReturnEntries(id, b.orders[id], pay, b.shifts);
    HalfFeesOnly(b, id);
    forall i | 0 <= i < |es| ensures !HasKey(b.ledger, es[i].key) {
      forall j | 0 <= j < |b.ledger| ensures b.ledger[j].key != es[i].key {
        assert Fits(b.ledger[j], b.orders, b.shifts);
      }
    }
    FreshEntriesAreAppended(b.ledger, es);
  }

  lemma ReturnKeepsBalance(b: Books, id: nat, pay: nat)
    requires Sound(b) && id < |b.orders| && b.orders[id].progress.Failed?
    ensures Balanced(Return(b, id, pay).ledger, Return(b, id, pay).orders)
  {
    var es, next := ReturnEntries(id, b.orders[id], pay, b.shifts), Return(b, id, pay);
    ReturnIsAppended(b, id, pay);
    forall x | 0 <= x < |next.orders|
      ensures Total(next.ledger, OfOrder(x)) == Due(next.orders[x])
      ensures Total(next.ledger, StoreExtras(x)) + Total(next.ledger, Extras(x)) == 0
    {
      ReturnTotals(id, b.orders[id], pay, b.shifts, x);
      TotalConcat(b.ledger, es, OfOrder(x));
      TotalConcat(b.ledger, es, Extras(x));
      TotalConcat(b.ledger, es, StoreExtras(x));
    }
  }

  lemma ReturnKeepsFit(b: Books, id: nat, pay: nat)
    requires Sound(b) && id < |b.orders| && b.orders[id].progress.Failed?
    ensures AllFit(Return(b, id, pay).ledger, Return(b, id, pay).orders, b.shifts)
  {
    var es, orders := ReturnEntries(id, b.orders[id], pay, b.shifts), Return(b, id, pay).orders;
    forall e | e in b.ledger ensures Fits(e, orders, b.shifts) {
      assert Fits(e, b.orders, b.shifts);
    }
    FitsAfterInsert(b.ledger, es, orders, b.shifts);
  }

  lemma ReturnKeepsSound(b: Books, id: nat, pay: nat)
    requires Sound(b) && id < |b.orders| && b.orders[id].progress.Failed?
    ensures Sound(Return(b, id, pay))
  {
    ReturnKeepsBalance(b, id, pay);
    ReturnKeepsFit(b, id, pay);
    InsertAllKeepsUnique(b.ledger, ReturnEntries(id, b.orders[id], pay, b.shifts));
    ReturnIsAppended(b, id, pay);
    UndoubledKeepsPaired(b.ledger, ReturnEntries(id, b.orders[id], pay, b.shifts));
    var next := Return(b, id, pay);
    forall x | 0 <= x < |next.orders| && (next.orders[x].progress.Underway? || !next.orders[x].batched)
      ensures Agrees(next.orders[x], next.shifts)
    {
      assert Agrees(b.orders[x], b.shifts);
    }
  }

  /** A changed order with the same entries and the same balance. */
  lemma OrderUpdateKeepsSound(b: Books, id: nat, o: Order)
    requires Sound(b) && id < |b.orders| && Due(o) == Due(b.orders[id])
    requires (o.progress.Underway? || !o.batched) ==> Agrees(o, b.shifts)
    requires forall e | e in b.ledger && e.order == Some(id) && FitsOrder(e, b.orders[id], b.shifts) ::
              FitsOrder(e, o, b.shifts)
    ensures Sound(b.(orders := b.orders[id := o]))
  {
    var orders := b.orders[id := o];
    forall e | e in b.ledger ensures Fits(e, orders, b.shifts) {
      assert Fits(e, b.orders, b.shifts);
    }
  }

  lemma PlaceKeepsSound(b: Books, o: Order)
    requires Sound(b) && o.progress.Underway? && Agrees(o, b.shifts)
    ensures Sound(b.(orders := b.orders + [o]))
  {
    var orders := b.orders + [o];
    forall e | e in b.ledger ensures Fits(e, orders, b.shifts) && e.order != Some(|b.orders|) {
      assert Fits(e, b.orders, b.shifts);
    }
    TotalOfNone(b.ledger, OfOrder(|b.orders|));
    TotalOfNone(b.ledger, Extras(|b.orders|));
    TotalOfNone(b.ledger, StoreExtras(|b.orders|));
  }

  /** A shift that starts, ends or reopens keeps its store, its driver and its version. */
  lemma ShiftUpdateKeepsSound(b: Books, shifts: seq<WorkShift>)
    requires Sound(b) && |shifts| >= |b.shifts|
    requires forall k | 0 <= k < |b.shifts| ::
               shifts[k].store == b.shifts[k].store && shifts[k].driver == b.shifts[k].driver
                   && shifts[k].version == b.shifts[k].version
    ensures Sound(b.(shifts := shifts))
  {
    forall e | e in b.ledger ensures Fits(e, b.orders, shifts) {
      assert Fits(e, b.orders, b.shifts);
      if e.order.Some? && Settled(b.orders[e.order.value]) {
        assert Agrees(b.orders[e.order.value], b.shifts);
      }
    }
  }

  /**
   * Orders keep their store and stay with the store and driver of their shift, and commission rates are those that the
   * administration may set.
   */
  ghost predicate Admissible(b: Books, step: Step) {
    match step
    case Places(o) => Agrees(o, b.shifts)
    case Rewrites(id, o) => Agrees(o, b.shifts) && (id < |b.orders| ==> o.store == b.orders[id].store)
    case Reassigns(id, driver, shift) =>
      id < |b.orders| ==> Agrees(b.orders[id].(driver := driver, shift := shift), b.shifts)
    case Delivers(_, bps) => bps <= FULL_BPS
    case _ => true
  }

  lemma OrderStepKeepsSound(b: Books, step: Step)
    requires Sound(b) && Admissible(b, step)
    requires step.Rewrites? || step.Fails? || step.Reassigns? || step.Unbatches?
    ensures Sound(Next(b, step))
  {
    if Next(b, step) != b {
      assert b.orders[step.id].progress.Underway? ==> Agrees(b.orders[step.id], b.shifts);
      OrderUpdateKeepsSound(b, step.id, Next(b, step).orders[step.id]);
    }
  }

  lemma NextKeepsSound(b: Books, step: Step)
    requires Sound(b) && Admissible(b, step)
    ensures Sound(Next(b, step))
  {
    if Next(b, step) != b {
      match step
      case Places(o) => PlaceKeepsSound(b, o);
      case Delivers(id, bps) => DeliverKeepsSound(b, id, bps);
      case Returns(id) => ReturnKeepsSound(b, id, b.orders[id].progress.pay);
      case ReleasesDriver(id, arrived) => ReleaseDriverKeepsSound(b, id, b.orders[id].driver.value, arrived);
      case StartsShift(_, _, _, _) => ShiftUpdateKeepsSound(b, Next(b, step).shifts);
      case AcceptsTerms(k, daily, perDelivery, retroactive) =>
          AcceptTermsKeepsSound(b, k, daily, perDelivery, retroactive);
      case EndsShift(_) => ShiftUpdateKeepsSound(b, Next(b, step).shifts);
      case ReopensShift(_) => ShiftUpdateKeepsSound(b, Next(b, step).shifts);
      case PaysDaily(k) => PayDailyKeepsSound(b, k);
      case _ => OrderStepKeepsSound(b, step);
    }
  }

  function Run(steps: seq<Step>): Books {
    if |steps| == 0 then Books([], [], []) else Next(Run(steps[..|steps| - 1]), steps[|steps| - 1])
  }

  ghost predicate Plausible(steps: seq<Step>) {
    forall i | 0 <= i < |steps| :: Admissible(Run(steps[..i]), steps[i])
  }

  lemma {:induction false} RunsKeepSound(steps: seq<Step>)
    requires Plausible(steps)
    ensures Sound(Run(steps))
  {
    if |steps| > 0 {
      var init := steps[..|steps| - 1];
      forall i | 0 <= i < |init| ensures Admissible(Run(init[..i]), init[i]) {
        assert init[..i] == steps[..i];
      }
      RunsKeepSound(init);
      NextKeepsSound(Run(init), steps[|steps| - 1]);
    }
  }

  /**
   * Over every run: the entries of a delivered order add up to its total if it was paid online, else to nothing,
   * less the commission, whichever mix of drivers, half fees and adjustments it saw.
   */
  lemma DeliveredOrdersBalance(steps: seq<Step>, id: nat)
    requires Plausible(steps) && id < |Run(steps).orders| && Run(steps).orders[id].progress.Delivered?
    ensures var o := Run(steps).orders[id];
            Total(Run(steps).ledger, OfOrder(id))
              == (if o.online then o.subtotal + o.fee else 0) - Commission(o.subtotal, o.progress.bps)
  {
    RunsKeepSound(steps);
  }

  /** What the stores have paid in extras is what the drivers have received, and every key was used at most once. */
  lemma ExtrasAreConserved(steps: seq<Step>, id: nat)
    requires Plausible(steps) && id < |Run(steps).orders|
    ensures var l := Run(steps).ledger; Total(l, StoreExtras(id)) == -Total(l, Extras(id)) && UniqueKeys(l)
  {
    RunsKeepSound(steps);
  }

  /** The key of the next version is free for an order that cannot have changed shifts since its delivery. */
  lemma NextVersionIsFree(b: Books, k: nat, id: nat)
    requires AllFit(b.ledger, b.orders, b.shifts) && k < |b.shifts| && id < |b.orders|
    requires Settled(b.orders[id]) && b.orders[id].shift == Some(k)
    ensures !HasKey(b.ledger, AdjustmentKey(id, b.shifts[k].version + 1, Driver))
  {
    var key := AdjustmentKey(id, b.shifts[k].version + 1, Driver);
    forall i | 0 <= i < |b.ledger| ensures b.ledger[i].key != key {
      assert Fits(b.ledger[i], b.orders, b.shifts);
    }
  }

  lemma NewExtrasAreExact(b: Books, k: nat, daily: nat, perDelivery: nat, id: nat)
    requires AllFit(b.ledger, b.orders, b.shifts) && Paired(b.ledger) && k < |b.shifts| && b.shifts[k].active
    requires id < |b.orders| && Settled(b.orders[id]) && b.orders[id].shift == Some(k)
    ensures Total(AcceptTerms(b, k, daily, perDelivery, true).ledger, ExtrasOf(id, b.shifts[k].driver)) == perDelivery
  {
    var s, ids := AcceptTerms(b, k, daily, perDelivery, true).shifts[k], DeliveredIn(b.orders, k);
    NextVersionIsFree(b, k, id);
    var i :| 0 <= i < |ids| && ids[i] == id;
    AdjustmentAdds(b.ledger, AdjustmentOf(s), ids, |ids|, i, ExtrasOf(id, s.driver));
  }

  /** An order that keeps its shift has extras of that shift's driver only. */
  lemma SettledExtras(b: Books, k: nat, id: nat)
    requires AllFit(b.ledger, b.orders, b.shifts) && k < |b.shifts|
    requires id < |b.orders| && Settled(b.orders[id]) && b.orders[id].shift == Some(k)
    ensures Total(b.ledger, Extras(id)) == Total(b.ledger, ExtrasOf(id, b.shifts[k].driver))
  {
    forall e | e in b.ledger && Picks(Extras(id), e) ensures e.owner == b.shifts[k].driver {
      assert Fits(e, b.orders, b.shifts);
    }
    ExtrasOfOneDriver(b.ledger, id, b.shifts[k].driver);
  }

  /**
   * Over every run: once a driver accepts retroactive terms, each order of the shift that no batch can hand over pays
   * exactly the new extra to the driver and charges exactly as much to the store.
   */
  lemma RetroactiveTermsAreExact(steps: seq<Step>, k: nat, daily: nat, perDelivery: nat, id: nat)
    requires Plausible(steps) && k < |Run(steps).shifts| && Run(steps).shifts[k].active
    requires id < |Run(steps).orders| && Settled(Run(steps).orders[id]) && Run(steps).orders[id].shift == Some(k)
    ensures var next := AcceptTerms(Run(steps), k, daily, perDelivery, true);
            && Total(next.ledger, ExtrasOf(id, next.shifts[k].driver)) == perDelivery
            && Total(next.ledger, Extras(id)) == perDelivery
            && Total(next.ledger, StoreExtras(id)) == 0 - perDelivery
  {
    RunsKeepSound(steps);
    var b := Run(steps);
    NewExtrasAreExact(b, k, daily, perDelivery, id);
    AcceptTermsKeepsSound(b, k, daily, perDelivery, true);
    SettledExtras(AcceptTerms(b, k, daily, perDelivery, true), k, id);
  }

  // ----- Exactly when an adjustment reaches its target -----

  /** What drivers other than `driver` have been paid in extras for the order. */
  function OthersExtras(l: seq<Entry>, id: nat, driver: nat): int {
    Total(l, Extras(id)) - Total(l, ExtrasOf(id, driver))
  }

  /**
   * What the new terms lack for an order, seen before they are accepted: the key of the next version is free and other
   * drivers' extras come to nothing, or that key is taken and the extras are at the target already.
   */
  predicate WillReach(l: seq<Entry>, s: WorkShift, id: nat, perDelivery: nat) {
    if HasKey(l, AdjustmentKey(id, s.version + 1, Driver)) then Total(l, Extras(id)) == perDelivery
    else OthersExtras(l, id, s.driver) == 0
  }

  lemma NewExtrasAre(b: Books, k: nat, daily: nat, perDelivery: nat, id: nat)
    requires Paired(b.ledger) && k < |b.shifts| && b.shifts[k].active && id in DeliveredIn(b.orders, k)
    ensures Total(AcceptTerms(b, k, daily, perDelivery, true).ledger, Extras(id)) ==
              Total(b.ledger, Extras(id))
              + if HasKey(b.ledger, AdjustmentKey(id, b.shifts[k].version + 1, Driver)) then 0
                else perDelivery - Total(b.ledger, ExtrasOf(id, b.shifts[k].driver))
  {
    var s, ids := AcceptTerms(b, k, daily, perDelivery, true).shifts[k], DeliveredIn(b.orders, k);
    var i :| 0 <= i < |ids| && ids[i] == id;
    AdjustmentAdds(b.ledger, AdjustmentOf(s), ids, |ids|, i, Extras(id));
  }

  /**
   * Over every run and for every order that counts as delivered in the shift, however it came there: retroactive terms
   * bring its extras to the new value, and the store's debits with them, if and only if the key of the next version is
   * free and no other driver's extras are left, or the key is taken and the extras are there already.
   */
  lemma RetroactiveTermsReachTheTarget(steps: seq<Step>, k: nat, daily: nat, perDelivery: nat, id: nat)
    requires Plausible(steps) && k < |Run(steps).shifts| && Run(steps).shifts[k].active
    requires id in DeliveredIn(Run(steps).orders, k)
    ensures var l := AcceptTerms(Run(steps), k, daily, perDelivery, true).ledger;
            && Total(l, StoreExtras(id)) == -Total(l, Extras(id))
            && (Total(l, Extras(id)) == perDelivery <==>
                  WillReach(Run(steps).ledger, Run(steps).shifts[k], id, perDelivery))
  {
    RunsKeepSound(steps);
    AcceptTermsKeepsSound(Run(steps), k, daily, perDelivery, true);
    NewExtrasAre(Run(steps), k, daily, perDelivery, id);
  }

  /** An order that kept its shift always meets the condition. */
  lemma SettledOrdersWillReach(steps: seq<Step>, k: nat, perDelivery: nat, id: nat)
    requires Plausible(steps) && k < |Run(steps).shifts|
    requires id < |Run(steps).orders| && Settled(Run(steps).orders[id]) && Run(steps).orders[id].shift == Some(k)
    ensures WillReach(Run(steps).ledger, Run(steps).shifts[k], id, perDelivery)
  {
    RunsKeepSound(steps);
    NextVersionIsFree(Run(steps), k, id);
    SettledExtras(Run(steps), k, id);
  }

  // ----- An order that a batch hands over after its delivery -----

  function Handed(progress: Progress, driver: nat, shift: nat): Order {
    Order(progress, 100, 0, false, 0, Some(driver), Some(shift), true)
  }

  function TwoShifts(): seq<WorkShift> {
    [WorkShift(0, 1, true, 0, 5, 0), WorkShift(0, 2, true, 0, 5, 0)]
  }

  function Started(): seq<Step> {
    [StartsShift(0, 1, 0, 5)]
  }

  function BothStarted(): seq<Step> {
    Started() + [StartsShift(0, 2, 0, 5)]
  }

  function Placed(): seq<Step> {
    BothStarted() + [Places(Handed(Underway, 1, 0))]
  }

  /** The steps by which a batch that is released after a delivery hands the delivered order to another shift. */
  function HandedOver(): seq<Step> {
    Placed() + [Delivers(0, 0)] + [Reassigns(0, Some(2), Some(1))]
  }

  lemma RunAppend(steps: seq<Step>, step: Step)
    requires Plausible(steps) && Admissible(Run(steps), step)
    ensures Run(steps + [step]) == Next(Run(steps), step) && Plausible(steps + [step])
  {
    var all := steps + [step];
    assert all[..|steps|] == steps;
    forall i | 0 <= i < |steps| ensures Admissible(Run(all[..i]), all[i]) {
      assert all[..i] == steps[..i];
    }
  }

  lemma StartedState()
    ensures Plausible(Started()) && Run(Started()) == Books([], [TwoShifts()[0]], [])
  {
    var none: seq<Step> := [];
    var b := Books([], [], []);
    assert Run(none) == b;
    RunAppend(none, StartsShift(0, 1, 0, 5));
    assert none + [StartsShift(0, 1, 0, 5)] == Started();
    assert b.shifts + [WorkShift(0, 1, true, 0, 5, 0)] == [TwoShifts()[0]];
  }

  lemma BothStartedState()
    ensures Plausible(BothStarted()) && Run(BothStarted()) == Books([], TwoShifts(), [])
  {
    StartedState();
    RunAppend(Started(), StartsShift(0, 2, 0, 5));
  }

  lemma PlacedState()
    ensures Plausible(Placed()) && Run(Placed()) == Books([Handed(Underway, 1, 0)], TwoShifts(), [])
  {
    BothStartedState();
    RunAppend(BothStarted(), Places(Handed(Underway, 1, 0)));
  }

  function HandedOverBooks(o: Order): Books {
    Books([o], TwoShifts(), ExtraEntries(0, Handed(Underway, 1, 0), Some(TwoShifts()[0])))
  }

  lemma FirstDelivery()
    ensures OrderEntries(0, Handed(Underway, 1, 0), TwoShifts(), 0) ==
              ExtraEntries(0, Handed(Underway, 1, 0), Some(TwoShifts()[0]))
  {
    var o := Handed(Underway, 1, 0);
    assert FixedShift(o, TwoShifts()) == Some(TwoShifts()[0]) && Commission(100, 0) == 0;
    assert SaleEntries(0, o, true, 0) == [] && FeeEntries(0, o, true) == [];
  }

  lemma DeliveredState()
    ensures Deliver(Books([Handed(Underway, 1, 0)], TwoShifts(), []), 0, 0) ==
              HandedOverBooks(Handed(Delivered(0), 1, 0))
  {
    FirstDelivery();
    FreshEntriesAreAppended([], OrderEntries(0, Handed(Underway, 1, 0), TwoShifts(), 0));
    assert [Handed(Underway, 1, 0)][0 := Handed(Delivered(0), 1, 0)] == [Handed(Delivered(0), 1, 0)];
  }

  lemma ReassignedState()
    ensures Next(HandedOverBooks(Handed(Delivered(0), 1, 0)), Reassigns(0, Some(2), Some(1))) ==
              HandedOverBooks(Handed(Delivered(0), 2, 1))
  {
    assert [Handed(Delivered(0), 1, 0)][0 := Handed(Delivered(0), 2, 1)] == [Handed(Delivered(0), 2, 1)];
  }

  lemma HandedOverState()
    ensures Plausible(HandedOver()) && Run(HandedOver()) == HandedOverBooks(Handed(Delivered(0), 2, 1))
  {
    PlacedState();
    RunAppend(Placed(), Delivers(0, 0));
    DeliveredState();
    RunAppend(Placed() + [Delivers(0, 0)], Reassigns(0, Some(2), Some(1)));
    ReassignedState();
  }

  lemma HandedOverDeliveries()
    ensures DeliveredIn([Handed(Delivered(0), 2, 1)], 1) == [0]
  {
    var ids := DeliveredIn([Handed(Delivered(0), 2, 1)], 1);
    assert 0 in ids;
    assert forall i | 0 <= i < |ids| :: ids[i] in ids;
  }

  lemma HandedOverAdjusted()
    ensures var b := HandedOverBooks(Handed(Delivered(0), 2, 1));
            AcceptTerms(b, 1, 0, 7, true).ledger == Adjusted(b.ledger, Adjustment(1, 0, 2, 7), [0], 1)
  {
    HandedOverDeliveries();
    assert AdjustmentOf(WorkShift(0, 2, true, 0, 7, 1)) == Adjustment(1, 0, 2, 7);
  }

  lemma HandedOverWillNotReach(l: seq<Entry>)
    requires l == ExtraEntries(0, Handed(Underway, 1, 0), Some(TwoShifts()[0]))
    ensures !WillReach(l, TwoShifts()[1], 0, 7)
  {
    TotalOfTwo(l[0], l[1], ExtrasOf(0, 2));
    TotalOfTwo(l[0], l[1], Extras(0));
    assert Total(l, Extras(0)) == 5 && OthersExtras(l, 0, 2) == 5;
  }

  /** For such an order the same terms pay one delivery twice: the new driver gets 7, and extras add up to 12. */
  lemma HandedOverOrderIsPaidTwice()
    ensures Plausible(HandedOver()) && Run(HandedOver()) == HandedOverBooks(Handed(Delivered(0), 2, 1))
    ensures var next := AcceptTerms(HandedOverBooks(Handed(Delivered(0), 2, 1)), 1, 0, 7, true);
            Total(next.ledger, ExtrasOf(0, 2)) == 7 && Total(next.ledger, Extras(0)) == 12
    ensures !WillReach(HandedOverBooks(Handed(Delivered(0), 2, 1)).ledger, TwoShifts()[1], 0, 7)
  {
    HandedOverState();
    HandedOverWillNotReach(HandedOverBooks(Handed(Delivered(0), 2, 1)).ledger);
    HandedOverAdjusted();
    HandedOverTotals(HandedOverBooks(Handed(Delivered(0), 2, 1)).ledger);
  }

  lemma FourTotal(a: Entry, b: Entry, c: Entry, d: Entry, f: Filter)
    ensures Total([a, b] + [c] + [d], f) == Weight(a, f) + Weight(b, f) + Weight(c, f) + Weight(d, f)
  {
    TotalOfTwo(a, b, f);
    TotalAppend([a, b], c, f);
    TotalAppend([a, b] + [c], d, f);
  }

  lemma HandedOverTotals(l: seq<Entry>)
    requires l == ExtraEntries(0, Handed(Underway, 1, 0), Some(TwoShifts()[0]))
    ensures var next := Adjusted(l, Adjustment(1, 0, 2, 7), [0], 1);
            Total(next, ExtrasOf(0, 2)) == 7 && Total(next, Extras(0)) == 12
  {
    TotalOfTwo(l[0], l[1], ExtrasOf(0, 2));
    var pair := AdjustmentPair(l, Adjustment(1, 0, 2, 7), 0);
    PairInsertion(l, pair);
    assert Adjusted(l, Adjustment(1, 0, 2, 7), [0], 0) == l;
    assert l == [l[0], l[1]];
    FourTotal(l[0], l[1], pair[0], pair[1], ExtrasOf(0, 2));
    FourTotal(l[0], l[1], pair[0], pair[1], Extras(0));
  }
}

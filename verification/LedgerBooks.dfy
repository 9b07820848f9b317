/** The finance service as it runs: lists of entries that are built up and inserted one by one. */
module LedgerBooks {
  import opened Ledger
  import opened Wrappers

  function AdjustmentList(l: seq<Entry>, a: Adjustment, ids: seq<nat>, n: nat): seq<Entry>
    requires n <= |ids|
  {
    if n == 0 then [] else AdjustmentList(l, a, ids, n - 1) + AdjustmentPair(l, a, ids[n - 1])
  }

  /** Inserting the collected list is as good as inserting each pair when it is found. */
  lemma {:induction false} ListedIsAdjusted(l: seq<Entry>, a: Adjustment, ids: seq<nat>, n: nat)
    requires n <= |ids|
    ensures InsertAll(l, AdjustmentList(l, a, ids, n)) == Adjusted(l, a, ids, n)
  {
    if n > 0 {
      ListedIsAdjusted(l, a, ids, n - 1);
      ListThenPair(l, AdjustmentList(l, a, ids, n - 1), AdjustmentPair(l, a, ids[n - 1]), Adjusted(l, a, ids, n - 1));
    }
  }

  class LedgerBook {
    var entries: seq<Entry>

    constructor ()
      ensures entries == []
    {
      entries := [];
    }

    method InsertEntries(inputs: seq<Entry>)
      modifies this
      ensures entries == InsertAll(old(entries), inputs)
    {
      for i := 0 to |inputs|
        invariant entries == InsertAll(old(entries), inputs[..i])
      {
        assert inputs[..i + 1][..i] == inputs[..i];
        if !HasKey(entries, inputs[i].key) {
          entries := entries + [inputs[i]];
        }
      }
      assert inputs[..|inputs|] == inputs;
    }

    /** Called when an order has been delivered or has failed; a failure records nothing yet. */
    method RecordOrderLedger(id: nat, o: Order, delivered: bool, shifts: seq<WorkShift>, bps: nat)
      requires bps <= FULL_BPS
      modifies this
      ensures entries == InsertAll(old(entries), if delivered then OrderEntries(id, o, shifts, bps) else [])
    {
      var commission: int := Commission(o.subtotal, bps);
      var shift := FixedShift(o, shifts);
      var list := [];
      CommissionIsNearest(o.subtotal, bps);
      if delivered {
        if o.online {
          var storeCredit := o.subtotal - commission + (if o.driver.Some? && shift.None? then 0 else o.fee);
          if storeCredit > 0 {
            list := list + [Entry(SaleKey(id), Store, StoreSaleCredit, storeCredit, Some(id), o.store)];
          }
        } else {
          if commission > 0 {
            list := list + [Entry(CommissionKey(id), Store, StoreCommissionDebit, 0 - commission, Some(id), o.store)];
          }
          if o.driver.Some? && shift.None? && o.fee > 0 {
            list := list + [Entry(DriverFeeKey(id), Store, StoreDriverFeeDebit, 0 - o.fee, Some(id), o.store)];
          }
        }
        assert list == SaleEntries(id, o, shift.Some?, commission);
      }
      if delivered && o.driver.Some? && shift.None? && o.fee > 0 {
        list := list + [Entry(DeliveryKey(id), Driver, DriverDeliveryCredit, o.fee, Some(id), o.driver.value)];
      }
      if delivered && shift.Some? && o.driver.Some? && shift.value.perDelivery > 0 {
        list := list + [
          Entry(PerDeliveryKey(id, Driver), Driver, DriverPerDeliveryCredit, shift.value.perDelivery, Some(id),
              o.driver.value),
          Entry(PerDeliveryKey(id, Store), Store, StorePerDeliveryDebit, 0 - shift.value.perDelivery, Some(id),
              o.store)];
      }
      assert list == if delivered then OrderEntries(id, o, shifts, bps) else [];
      InsertEntries(list);
    }

    method RecordReturnLedger(id: nat, o: Order, pay: nat, shifts: seq<WorkShift>)
      modifies this
      ensures entries == InsertAll(old(entries), ReturnEntries(id, o, pay, shifts))
    {
      if o.driver.None? || pay <= 0 {
        return;
      }
      if FixedShift(o, shifts).None? {
        InsertEntries([Entry(ReturnKey(id), Driver, DriverDeliveryCredit, pay, Some(id), o.driver.value)]);
        return;
      }
      InsertEntries([
        Entry(ReturnPerDeliveryKey(id, Driver), Driver, DriverPerDeliveryCredit, pay, Some(id), o.driver.value),
        Entry(ReturnPerDeliveryKey(id, Store), Store, StorePerDeliveryDebit, 0 - pay, Some(id), o.store)]);
    }

    method RecordHalfFee(id: nat, store: nat, driver: nat, amount: nat)
      modifies this
      ensures entries == InsertPair(old(entries), HalfFeeEntries(id, store, driver, amount))
    {
      InsertPairIsInsertAll(entries, HalfFeeEntries(id, store, driver, amount));
      if amount > 0 {
        InsertEntries([
          Entry(HalfFeeKey(id, driver, Driver), Driver, DriverHalfFeeCredit, amount, Some(id), driver),
          Entry(HalfFeeKey(id, driver, Store), Store, StoreHalfFeeDebit, 0 - amount, Some(id), store)]);
      }
    }

    method RecordShiftDaily(k: nat, s: WorkShift)
      modifies this
      ensures entries == InsertPair(old(entries), DailyEntries(k, s))
    {
      InsertPairIsInsertAll(entries, DailyEntries(k, s));
      if s.daily > 0 {
        InsertEntries([
          Entry(DailyKey(k, Driver), Driver, DriverDailyRateCredit, s.daily, None, s.driver),
          Entry(DailyKey(k, Store), Store, StoreDailyRateDebit, 0 - s.daily, None, s.store)]);
      }
    }

    /** What each order's driver has been paid in extras, added up in one pass over the ledger. */
    method PaidByOrder(driver: nat, ids: seq<nat>) returns (paid: map<nat, int>)
      ensures forall id | id in ids :: (if id in paid then paid[id] else 0) == Total(entries, ExtrasOf(id, driver))
    {
      paid := map[];
      for i := 0 to |entries|
        invariant forall id | id in ids ::
                  (if id in paid then paid[id] else 0) == Total(entries[..i], ExtrasOf(id, driver))
      {
        var e := entries[i];
        assert entries[..i + 1][..i] == entries[..i];
        if e.order.Some? && e.order.value in ids && e.party.Driver? && e.kind.DriverPerDeliveryCredit?
            && e.owner == driver {
          var before := if e.order.value in paid then paid[e.order.value] else 0;
          paid := paid[e.order.value := before + e.amount];
        }
      }
      assert entries[..|entries|] == entries;
    }

    /** Brings the extras of each order to the target, from balances that are all read first. */
    method RecordPerDeliveryAdjustment(a: Adjustment, ids: seq<nat>)
      modifies this
      ensures entries == Adjusted(old(entries), a, ids, |ids|)
    {
      if |ids| == 0 {
        return;
      }
      var paid := PaidByOrder(a.driver, ids);
      var list := [];
      for i := 0 to |ids|
        invariant list == AdjustmentList(entries, a, ids, i)
      {
        var id := ids[i];
        var delta := a.target - if id in paid then paid[id] else 0;
        if delta == 0 {
          continue;
        }
        list := list + [
          Entry(AdjustmentKey(id, a.version, Driver), Driver, DriverPerDeliveryCredit, delta, Some(id), a.driver),
          Entry(AdjustmentKey(id, a.version, Store), Store, StorePerDeliveryDebit, -delta, Some(id), a.store)];
      }
      ListedIsAdjusted(entries, a, ids, |ids|);
      InsertEntries(list);
    }
  }
}

/** The append-only ledger: what deliveries, returns, detours and shifts pay to whom. Amounts are cents. */
module Ledger {
  import opened Wrappers

  const FULL_BPS := 10_000

  datatype Party = Store | Driver

  datatype EntryType =
    | StoreSaleCredit
    | StoreCommissionDebit
    | StoreDriverFeeDebit
    | DriverDeliveryCredit
    | StorePerDeliveryDebit
    | StoreDailyRateDebit
    | DriverPerDeliveryCredit
    | DriverDailyRateCredit
    | DriverHalfFeeCredit
    | StoreHalfFeeDebit

  datatype Key =
    | SaleKey(order: nat)
    | CommissionKey(order: nat)
    | DriverFeeKey(order: nat)
    | DeliveryKey(order: nat)
    | PerDeliveryKey(order: nat, party: Party)
    | ReturnKey(order: nat)
    | ReturnPerDeliveryKey(order: nat, party: Party)
    | HalfFeeKey(order: nat, driver: nat, party: Party)
    | DailyKey(shift: nat, party: Party)
    | AdjustmentKey(order: nat, version: nat, party: Party)

  /** `owner` is the store or the driver that the entry belongs to. */
  datatype Entry = Entry(key: Key, party: Party, kind: EntryType, amount: int, order: Option<nat>, owner: nat)

  datatype WorkShift = WorkShift(store: nat, driver: nat, active: bool, daily: nat, perDelivery: nat, version: nat)

  /**
   * `bps` is the commission rate at delivery, `pay` what a failed delivery pays on return, `paid` what it then
   * cost.
   */
  datatype Progress = Underway | Delivered(bps: nat) | Failed(pay: nat) | Returned(paid: nat)

  /** `batched` says that the order is in a batch that may still be released. */
  datatype Order = Order(
    progress: Progress, subtotal: nat, fee: nat, online: bool, store: nat,
    driver: Option<nat>, shift: Option<nat>, batched: bool
  )

  // ----- Insertion -----

  predicate HasKey(l: seq<Entry>, key: Key) {
    exists i | 0 <= i < |l| :: l[i].key == key
  }

  /** A unique index on the key: a second entry under the same key is dropped. */
  function Insert(l: seq<Entry>, e: Entry): seq<Entry> {
    if HasKey(l, e.key) then l else l + [e]
  }

  function InsertAll(l: seq<Entry>, es: seq<Entry>): seq<Entry> {
    if |es| == 0 then l else Insert(InsertAll(l, es[..|es| - 1]), es[|es| - 1])
  }

  // ----- Sums -----

  datatype Filter =
    | OfOrder(order: nat)
    | ExtrasOf(order: nat, driver: nat)
    | Extras(order: nat)
    | StoreExtras(order: nat)
    | DriverShare(order: nat, driver: nat)
    | StoreShare(order: nat, store: nat)
    | Booked(about: Option<nat>, party: Party, kind: EntryType, owner: nat)

  predicate Picks(f: Filter, e: Entry) {
    match f
    case OfOrder(o) => e.order == Some(o)
    case ExtrasOf(o, d) => e.order == Some(o) && e.party.Driver? && e.kind.DriverPerDeliveryCredit? && e.owner == d
    case Extras(o) => e.order == Some(o) && e.party.Driver? && e.kind.DriverPerDeliveryCredit?
    case StoreExtras(o) => e.order == Some(o) && e.party.Store? && e.kind.StorePerDeliveryDebit?
    case DriverShare(o, d) => e.order == Some(o) && e.party.Driver? && e.owner == d
    case StoreShare(o, s) => e.order == Some(o) && e.party.Store? && e.owner == s
    case Booked(o, party, kind, owner) => e.order == o && e.party == party && e.kind == kind && e.owner == owner
  }

  function Weight(e: Entry, f: Filter): int {
    if Picks(f, e) then e.amount else 0
  }

  function Total(l: seq<Entry>, f: Filter): int {
    if |l| == 0 then 0 else Total(l[..|l| - 1], f) + Weight(l[|l| - 1], f)
  }

  lemma {:induction false} TotalConcat(a: seq<Entry>, b: seq<Entry>, f: Filter)
    ensures Total(a + b, f) == Total(a, f) + Total(b, f)
  {
    if |b| == 0 {
      assert a + b == a;
    } else {
      TotalConcat(a, b[..|b| - 1], f);
      assert (a + b)[..|a + b| - 1] == a + b[..|b| - 1];
    }
  }

  lemma TotalAppend(l: seq<Entry>, e: Entry, f: Filter)
    ensures Total(l + [e], f) == Total(l, f) + Weight(e, f)
  {
    assert (l + [e])[..|l|] == l;
  }

  lemma {:induction false} TotalOfNone(l: seq<Entry>, f: Filter)
    requires forall e | e in l :: !Picks(f, e)
    ensures Total(l, f) == 0
  {
    if |l| > 0 {
      TotalOfNone(l[..|l| - 1], f);
    }
  }

  lemma HasKeyAppend(l: seq<Entry>, e: Entry, key: Key)
    ensures HasKey(l + [e], key) <==> HasKey(l, key) || e.key == key
  {
    var next := l + [e];
    assert next[|l|] == e;
    if HasKey(l, key) {
      var i :| 0 <= i < |l| && l[i].key == key;
      assert next[i] == l[i];
    }
  }

  lemma {:induction false} FreshEntriesAreAppended(l: seq<Entry>, es: seq<Entry>)
    requires forall i | 0 <= i < |es| :: !HasKey(l, es[i].key)
    requires forall i, j | 0 <= i < j < |es| :: es[i].key != es[j].key
    ensures InsertAll(l, es) == l + es
  {
    if |es| > 0 {
      var init, last := es[..|es| - 1], es[|es| - 1];
      FreshEntriesAreAppended(l, init);
      assert !HasKey(l + init, last.key);
      assert l + es == l + init + [last];
    }
  }

  // ----- What each event records -----

  /** Rounded to the nearest cent, halves up. */
  function Commission(subtotal: nat, bps: nat): nat {
    (subtotal * bps + FULL_BPS / 2) / FULL_BPS
  }

  /** The shift that the order was delivered in, if it is one of this store and this driver. */
  function FixedShift(o: Order, shifts: seq<WorkShift>): Option<WorkShift> {
    if o.shift.None? || o.shift.value >= |shifts| then None
    else
      var s := shifts[o.shift.value];
      if s.store == o.store && o.driver == Some(s.driver) then Some(s) else None
  }

  function SaleEntries(id: nat, o: Order, fixed: bool, commission: nat): seq<Entry> {
    var pool := o.driver.Some? && !fixed;
    if o.online then
      var credit := o.subtotal - commission + if pool then 0 else o.fee;
      if credit > 0 then [Entry(SaleKey(id), Store, StoreSaleCredit, credit, Some(id), o.store)] else []
    else
      (if commission > 0
       then [Entry(CommissionKey(id), Store, StoreCommissionDebit, 0 - commission, Some(id), o.store)]
       else [])
      + (if pool && o.fee > 0
         then [Entry(DriverFeeKey(id), Store, StoreDriverFeeDebit, 0 - o.fee, Some(id), o.store)]
         else [])
  }

  function FeeEntries(id: nat, o: Order, fixed: bool): seq<Entry> {
    if o.driver.Some? && !fixed && o.fee > 0 then
      [Entry(DeliveryKey(id), Driver, DriverDeliveryCredit, o.fee, Some(id), o.driver.value)]
    else []
  }

  function ExtraEntries(id: nat, o: Order, shift: Option<WorkShift>): seq<Entry> {
    if shift.Some? && o.driver.Some? && shift.value.perDelivery > 0 then
      [Entry(PerDeliveryKey(id, Driver), Driver, DriverPerDeliveryCredit, shift.value.perDelivery, Some(id),
          o.driver.value),
       Entry(PerDeliveryKey(id, Store), Store, StorePerDeliveryDebit, 0 - shift.value.perDelivery, Some(id), o.store)]
    else []
  }

  function OrderEntries(id: nat, o: Order, shifts: seq<WorkShift>, bps: nat): seq<Entry> {
    var shift := FixedShift(o, shifts);
    SaleEntries(id, o, shift.Some?, Commission(o.subtotal, bps)) + FeeEntries(id, o, shift.Some?)
        + ExtraEntries(id, o, shift)
  }

  function ReturnEntries(id: nat, o: Order, pay: nat, shifts: seq<WorkShift>): seq<Entry> {
    if o.driver.None? || pay == 0 then []
    else if FixedShift(o, shifts).None? then
      [Entry(ReturnKey(id), Driver, DriverDeliveryCredit, pay, Some(id), o.driver.value)]
    else
      [Entry(ReturnPerDeliveryKey(id, Driver), Driver, DriverPerDeliveryCredit, pay, Some(id), o.driver.value),
       Entry(ReturnPerDeliveryKey(id, Store), Store, StorePerDeliveryDebit, 0 - pay, Some(id), o.store)]
  }

  function HalfFee(fee: nat): nat {
    (fee + 1) / 2
  }

  function HalfFeeEntries(id: nat, store: nat, driver: nat, amount: nat): seq<Entry> {
    if amount == 0 then []
    else
      [Entry(HalfFeeKey(id, driver, Driver), Driver, DriverHalfFeeCredit, amount, Some(id), driver),
       Entry(HalfFeeKey(id, driver, Store), Store, StoreHalfFeeDebit, 0 - amount, Some(id), store)]
  }

  function DailyEntries(k: nat, s: WorkShift): seq<Entry> {
    if s.daily == 0 then []
    else
      [Entry(DailyKey(k, Driver), Driver, DriverDailyRateCredit, s.daily, None, s.driver),
       Entry(DailyKey(k, Store), Store, StoreDailyRateDebit, 0 - s.daily, None, s.store)]
  }

  /** What an accepted adjustment of a shift asks for: extras of `target` for each of its deliveries. */
  datatype Adjustment = Adjustment(version: nat, store: nat, driver: nat, target: nat)

  /** The pair for an order whose extras, as read from the ledger `l`, are not at the target. */
  function AdjustmentPair(l: seq<Entry>, a: Adjustment, id: nat): seq<Entry> {
    var delta := a.target - Total(l, ExtrasOf(id, a.driver));
    if delta == 0 then []
    else
      [Entry(AdjustmentKey(id, a.version, Driver), Driver, DriverPerDeliveryCredit, delta, Some(id), a.driver),
       Entry(AdjustmentKey(id, a.version, Store), Store, StorePerDeliveryDebit, -delta, Some(id), a.store)]
  }

  function InsertPair(l: seq<Entry>, es: seq<Entry>): seq<Entry> {
    if |es| == 2 then Insert(Insert(l, es[0]), es[1]) else l
  }

  /** The ledger after the first `n` orders; every balance is read before the first entry is written. */
  function Adjusted(l: seq<Entry>, a: Adjustment, ids: seq<nat>, n: nat): seq<Entry>
    requires n <= |ids|
  {
    if n == 0 then l else InsertPair(Adjusted(l, a, ids, n - 1), AdjustmentPair(l, a, ids[n - 1]))
  }

  // ----- Commission and balance of one delivery -----

  /** Half a cent is the most that rounding moves. */
  lemma CommissionIsNearest(subtotal: nat, bps: nat)
    requires bps <= FULL_BPS
    ensures -(FULL_BPS / 2) <= Commission(subtotal, bps) * FULL_BPS - subtotal * bps <= FULL_BPS / 2
    ensures Commission(subtotal, bps) <= subtotal
  {
    assert subtotal * bps <= subtotal * FULL_BPS;
  }

  /**
   * What the platform owes in all for an order: an online sale without the commission, otherwise minus the
   * commission.
   */
  function Due(o: Order): int {
    match o.progress
    case Delivered(bps) => (if o.online then o.subtotal + o.fee else 0) - Commission(o.subtotal, bps)
    case Returned(paid) => paid
    case _ => 0
  }

  lemma TotalOfTwo(a: Entry, b: Entry, f: Filter)
    ensures Total([a, b], f) == Weight(a, f) + Weight(b, f)
  {
    assert [a, b] == [a] + [b];
    TotalConcat([a], [b], f);
  }

  lemma TotalOfOne(e: Entry, f: Filter)
    ensures Total([e], f) == Weight(e, f)
  {
    assert [e][..0] == [];
  }

  /** The store's side of a sale: what it is credited, or the commission and the freight that it owes. */
  lemma SaleTotal(id: nat, o: Order, fixed: bool, commission: nat, x: nat)
    requires commission <= o.subtotal
    ensures var freight := if o.driver.Some? && !fixed then o.fee else 0;
            Total(SaleEntries(id, o, fixed, commission), OfOrder(x)) ==
              if x == id then (if o.online then o.subtotal + o.fee else 0) - commission - freight else 0
  {
    var l := SaleEntries(id, o, fixed, commission);
    if |l| == 1 {
      assert l == [l[0]];
      TotalOfOne(l[0], OfOrder(x));
    } else if |l| == 2 {
      assert l == [l[0], l[1]];
      TotalOfTwo(l[0], l[1], OfOrder(x));
    }
  }

  lemma FeeTotal(id: nat, o: Order, fixed: bool, x: nat)
    ensures Total(FeeEntries(id, o, fixed), OfOrder(x)) == if x == id && o.driver.Some? && !fixed then o.fee else 0
  {
    var l := FeeEntries(id, o, fixed);
    if |l| == 1 {
      TotalOfOne(l[0], OfOrder(x));
    }
  }

  lemma SaleHasNoExtras(id: nat, o: Order, fixed: bool, commission: nat, x: nat)
    ensures var l := SaleEntries(id, o, fixed, commission) + FeeEntries(id, o, fixed);
            Total(l, Extras(x)) == 0 && Total(l, StoreExtras(x)) == 0
  {
    var l := SaleEntries(id, o, fixed, commission) + FeeEntries(id, o, fixed);
    forall e | e in l ensures !Picks(Extras(x), e) && !Picks(StoreExtras(x), e) {
      assert e in SaleEntries(id, o, fixed, commission) || e in FeeEntries(id, o, fixed);
    }
    TotalOfNone(l, Extras(x));
    TotalOfNone(l, StoreExtras(x));
  }

  lemma SaleTotals(id: nat, o: Order, fixed: bool, commission: nat, x: nat)
    requires commission <= o.subtotal
    ensures Total(SaleEntries(id, o, fixed, commission) + FeeEntries(id, o, fixed), OfOrder(x)) ==
              if x == id then (if o.online then o.subtotal + o.fee else 0) - commission else 0
  {
    SaleTotal(id, o, fixed, commission, x);
    FeeTotal(id, o, fixed, x);
    TotalConcat(SaleEntries(id, o, fixed, commission), FeeEntries(id, o, fixed), OfOrder(x));
  }

  lemma ExtraTotals(id: nat, o: Order, shift: Option<WorkShift>, x: nat)
    ensures var l := ExtraEntries(id, o, shift);
            && Total(l, OfOrder(x)) == 0
            && Total(l, StoreExtras(x)) == -Total(l, Extras(x))
  {
    var l := ExtraEntries(id, o, shift);
    if |l| == 2 {
      TotalOfTwo(l[0], l[1], OfOrder(x));
      TotalOfTwo(l[0], l[1], Extras(x));
      TotalOfTwo(l[0], l[1], StoreExtras(x));
    }
  }

  /** Whoever delivers, and however it is paid, the entries of a delivery add up to what is due for the order. */
  lemma DeliveryBalances(id: nat, o: Order, shifts: seq<WorkShift>, bps: nat, x: nat)
    requires bps <= FULL_BPS
    ensures var l := OrderEntries(id, o, shifts, bps);
            && Total(l, OfOrder(x)) == (if x == id then Due(o.(progress := Delivered(bps))) else 0)
            && Total(l, StoreExtras(x)) == -Total(l, Extras(x))
  {
    var shift := FixedShift(o, shifts);
    var base := SaleEntries(id, o, shift.Some?, Commission(o.subtotal, bps)) + FeeEntries(id, o, shift.Some?);
    CommissionIsNearest(o.subtotal, bps);
    SaleTotals(id, o, shift.Some?, Commission(o.subtotal, bps), x);
    SaleHasNoExtras(id, o, shift.Some?, Commission(o.subtotal, bps), x);
    ExtraTotals(id, o, shift, x);
    TotalConcat(base, ExtraEntries(id, o, shift), OfOrder(x));
    TotalConcat(base, ExtraEntries(id, o, shift), Extras(x));
    TotalConcat(base, ExtraEntries(id, o, shift), StoreExtras(x));
  }

  /**
   * What a driver gets for a delivery: the freight from the pool, the extra on a shift of the store, and nobody
   * else gets anything.
   */
  function Earned(o: Order, shifts: seq<WorkShift>, d: nat): nat {
    if o.driver != Some(d) then 0
    else
      var shift := FixedShift(o, shifts);
      if shift.Some? then shift.value.perDelivery else o.fee
  }

  lemma SaleShare(id: nat, o: Order, fixed: bool, commission: nat, d: nat)
    ensures Total(SaleEntries(id, o, fixed, commission), DriverShare(id, d)) == 0
  {
    TotalOfNone(SaleEntries(id, o, fixed, commission), DriverShare(id, d));
  }

  lemma FeeShare(id: nat, o: Order, fixed: bool, d: nat)
    ensures Total(FeeEntries(id, o, fixed), DriverShare(id, d)) == if o.driver == Some(d) && !fixed then o.fee else 0
  {
    var fee := FeeEntries(id, o, fixed);
    if |fee| == 1 {
      TotalOfOne(fee[0], DriverShare(id, d));
    }
  }

  lemma ExtraShare(id: nat, o: Order, shift: Option<WorkShift>, d: nat)
    ensures Total(ExtraEntries(id, o, shift), DriverShare(id, d)) ==
              if o.driver == Some(d) && shift.Some? then shift.value.perDelivery else 0
  {
    var extra := ExtraEntries(id, o, shift);
    if |extra| == 2 {
      TotalOfTwo(extra[0], extra[1], DriverShare(id, d));
    }
  }

  lemma DeliveryPaysTheDriver(id: nat, o: Order, shifts: seq<WorkShift>, bps: nat, d: nat)
    ensures Total(OrderEntries(id, o, shifts, bps), DriverShare(id, d)) == Earned(o, shifts, d)
  {
    var shift := FixedShift(o, shifts);
    var sale, fee := SaleEntries(id, o, shift.Some?, Commission(o.subtotal, bps)), FeeEntries(id, o, shift.Some?);
    SaleShare(id, o, shift.Some?, Commission(o.subtotal, bps), d);
    FeeShare(id, o, shift.Some?, d);
    ExtraShare(id, o, shift, d);
    TotalConcat(sale, fee, DriverShare(id, d));
    TotalConcat(sale + fee, ExtraEntries(id, o, shift), DriverShare(id, d));
  }

  /** A returned delivery pays the driver what was frozen when it failed, wherever it came from. */
  lemma ReturnPaysTheDriver(id: nat, o: Order, pay: nat, shifts: seq<WorkShift>, d: nat)
    ensures Total(ReturnEntries(id, o, pay, shifts), DriverShare(id, d)) == if o.driver == Some(d) then pay else 0
  {
    var l, f := ReturnEntries(id, o, pay, shifts), DriverShare(id, d);
    if |l| == 1 {
      TotalOfOne(l[0], f);
    } else if |l| == 2 {
      TotalOfTwo(l[0], l[1], f);
    }
  }

  // ----- Pairs -----

  /** Two entries that cancel out, for the driver and for the store, under keys that go together. */
  predicate IsPair(es: seq<Entry>) {
    && |es| == 2 && es[0].key != es[1].key && es[0].order == es[1].order && es[0].amount == -es[1].amount
    && es[0].party.Driver? && es[1].party.Store?
    && (es[0].kind.DriverPerDeliveryCredit? <==> es[1].kind.StorePerDeliveryDebit?)
  }

  lemma PairTotals(l: seq<Entry>, es: seq<Entry>, x: nat)
    requires IsPair(es) && (HasKey(l, es[0].key) <==> HasKey(l, es[1].key))
    ensures Total(InsertPair(l, es), OfOrder(x)) == Total(l, OfOrder(x))
    ensures Total(InsertPair(l, es), StoreExtras(x)) + Total(InsertPair(l, es), Extras(x))
            == Total(l, StoreExtras(x)) + Total(l, Extras(x))
  {
    PairInsertion(l, es);
    if !HasKey(l, es[0].key) {
      forall f: Filter ensures Total(l + [es[0]] + [es[1]], f) == Total(l, f) + Weight(es[0], f) + Weight(es[1], f) {
        TotalAppend(l, es[0], f);
        TotalAppend(l + [es[0]], es[1], f);
      }
    }
  }

  lemma PairInsertion(l: seq<Entry>, es: seq<Entry>)
    requires |es| == 2 && es[0].key != es[1].key && (HasKey(l, es[0].key) <==> HasKey(l, es[1].key))
    ensures InsertPair(l, es) == if HasKey(l, es[0].key) then l else l + [es[0]] + [es[1]]
  {
    if !HasKey(l, es[0].key) {
      HasKeyAppend(l, es[0], es[1].key);
    }
  }

  lemma InsertPairIsInsertAll(l: seq<Entry>, es: seq<Entry>)
    requires |es| == 0 || |es| == 2
    ensures InsertPair(l, es) == InsertAll(l, es)
  {
    if |es| == 2 {
      assert es[..1] == [es[0]] && es[..1][..0] == [];
      assert InsertAll(l, es[..1]) == Insert(l, es[0]);
    }
  }

  lemma {:induction false} InsertAllConcat(l: seq<Entry>, a: seq<Entry>, b: seq<Entry>)
    ensures InsertAll(l, a + b) == InsertAll(InsertAll(l, a), b)
  {
    if |b| == 0 {
      assert a + b == a;
    } else {
      InsertAllConcat(l, a, b[..|b| - 1]);
      assert (a + b)[..|a + b| - 1] == a + b[..|b| - 1];
    }
  }

  lemma ListThenPair(l: seq<Entry>, list: seq<Entry>, pair: seq<Entry>, state: seq<Entry>)
    requires InsertAll(l, list) == state && (|pair| == 0 || |pair| == 2)
    ensures InsertAll(l, list + pair) == InsertPair(state, pair)
  {
    InsertAllConcat(l, list, pair);
    InsertPairIsInsertAll(state, pair);
  }
}

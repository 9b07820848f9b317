/** Order lines and the reductions a store may propose. */
module Items {
  import opened PaymentData
  import opened Wrappers

  function LineTotal(item: Item, quantity: nat): (r: nat) {
    item.unitPrice * quantity
  }

  function Subtotal(items: seq<Item>): (r: nat) {
    if |items| == 0 then 0 else LineTotal(items[0], items[0].quantity) + Subtotal(items[1..])
  }

  /** The new quantity that a proposal gives to an item, if it names it. */
  function FindChange(changes: seq<Change>, id: nat): (r: Option<nat>)
    ensures r.None? <==> forall c | c in changes :: c.item != id
  {
    if |changes| == 0 then None
    else if changes[0].item == id then Some(changes[0].newQuantity)
    else FindChange(changes[1..], id)
  }

  function QuantityAfter(changes: seq<Change>, item: Item): nat {
    var c := FindChange(changes, item.id);
    if c.Some? then c.value else item.quantity
  }

  function SubtotalAfter(items: seq<Item>, changes: seq<Change>): (r: nat) {
    if |items| == 0 then 0
    else LineTotal(items[0], QuantityAfter(changes, items[0])) + SubtotalAfter(items[1..], changes)
  }

  function FindItem(items: seq<Item>, id: nat): (r: Option<Item>)
    ensures r.Some? ==> r.value in items && r.value.id == id
    ensures r.None? <==> forall item | item in items :: item.id != id
  {
    if |items| == 0 then None
    else if items[0].id == id then Some(items[0])
    else FindItem(items[1..], id)
  }

  predicate DistinctChanges(changes: seq<Change>) {
    forall i, j | 0 <= i < j < |changes| :: changes[i].item != changes[j].item
  }

  predicate DistinctItems(items: seq<Item>) {
    forall i, j | 0 <= i < j < |items| :: items[i].id != items[j].id
  }

  /** One accepted change: the line is dropped at zero, otherwise its quantity is replaced. */
  function ApplyChange(items: seq<Item>, c: Change): seq<Item> {
    if |items| == 0 then []
    else if items[0].id != c.item then [items[0]] + ApplyChange(items[1..], c)
    else if c.newQuantity == 0 then ApplyChange(items[1..], c)
    else [items[0].(quantity := c.newQuantity)] + ApplyChange(items[1..], c)
  }

  function ApplyChanges(items: seq<Item>, changes: seq<Change>): seq<Item>
    decreases |changes|
  {
    if |changes| == 0 then items else ApplyChanges(ApplyChange(items, changes[0]), changes[1..])
  }

  /** The changes that alter something; only these are stored with a proposal. */
  function Frozen(items: seq<Item>, changes: seq<Change>): seq<Change> {
    if |changes| == 0 then []
    else
      var current := FindItem(items, changes[0].item);
      if current.Some? && current.value.quantity == changes[0].newQuantity then Frozen(items, changes[1..])
      else [changes[0]] + Frozen(items, changes[1..])
  }

  /** Every named item exists and no quantity grows. */
  predicate OnlyReduces(items: seq<Item>, changes: seq<Change>) {
    forall c | c in changes ::
      var item := FindItem(items, c.item); item.Some? && c.newQuantity <= item.value.quantity
  }

  predicate ReducesSomething(items: seq<Item>, changes: seq<Change>) {
    exists c | c in changes :: var item := FindItem(items, c.item); item.Some? && c.newQuantity < item.value.quantity
  }

  // ----- The frozen subtotal is what the approved items add up to -----

  lemma {:induction false} ApplyChangeMoves(items: seq<Item>, c: Change, rest: seq<Change>)
    requires FindChange(rest, c.item).None?
    ensures SubtotalAfter(items, [c] + rest) == SubtotalAfter(ApplyChange(items, c), rest)
  {
    if |items| > 0 {
      ApplyChangeMoves(items[1..], c, rest);
      assert ([c] + rest)[1..] == rest;
      var tail := ApplyChange(items[1..], c);
      if items[0].id != c.item {
        assert ([items[0]] + tail)[1..] == tail;
      } else if c.newQuantity > 0 {
        assert ([items[0].(quantity := c.newQuantity)] + tail)[1..] == tail;
      }
    }
  }

  lemma {:induction false} NoChanges(items: seq<Item>)
    ensures SubtotalAfter(items, []) == Subtotal(items)
  {
    if |items| > 0 {
      NoChanges(items[1..]);
    }
  }

  /** Carrying out all changes leads to exactly the subtotal that was announced for them. */
  lemma {:induction false} ApplyChangesSubtotal(items: seq<Item>, changes: seq<Change>)
    requires DistinctChanges(changes)
    ensures Subtotal(ApplyChanges(items, changes)) == SubtotalAfter(items, changes)
    decreases |changes|
  {
    if |changes| == 0 {
      NoChanges(items);
    } else {
      var c, rest := changes[0], changes[1..];
      assert changes == [c] + rest;
      ApplyChangeMoves(items, c, rest);
      ApplyChangesSubtotal(ApplyChange(items, c), rest);
    }
  }

  lemma {:induction false} ApplyChangeKeepsDistinct(items: seq<Item>, c: Change)
    requires DistinctItems(items)
    ensures DistinctItems(ApplyChange(items, c))
    ensures forall item | item in ApplyChange(items, c) :: exists from | from in items :: from.id == item.id
  {
    if |items| > 0 {
      var tail := items[1..];
      ApplyChangeKeepsDistinct(tail, c);
      var next := ApplyChange(items, c);
      forall item | item in next ensures exists from | from in items :: from.id == item.id {
        if item in ApplyChange(tail, c) {
          var from :| from in tail && from.id == item.id;
          assert from in items;
        } else {
          assert items[0] in items;
        }
      }
      if next != ApplyChange(tail, c) {
        assert next[1..] == ApplyChange(tail, c);
        forall j | 0 < j < |next| ensures next[0].id != next[j].id {
          assert next[j] in ApplyChange(tail, c);
          var from :| from in tail && from.id == next[j].id;
          var k :| 0 <= k < |tail| && tail[k] == from;
          assert items[k + 1] == from;
        }
        forall i, j | 0 <= i < j < |next| ensures next[i].id != next[j].id {
          if i > 0 {
            assert next[i] == next[1..][i - 1] && next[j] == next[1..][j - 1];
          }
        }
      }
    }
  }

  lemma {:induction false} ApplyChangesKeepDistinct(items: seq<Item>, changes: seq<Change>)
    requires DistinctItems(items)
    ensures DistinctItems(ApplyChanges(items, changes))
    decreases |changes|
  {
    if |changes| > 0 {
      ApplyChangeKeepsDistinct(items, changes[0]);
      ApplyChangesKeepDistinct(ApplyChange(items, changes[0]), changes[1..]);
    }
  }

  // ----- Dropping unchanged lines from a proposal does not alter its amounts -----

  lemma {:induction false} FrozenFinds(items: seq<Item>, changes: seq<Change>, id: nat)
    requires DistinctChanges(changes) && OnlyReduces(items, changes)
    ensures DistinctChanges(Frozen(items, changes))
    ensures forall c | c in Frozen(items, changes) :: c in changes
    ensures var all, kept := FindChange(changes, id), FindChange(Frozen(items, changes), id);
            var item := FindItem(items, id);
            kept == (if all.Some? && item.Some? && item.value.quantity == all.value then None else all)
  {
    if |changes| > 0 {
      var rest := changes[1..];
      assert forall c | c in rest :: c in changes;
      FrozenFinds(items, rest, id);
      assert changes[0] in changes;
      assert FindChange(rest, changes[0].item).None?;
      FrozenFinds(items, rest, changes[0].item);
      var kept := Frozen(items, changes);
      if kept != Frozen(items, rest) {
        assert kept[1..] == Frozen(items, rest);
      }
    }
  }

  lemma {:induction false} FoundIsTheItem(items: seq<Item>, i: nat)
    requires DistinctItems(items) && i < |items|
    ensures FindItem(items, items[i].id) == Some(items[i])
  {
    if i > 0 {
      FoundIsTheItem(items[1..], i - 1);
      assert items[0].id != items[i].id;
    }
  }

  lemma LineTotalGrows(item: Item, x: nat, y: nat)
    requires x <= y
    ensures LineTotal(item, x) <= LineTotal(item, y)
  {
    assert item.unitPrice * (y - x) >= 0;
  }

  lemma {:induction false} SubtotalAfterBy(items: seq<Item>, a: seq<Change>, b: seq<Change>)
    requires forall item | item in items :: QuantityAfter(a, item) <= QuantityAfter(b, item)
    ensures SubtotalAfter(items, a) <= SubtotalAfter(items, b)
  {
    if |items| > 0 {
      assert items[0] in items;
      assert forall item | item in items[1..] :: item in items;
      SubtotalAfterBy(items[1..], a, b);
      LineTotalGrows(items[0], QuantityAfter(a, items[0]), QuantityAfter(b, items[0]));
    }
  }

  lemma FrozenSubtotal(items: seq<Item>, changes: seq<Change>)
    requires DistinctItems(items) && DistinctChanges(changes) && OnlyReduces(items, changes)
    ensures SubtotalAfter(items, Frozen(items, changes)) == SubtotalAfter(items, changes)
    ensures DistinctChanges(Frozen(items, changes))
  {
    var kept := Frozen(items, changes);
    forall item | item in items ensures QuantityAfter(kept, item) == QuantityAfter(changes, item) {
      FrozenFinds(items, changes, item.id);
      var i :| 0 <= i < |items| && items[i] == item;
      FoundIsTheItem(items, i);
    }
    SubtotalAfterBy(items, kept, changes);
    SubtotalAfterBy(items, changes, kept);
    FrozenFinds(items, changes, 0);
  }

  lemma {:induction false} ChangeIsNamed(changes: seq<Change>, id: nat)
    requires FindChange(changes, id).Some?
    ensures Change(id, FindChange(changes, id).value) in changes
  {
    if changes[0].item != id {
      ChangeIsNamed(changes[1..], id);
    }
  }

  /** A proposal that only reduces quantities never raises the subtotal. */
  lemma ReductionLowersSubtotal(items: seq<Item>, changes: seq<Change>)
    requires DistinctItems(items) && OnlyReduces(items, changes)
    ensures SubtotalAfter(items, changes) <= Subtotal(items)
  {
    forall item | item in items ensures QuantityAfter(changes, item) <= QuantityAfter([], item) {
      var i :| 0 <= i < |items| && items[i] == item;
      FoundIsTheItem(items, i);
      if FindChange(changes, item.id).Some? {
        ChangeIsNamed(changes, item.id);
      }
    }
    SubtotalAfterBy(items, changes, []);
    NoChanges(items);
  }
}

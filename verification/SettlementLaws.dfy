/** What closing a period owes to each ledger entry, written out by party, sign and date. */
module SettlementLaws {
  import opened Ledger
  import opened Settlement
  import opened Wrappers

  /** The documents that entries go into: a store's debits, a store's credits, a driver's credits. */
  predicate Owed(p: Posting, kind: DocKind) {
    match kind
    case StoreInvoice => p.party == Store && p.amount < 0
    case StorePayout => p.party == Store && p.amount > 0
    case DriverPayout => p.party == Driver && p.amount > 0
  }

  predicate Settleable(p: Posting) {
    p.owner.Some? && ((p.party == Store && p.amount != 0) || (p.party == Driver && p.amount > 0))
  }

  /** An item that shows the entry in full, in a document of its owner, kind and period. */
  predicate Shows(a: Accounts, i: nat, entry: nat, from: int, to: int)
    requires entry < |a.postings|
  {
    && i < |a.items| && a.items[i].entry == entry && a.items[i].doc < |a.docs|
    && var p, d := a.postings[entry], a.docs[a.items[i].doc];
       && Owed(p, d.kind) && p.owner == Some(d.owner) && d.from == from && d.to == to
       && a.items[i].amount == if p.amount < 0 then 0 - p.amount else p.amount
  }

  ghost predicate PaidOut(a: Accounts, p: Posting, from: int, to: int) {
    exists d | 0 <= d < |a.docs| ::
      a.docs[d].paid && Owed(p, a.docs[d].kind) && p.owner == Some(a.docs[d].owner) && a.docs[d].from == from
      && a.docs[d].to == to
  }

  lemma KindWritten(p: Posting, kind: DocKind)
    ensures KindOf(p) == Some(kind) <==> p.owner.Some? && Owed(p, kind)
    ensures KindOf(p).Some? <==> Settleable(p)
  {
  }

  lemma NotYetPaidWritten(a: Accounts, p: Posting, from: int, to: int)
    requires KindOf(p).Some?
    ensures NotYetPaid(a.docs, p, from, to) <==> !PaidOut(a, p, from, to)
  {
    KindWritten(p, KindOf(p).value);
    forall d | 0 <= d < |a.docs|
      ensures Named(a.docs[d], KindOf(p).value, p.owner.value, from, to) <==>
              Owed(p, a.docs[d].kind) && p.owner == Some(a.docs[d].owner) && a.docs[d].from == from
              && a.docs[d].to == to
    {
      KindWritten(p, a.docs[d].kind);
    }
  }

  /** A period is closed if and only if it is one. */
  lemma ClosesPeriods(a: Accounts, from: int, to: int)
    ensures Close(a, from, to).Ok? <==> from < to
  {
  }

  /** What the steps of a run do. */
  lemma StepsTakeEffect(a: Accounts, p: Posting, from: int, to: int, doc: nat)
    ensures Next(a, Posts(p)) == Accounts(a.postings + [p], a.docs, a.items)
    ensures Next(a, Closes(from, to)) == if from < to then Close(a, from, to).value else a
    ensures Next(a, Pays(doc)) ==
            if doc < |a.docs| then Accounts(a.postings, a.docs[doc := a.docs[doc].(paid := true)], a.items) else a
  {
    if from < to {
      ClosesPeriods(a, from, to);
    }
  }

  /**
   * After a close every entry of the period that somebody is owed for has an item, unless it had none before and its
   * document was paid already. A new item is in a document of this period.
   */
  lemma EveryEntryIsSettled(a: Accounts, from: int, to: int, entry: nat)
    requires Tidy(a) && from < to && entry < |a.postings| && from <= a.postings[entry].at < to
    requires Settleable(a.postings[entry])
    ensures var next := Close(a, from, to).value;
            && next.postings == a.postings
            && ((exists i | 0 <= i < |next.items| :: next.items[i].entry == entry) <==>
                  (exists i | 0 <= i < |a.items| :: a.items[i].entry == entry)
                  || !PaidOut(a, a.postings[entry], from, to))
            && (forall i | |a.items| <= i < |next.items| && next.items[i].entry == entry ::
                  Shows(next, i, entry, from, to))
  {
    var next, p := Close(a, from, to).value, a.postings[entry];
    KindWritten(p, StoreInvoice);
    NotYetPaidWritten(a, p, from, to);
    CloseIsComplete(a, from, to, entry);
    NewItemsAreOfThePeriod(a, |a.postings|, from, to);
  }

  /** Items were only added, and the added ones show entries in documents of this period. */
  ghost predicate OnlyShown(items: seq<Item>, next: Accounts, from: int, to: int) {
    && |items| <= |next.items| && next.items[..|items|] == items
    && forall i | |items| <= i < |next.items| ::
         next.items[i].entry < |next.postings| && Shows(next, i, next.items[i].entry, from, to)
  }

  lemma {:induction false} NewItemsAreOfThePeriod(a: Accounts, n: nat, from: int, to: int)
    requires n <= |a.postings|
    ensures OnlyShown(a.items, CloseUpTo(a, n, from, to), from, to)
  {
    if n > 0 {
      NewItemsAreOfThePeriod(a, n - 1, from, to);
      OneMoreShown(a.items, CloseUpTo(a, n - 1, from, to), CloseUpTo(a, n, from, to), n - 1, from, to);
    }
  }

  lemma OneMoreShown(items: seq<Item>, before: Accounts, next: Accounts, entry: nat, from: int, to: int)
    requires OnlyShown(items, before, from, to) && entry < |before.postings|
    requires next == if InPeriod(before.postings[entry], from, to) then SettleEntry(before, entry, from, to) else before
    ensures OnlyShown(items, next, from, to)
  {
    if next != before {
      SettleEntryGrows(before, entry, from, to);
      SettledShows(before, entry, from, to);
      ShowsLater(before, next, |items|, from, to);
      assert next.items[..|items|] == next.items[..|before.items|][..|items|];
    }
  }

  /** Settling one entry adds its item or nothing. */
  lemma SettledShows(a: Accounts, entry: nat, from: int, to: int)
    requires entry < |a.postings|
    ensures var next := SettleEntry(a, entry, from, to);
            next.items == a.items
            || (|next.items| == |a.items| + 1 && next.items[..|a.items|] == a.items
                && Shows(next, |a.items|, entry, from, to))
  {
    if KindOf(a.postings[entry]).Some? {
      KindWritten(a.postings[entry], KindOf(a.postings[entry]).value);
    }
  }

  lemma ShowsLater(a: Accounts, next: Accounts, first: nat, from: int, to: int)
    requires Grows(a, next) && first <= |a.items|
    requires forall i | first <= i < |a.items| ::
               a.items[i].entry < |a.postings| && Shows(a, i, a.items[i].entry, from, to)
    ensures forall i | first <= i < |a.items| ::
              next.items[i].entry < |next.postings| && Shows(next, i, next.items[i].entry, from, to)
  {
    forall i | first <= i < |a.items|
      ensures next.items[i].entry < |next.postings| && Shows(next, i, next.items[i].entry, from, to)
    {
      assert Shows(a, i, a.items[i].entry, from, to);
      var d := a.items[i].doc;
      assert next.docs[d].(total := a.docs[d].total) == a.docs[d];
    }
  }

  /** Over every run no other entry has an item, and each item is as its entry and document say. */
  lemma OnlyOwedEntriesHaveItems(steps: seq<Step>, i: nat)
    requires i < |Run(steps).items|
    ensures var a := Run(steps);
            && a.items[i].entry < |a.postings| && a.items[i].doc < |a.docs|
            && var p, d := a.postings[a.items[i].entry], a.docs[a.items[i].doc];
               && Settleable(p) && d.from <= p.at < d.to && Shows(a, i, a.items[i].entry, d.from, d.to)
  {
    AccountsAreTidy(steps);
    var a := Run(steps);
    var p, d := a.postings[a.items[i].entry], a.docs[a.items[i].doc];
    assert Documents(d, p, a.items[i].amount);
    KindWritten(p, d.kind);
  }
}

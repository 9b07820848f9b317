/** Closing a period: ledger entries become items of invoices and payouts. */
module Settlement {
  import opened Ledger
  import opened Wrappers

  datatype DocKind = StoreInvoice | StorePayout | DriverPayout

  /** A ledger entry as settlement sees it; it belongs to a store or to a driver, if to anyone. */
  datatype Posting = Posting(party: Party, amount: int, owner: Option<nat>, at: int)

  datatype Doc = Doc(kind: DocKind, owner: nat, from: int, to: int, paid: bool, total: int)

  datatype Item = Item(doc: nat, entry: nat, amount: int)

  datatype Accounts = Accounts(postings: seq<Posting>, docs: seq<Doc>, items: seq<Item>)

  datatype FinanceError = InvalidPeriod | NoSuchDocument

  /** Negative entries of a driver, and entries of nothing, go into no document. */
  function KindOf(p: Posting): Option<DocKind> {
    if p.owner.None? then None
    else if p.party.Store? then
      if p.amount < 0 then Some(StoreInvoice) else if p.amount > 0 then Some(StorePayout) else None
    else if p.amount > 0 then Some(DriverPayout) else None
  }

  function Abs(x: int): nat {
    if x < 0 then -x else x
  }

  predicate HasItem(items: seq<Item>, entry: nat) {
    exists i | 0 <= i < |items| :: items[i].entry == entry
  }

  predicate Named(d: Doc, kind: DocKind, owner: nat, from: int, to: int) {
    d.kind == kind && d.owner == owner && d.from == from && d.to == to
  }

  /** The document of an owner for exactly this period. */
  function FindDoc(docs: seq<Doc>, kind: DocKind, owner: nat, from: int, to: int): (r: Option<nat>)
    ensures r.Some? ==> r.value < |docs| && Named(docs[r.value], kind, owner, from, to)
    ensures r.None? ==> forall i | 0 <= i < |docs| :: !Named(docs[i], kind, owner, from, to)
  {
    if |docs| == 0 then None
    else if Named(docs[|docs| - 1], kind, owner, from, to) then Some(|docs| - 1)
    else FindDoc(docs[..|docs| - 1], kind, owner, from, to)
  }

  function SumOf(items: seq<Item>, doc: nat): int {
    if |items| == 0 then 0
    else SumOf(items[..|items| - 1], doc) + if items[|items| - 1].doc == doc then items[|items| - 1].amount else 0
  }

  function AddItem(a: Accounts, doc: nat, entry: nat): Accounts
    requires doc < |a.docs| && entry < |a.postings|
  {
    var items := a.items + [Item(doc, entry, Abs(a.postings[entry].amount))];
    a.(items := items, docs := a.docs[doc := a.docs[doc].(total := SumOf(items, doc))])
  }

  function SettleEntry(a: Accounts, entry: nat, from: int, to: int): Accounts
    requires entry < |a.postings|
  {
    var p := a.postings[entry];
    var kind := KindOf(p);
    if kind.None? || HasItem(a.items, entry) then a
    else
      var doc := FindDoc(a.docs, kind.value, p.owner.value, from, to);
      if doc.None? then
        AddItem(a.(docs := a.docs + [Doc(kind.value, p.owner.value, from, to, false, 0)]), |a.docs|, entry)
      else if a.docs[doc.value].paid then a
      else AddItem(a, doc.value, entry)
  }

  predicate InPeriod(p: Posting, from: int, to: int) {
    from <= p.at < to
  }

  function CloseUpTo(a: Accounts, n: nat, from: int, to: int): (next: Accounts)
    requires n <= |a.postings|
    ensures next.postings == a.postings
  {
    if n == 0 then a
    else
      var before := CloseUpTo(a, n - 1, from, to);
      if InPeriod(a.postings[n - 1], from, to) then SettleEntry(before, n - 1, from, to) else before
  }

  function Close(a: Accounts, from: int, to: int): Result<Accounts, FinanceError> {
    if to <= from then Err(InvalidPeriod) else Ok(CloseUpTo(a, |a.postings|, from, to))
  }

  function MarkPaid(a: Accounts, doc: nat): Result<Accounts, FinanceError> {
    if doc >= |a.docs| then Err(NoSuchDocument)
    else Ok(a.(docs := a.docs[doc := a.docs[doc].(paid := true)]))
  }

  // ----- What holds of all accounts -----

  ghost predicate UniqueDocs(docs: seq<Doc>) {
    forall i, j | 0 <= i < j < |docs| :: !Named(docs[i], docs[j].kind, docs[j].owner, docs[j].from, docs[j].to)
  }

  /** An item shows one entry of the document's owner, kind and period, in full. */
  predicate Documents(d: Doc, p: Posting, amount: int) {
    KindOf(p) == Some(d.kind) && p.owner == Some(d.owner) && InPeriod(p, d.from, d.to) && amount == Abs(p.amount)
  }

  ghost predicate ItemsOk(a: Accounts) {
    forall i | 0 <= i < |a.items| ::
      && a.items[i].doc < |a.docs| && a.items[i].entry < |a.postings|
      && Documents(a.docs[a.items[i].doc], a.postings[a.items[i].entry], a.items[i].amount)
  }

  ghost predicate ItemizedOnce(items: seq<Item>) {
    forall i, j | 0 <= i < j < |items| :: items[i].entry != items[j].entry
  }

  ghost predicate TotalsOk(docs: seq<Doc>, items: seq<Item>) {
    forall d | 0 <= d < |docs| :: docs[d].total == SumOf(items, d)
  }

  /** What all documents promise, invoices counting against payouts. */
  function Promised(docs: seq<Doc>): int {
    if |docs| == 0 then 0
    else Promised(docs[..|docs| - 1]) + Signed(docs[|docs| - 1].kind, docs[|docs| - 1].total)
  }

  function Signed(kind: DocKind, total: int): int {
    if kind.StoreInvoice? then -total else total
  }

  /** The ledger amounts of all entries in documents. */
  function Itemized(postings: seq<Posting>, items: seq<Item>): int {
    if |items| == 0 then 0
    else
      var entry := items[|items| - 1].entry;
      Itemized(postings, items[..|items| - 1]) + if entry < |postings| then postings[entry].amount else 0
  }

  ghost predicate Tidy(a: Accounts) {
    && UniqueDocs(a.docs) && ItemsOk(a) && ItemizedOnce(a.items) && TotalsOk(a.docs, a.items)
    && Promised(a.docs) == Itemized(a.postings, a.items)
  }

  lemma SumOfAppend(items: seq<Item>, item: Item, doc: nat)
    ensures SumOf(items + [item], doc) == SumOf(items, doc) + if item.doc == doc then item.amount else 0
  {
    assert (items + [item])[..|items|] == items;
  }

  lemma {:induction false} SumOfNone(items: seq<Item>, doc: nat)
    requires forall i | 0 <= i < |items| :: items[i].doc != doc
    ensures SumOf(items, doc) == 0
  {
    if |items| > 0 {
      SumOfNone(items[..|items| - 1], doc);
    }
  }

  lemma {:induction false} PromisedUpdate(docs: seq<Doc>, d: nat, doc: Doc)
    requires d < |docs| && docs[d].kind == doc.kind
    ensures Promised(docs[d := doc]) == Promised(docs) + Signed(doc.kind, doc.total) - Signed(doc.kind, docs[d].total)
  {
    var init := docs[..|docs| - 1];
    if d == |docs| - 1 {
      assert docs[d := doc][..|docs| - 1] == init;
    } else {
      PromisedUpdate(init, d, doc);
      assert docs[d := doc][..|docs| - 1] == init[d := doc];
    }
  }

  lemma PromisedAppend(docs: seq<Doc>, doc: Doc)
    ensures Promised(docs + [doc]) == Promised(docs) + Signed(doc.kind, doc.total)
  {
    assert (docs + [doc])[..|docs|] == docs;
  }

  lemma ItemizedAppend(postings: seq<Posting>, items: seq<Item>, item: Item)
    requires item.entry < |postings|
    ensures Itemized(postings, items + [item]) == Itemized(postings, items) + postings[item.entry].amount
  {
    assert (items + [item])[..|items|] == items;
  }

  lemma {:induction false} ItemizedIgnoresNewPostings(postings: seq<Posting>, p: Posting, items: seq<Item>)
    requires forall i | 0 <= i < |items| :: items[i].entry < |postings|
    ensures Itemized(postings + [p], items) == Itemized(postings, items)
  {
    if |items| > 0 {
      ItemizedIgnoresNewPostings(postings, p, items[..|items| - 1]);
    }
  }

  lemma OpenDocumentKeepsTidy(a: Accounts, doc: Doc)
    requires Tidy(a) && doc.total == 0 && FindDoc(a.docs, doc.kind, doc.owner, doc.from, doc.to).None?
    ensures Tidy(a.(docs := a.docs + [doc]))
  {
    PromisedAppend(a.docs, doc);
    SumOfNone(a.items, |a.docs|);
  }

  lemma AddItemKeepsTidy(a: Accounts, doc: nat, entry: nat)
    requires Tidy(a) && doc < |a.docs| && entry < |a.postings| && !HasItem(a.items, entry)
    requires Documents(a.docs[doc], a.postings[entry], Abs(a.postings[entry].amount))
    ensures Tidy(AddItem(a, doc, entry))
  {
    var next, item := AddItem(a, doc, entry), Item(doc, entry, Abs(a.postings[entry].amount));
    forall d | 0 <= d < |next.docs| ensures next.docs[d].total == SumOf(next.items, d) {
      SumOfAppend(a.items, item, d);
    }
    PromisedUpdate(a.docs, doc, next.docs[doc]);
    ItemizedAppend(a.postings, a.items, item);
    forall i | 0 <= i < |a.items| ensures a.items[i].entry != entry {
    }
  }

  lemma SettleEntryKeepsTidy(a: Accounts, entry: nat, from: int, to: int)
    requires Tidy(a) && entry < |a.postings| && InPeriod(a.postings[entry], from, to)
    ensures Tidy(SettleEntry(a, entry, from, to))
  {
    var p := a.postings[entry];
    if KindOf(p).Some? && !HasItem(a.items, entry) {
      var found := FindDoc(a.docs, KindOf(p).value, p.owner.value, from, to);
      if found.None? {
        var doc := Doc(KindOf(p).value, p.owner.value, from, to, false, 0);
        OpenDocumentKeepsTidy(a, doc);
        AddItemKeepsTidy(a.(docs := a.docs + [doc]), |a.docs|, entry);
      } else if !a.docs[found.value].paid {
        AddItemKeepsTidy(a, found.value, entry);
      }
    }
  }

  lemma {:induction false} CloseKeepsTidy(a: Accounts, n: nat, from: int, to: int)
    requires Tidy(a) && n <= |a.postings|
    ensures Tidy(CloseUpTo(a, n, from, to))
  {
    if n > 0 {
      CloseKeepsTidy(a, n - 1, from, to);
      if InPeriod(a.postings[n - 1], from, to) {
        SettleEntryKeepsTidy(CloseUpTo(a, n - 1, from, to), n - 1, from, to);
      }
    }
  }

  lemma PostKeepsTidy(a: Accounts, p: Posting)
    requires Tidy(a)
    ensures Tidy(a.(postings := a.postings + [p]))
  {
    ItemizedIgnoresNewPostings(a.postings, p, a.items);
  }

  lemma MarkPaidKeepsTidy(a: Accounts, doc: nat)
    requires Tidy(a) && doc < |a.docs|
    ensures Tidy(a.(docs := a.docs[doc := a.docs[doc].(paid := true)]))
  {
    PromisedUpdate(a.docs, doc, a.docs[doc].(paid := true));
  }

  // ----- What closing changes -----

  /** Documents and items are only added, paid documents stay as they are and get no items. */
  ghost predicate Grows(a: Accounts, next: Accounts) {
    && next.postings == a.postings
    && |a.docs| <= |next.docs| && |a.items| <= |next.items|
    && (forall d | 0 <= d < |a.docs| :: next.docs[d].(total := a.docs[d].total) == a.docs[d])
    && (forall d | 0 <= d < |a.docs| && a.docs[d].paid :: next.docs[d] == a.docs[d])
    && (forall d | |a.docs| <= d < |next.docs| :: !next.docs[d].paid)
    && (forall i | 0 <= i < |a.items| :: next.items[i] == a.items[i])
    && (forall i | |a.items| <= i < |next.items| && next.items[i].doc < |a.docs| :: !a.docs[next.items[i].doc].paid)
  }

  lemma SettleEntryGrows(a: Accounts, entry: nat, from: int, to: int)
    requires entry < |a.postings|
    ensures Grows(a, SettleEntry(a, entry, from, to))
  {
  }

  lemma GrowsTransitive(a: Accounts, b: Accounts, c: Accounts)
    requires Grows(a, b) && Grows(b, c)
    ensures Grows(a, c)
  {
    forall i | |a.items| <= i < |c.items| && c.items[i].doc < |a.docs| ensures !a.docs[c.items[i].doc].paid {
      if i < |b.items| {
        assert c.items[i] == b.items[i];
      }
    }
  }

  lemma {:induction false} CloseGrows(a: Accounts, n: nat, from: int, to: int)
    requires n <= |a.postings|
    ensures Grows(a, CloseUpTo(a, n, from, to))
  {
    if n > 0 {
      var before := CloseUpTo(a, n - 1, from, to);
      CloseGrows(a, n - 1, from, to);
      if InPeriod(a.postings[n - 1], from, to) {
        SettleEntryGrows(before, n - 1, from, to);
        GrowsTransitive(a, before, SettleEntry(before, n - 1, from, to));
      }
    }
  }

  /** Nothing is left to do for an entry: it has an item, or has none to get. */
  predicate Done(a: Accounts, entry: nat, from: int, to: int)
    requires entry < |a.postings|
  {
    var kind := KindOf(a.postings[entry]);
    || kind.None?
    || HasItem(a.items, entry)
    || exists d | 0 <= d < |a.docs| ::
        Named(a.docs[d], kind.value, a.postings[entry].owner.value, from, to) && a.docs[d].paid
  }

  lemma SettledIsDone(a: Accounts, entry: nat, from: int, to: int)
    requires entry < |a.postings|
    ensures Done(SettleEntry(a, entry, from, to), entry, from, to)
  {
    var next := SettleEntry(a, entry, from, to);
    if next != a {
      assert next.items[|a.items|].entry == entry;
    }
  }

  lemma DoneStaysDone(a: Accounts, next: Accounts, entry: nat, from: int, to: int)
    requires entry < |a.postings| && Grows(a, next) && Done(a, entry, from, to)
    ensures Done(next, entry, from, to)
  {
    if HasItem(a.items, entry) {
      var i :| 0 <= i < |a.items| && a.items[i].entry == entry;
      assert next.items[i] == a.items[i];
    } else if KindOf(a.postings[entry]).Some? {
      var kind := KindOf(a.postings[entry]).value;
      var d :| 0 <= d < |a.docs| && Named(a.docs[d], kind, a.postings[entry].owner.value, from, to) && a.docs[d].paid;
      assert next.docs[d] == a.docs[d];
    }
  }

  lemma {:induction false} ClosedIsDone(a: Accounts, n: nat, from: int, to: int, entry: nat)
    requires n <= |a.postings| && entry < n && InPeriod(a.postings[entry], from, to)
    ensures Done(CloseUpTo(a, n, from, to), entry, from, to)
  {
    var before := CloseUpTo(a, n - 1, from, to);
    if entry == n - 1 {
      SettledIsDone(before, entry, from, to);
    } else {
      ClosedIsDone(a, n - 1, from, to, entry);
      if InPeriod(a.postings[n - 1], from, to) {
        SettleEntryGrows(before, n - 1, from, to);
        DoneStaysDone(before, SettleEntry(before, n - 1, from, to), entry, from, to);
      }
    }
  }

  lemma SettlingTheDoneIsIdle(a: Accounts, entry: nat, from: int, to: int)
    requires entry < |a.postings| && UniqueDocs(a.docs) && Done(a, entry, from, to)
    ensures SettleEntry(a, entry, from, to) == a
  {
  }

  lemma {:induction false} ClosingTheClosedIsIdle(a: Accounts, n: nat, from: int, to: int)
    requires n <= |a.postings| && UniqueDocs(a.docs)
    requires forall entry | 0 <= entry < n && InPeriod(a.postings[entry], from, to) :: Done(a, entry, from, to)
    ensures CloseUpTo(a, n, from, to) == a
  {
    if n > 0 {
      ClosingTheClosedIsIdle(a, n - 1, from, to);
      if InPeriod(a.postings[n - 1], from, to) {
        SettlingTheDoneIsIdle(a, n - 1, from, to);
      }
    }
  }

  /** Closing a period a second time changes nothing. */
  lemma CloseTwiceIsCloseOnce(a: Accounts, from: int, to: int)
    requires Tidy(a) && Close(a, from, to).Ok?
    ensures Close(Close(a, from, to).value, from, to) == Close(a, from, to)
  {
    var next := Close(a, from, to).value;
    CloseKeepsTidy(a, |a.postings|, from, to);
    forall entry | 0 <= entry < |a.postings| && InPeriod(a.postings[entry], from, to)
        ensures Done(next, entry, from, to) {
      ClosedIsDone(a, |a.postings|, from, to, entry);
    }
    ClosingTheClosedIsIdle(next, |a.postings|, from, to);
  }

  /** No document of the entry's owner, kind and period was paid. */
  ghost predicate NotYetPaid(docs: seq<Doc>, p: Posting, from: int, to: int)
    requires KindOf(p).Some?
  {
    forall d | 0 <= d < |docs| && Named(docs[d], KindOf(p).value, p.owner.value, from, to) :: !docs[d].paid
  }

  /** An entry that gets its item now found its own document open, or none. */
  lemma NewItemIsOwn(a: Accounts, settled: nat, from: int, to: int, entry: nat)
    requires UniqueDocs(a.docs) && settled < |a.postings| && entry < |a.postings| && KindOf(a.postings[entry]).Some?
    requires HasItem(SettleEntry(a, settled, from, to).items, entry) && !HasItem(a.items, entry)
    ensures entry == settled && NotYetPaid(a.docs, a.postings[entry], from, to)
  {
    var next, p := SettleEntry(a, settled, from, to), a.postings[entry];
    var i :| 0 <= i < |next.items| && next.items[i].entry == entry;
    assert i == |a.items|;
    forall d | 0 <= d < |a.docs| && Named(a.docs[d], KindOf(p).value, p.owner.value, from, to) ensures !a.docs[d].paid {
      assert FindDoc(a.docs, KindOf(p).value, p.owner.value, from, to) == Some(d);
    }
  }

  lemma {:induction false} OnlyOwnItems(a: Accounts, n: nat, from: int, to: int, entry: nat)
    requires n <= |a.postings| && entry < |a.postings| && Tidy(a) && KindOf(a.postings[entry]).Some?
    requires HasItem(CloseUpTo(a, n, from, to).items, entry) && !HasItem(a.items, entry)
    ensures NotYetPaid(a.docs, a.postings[entry], from, to)
  {
    var before := CloseUpTo(a, n - 1, from, to);
    if HasItem(before.items, entry) {
      OnlyOwnItems(a, n - 1, from, to, entry);
    } else {
      CloseKeepsTidy(a, n - 1, from, to);
      NewItemIsOwn(before, n - 1, from, to, entry);
      CloseGrows(a, n - 1, from, to);
      PaidBefore(a, before, a.postings[entry], from, to);
    }
  }

  lemma PaidBefore(a: Accounts, next: Accounts, p: Posting, from: int, to: int)
    requires Grows(a, next) && KindOf(p).Some? && NotYetPaid(next.docs, p, from, to)
    ensures NotYetPaid(a.docs, p, from, to)
  {
    forall d | 0 <= d < |a.docs| && Named(a.docs[d], KindOf(p).value, p.owner.value, from, to) ensures !a.docs[d].paid {
      assert next.docs[d].(total := a.docs[d].total) == a.docs[d];
      assert Named(next.docs[d], KindOf(p).value, p.owner.value, from, to);
    }
  }

  /**
   * After a close, an entry of the period that can be settled has an item if and only if it had one before or its own
   * document was not yet paid.
   */
  lemma CloseIsComplete(a: Accounts, from: int, to: int, entry: nat)
    requires Tidy(a) && Close(a, from, to).Ok? && entry < |a.postings| && InPeriod(a.postings[entry], from, to)
    requires KindOf(a.postings[entry]).Some?
    ensures HasItem(Close(a, from, to).value.items, entry) <==>
              HasItem(a.items, entry) || NotYetPaid(a.docs, a.postings[entry], from, to)
  {
    var next, p := Close(a, from, to).value, a.postings[entry];
    ClosedIsDone(a, |a.postings|, from, to, entry);
    CloseGrows(a, |a.postings|, from, to);
    if HasItem(a.items, entry) {
      DoneStaysDone(a, next, entry, from, to);
      var i :| 0 <= i < |a.items| && a.items[i].entry == entry;
      assert next.items[i] == a.items[i];
    } else if HasItem(next.items, entry) {
      OnlyOwnItems(a, |a.postings|, from, to, entry);
    } else {
      var d :| 0 <= d < |next.docs| && Named(next.docs[d], KindOf(p).value, p.owner.value, from, to)
          && next.docs[d].paid;
      assert d < |a.docs| && a.docs[d].paid;
    }
  }

  // ----- Runs -----

  datatype Step = Posts(posting: Posting) | Closes(from: int, to: int) | Pays(doc: nat)

  function Next(a: Accounts, step: Step): Accounts {
    match step
    case Posts(p) => a.(postings := a.postings + [p])
    case Closes(from, to) => if Close(a, from, to).Ok? then Close(a, from, to).value else a
    case Pays(doc) => if MarkPaid(a, doc).Ok? then MarkPaid(a, doc).value else a
  }

  function Run(steps: seq<Step>): Accounts {
    if |steps| == 0 then Accounts([], [], []) else Next(Run(steps[..|steps| - 1]), steps[|steps| - 1])
  }

  lemma NextKeepsTidy(a: Accounts, step: Step)
    requires Tidy(a)
    ensures Tidy(Next(a, step))
  {
    match step
    case Posts(p) => PostKeepsTidy(a, p);
    case Closes(from, to) => CloseKeepsTidy(a, |a.postings|, from, to);
    case Pays(doc) => if doc < |a.docs| { MarkPaidKeepsTidy(a, doc); }
  }

  /**
   * Over any sequence of closes, overlapping or not, and payments: each total is the sum of the document's items,
   * no entry is in two items, and what all documents promise is what their entries come to in the ledger.
   */
  lemma {:induction false} AccountsAreTidy(steps: seq<Step>)
    ensures Tidy(Run(steps))
  {
    if |steps| > 0 {
      AccountsAreTidy(steps[..|steps| - 1]);
      NextKeepsTidy(Run(steps[..|steps| - 1]), steps[|steps| - 1]);
    }
  }

  /** Items are only appended, and none of the appended ones is in document d. */
  ghost predicate NothingAdded(a: Accounts, next: Accounts, d: nat) {
    && |a.items| <= |next.items| && next.items[..|a.items|] == a.items
    && forall i | |a.items| <= i < |next.items| :: next.items[i].doc != d
  }

  ghost predicate Frozen(a: Accounts, next: Accounts, d: nat) {
    && d < |a.docs| && d < |next.docs| && next.docs[d] == a.docs[d]
    && NothingAdded(a, next, d)
  }

  lemma StepFreezesPaid(a: Accounts, step: Step, d: nat)
    requires d < |a.docs| && a.docs[d].paid
    ensures Frozen(a, Next(a, step), d)
  {
    if step.Closes? && step.from < step.to {
      CloseGrows(a, |a.postings|, step.from, step.to);
    }
  }

  lemma FrozenTwice(a: Accounts, b: Accounts, c: Accounts, d: nat)
    requires Frozen(a, b, d) && Frozen(b, c, d)
    ensures Frozen(a, c, d)
  {
    assert c.items[..|a.items|] == c.items[..|b.items|][..|a.items|];
    forall i | |a.items| <= i < |c.items| ensures c.items[i].doc != d {
      if i < |b.items| {
        assert c.items[i] == c.items[..|b.items|][i];
      }
    }
  }

  /**
   * A document paid at any moment of a run is the same ever after: its total stays, the items it had stay, and nothing
   * is added to it.
   */
  lemma {:induction false} PaidDocumentsAreFrozen(steps: seq<Step>, k: nat, d: nat)
    requires k <= |steps| && d < |Run(steps[..k]).docs| && Run(steps[..k]).docs[d].paid
    ensures d < |Run(steps).docs| && Run(steps).docs[d] == Run(steps[..k]).docs[d]
    ensures NothingAdded(Run(steps[..k]), Run(steps), d)
  {
    if k == |steps| {
      assert steps[..k] == steps;
    } else {
      var init := steps[..|steps| - 1];
      assert init[..k] == steps[..k];
      PaidDocumentsAreFrozen(init, k, d);
      StepFreezesPaid(Run(init), steps[|steps| - 1], d);
      FrozenTwice(Run(steps[..k]), Run(init), Run(steps), d);
    }
  }
}

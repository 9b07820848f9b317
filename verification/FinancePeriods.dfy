/** The settlement service as it runs: one transaction that walks the entries of a period. */
module FinancePeriods {
  import opened Settlement
  import opened Wrappers

  function CountDocs(docs: seq<Doc>, kind: DocKind, from: int, to: int): nat {
    if |docs| == 0 then 0
    else
      var last := docs[|docs| - 1];
      CountDocs(docs[..|docs| - 1], kind, from, to)
      + if last.kind == kind && last.from == from && last.to == to then 1 else 0
  }

  class FinanceTables {
    var postings: seq<Posting>
    var docs: seq<Doc>
    var items: seq<Item>

    constructor ()
      ensures State() == Accounts([], [], [])
    {
      postings, docs, items := [], [], [];
    }

    function State(): Accounts
      reads this
    {
      Accounts(postings, docs, items)
    }

    /** The open document of this owner and period, created if there is none; nothing if it is paid. */
    method EnsureDocument(kind: DocKind, owner: nat, from: int, to: int) returns (doc: Option<nat>)
      modifies this`docs
      ensures var found := FindDoc(old(docs), kind, owner, from, to);
              if found.None? then doc == Some(|old(docs)|) && docs == old(docs) + [Doc(kind, owner, from, to, false, 0)]
              else docs == old(docs) && doc == if old(docs)[found.value].paid then None else found
    {
      var found := FindDoc(docs, kind, owner, from, to);
      if found.Some? {
        return if docs[found.value].paid then None else found;
      }
      docs := docs + [Doc(kind, owner, from, to, false, 0)];
      return Some(|docs| - 1);
    }

    method RefreshTotal(doc: nat)
      requires doc < |docs|
      modifies this`docs
      ensures docs == old(docs)[doc := old(docs)[doc].(total := SumOf(items, doc))]
    {
      var total := 0;
      for i := 0 to |items|
        invariant total == SumOf(items[..i], doc)
      {
        assert items[..i + 1][..i] == items[..i];
        if items[i].doc == doc {
          total := total + items[i].amount;
        }
      }
      assert items[..|items|] == items;
      docs := docs[doc := docs[doc].(total := total)];
    }

    method CloseFinancePeriod(from: int, to: int) returns (r: Result<(nat, nat, nat), FinanceError>)
      modifies this
      ensures match Close(old(State()), from, to)
              case Err(e) => r == Err(e) && State() == old(State())
              case Ok(next) =>
                && State() == next
                && r == Ok((CountDocs(docs, StoreInvoice, from, to), CountDocs(docs, StorePayout, from, to),
                            CountDocs(docs, DriverPayout, from, to)))
    {
      if to <= from {
        return Err(InvalidPeriod);
      }
      ghost var was := State();
      for entry := 0 to |postings|
        invariant postings == was.postings
        invariant State() == CloseUpTo(was, entry, from, to)
      {
        var p := postings[entry];
        if !(from <= p.at < to) {
          continue;
        }
        var kind := KindOf(p);
        if kind.Some? && !HasItem(items, entry) {
          var doc := EnsureDocument(kind.value, p.owner.value, from, to);
          if doc.None? {
            continue;
          }
          items := items + [Item(doc.value, entry, Abs(p.amount))];
          RefreshTotal(doc.value);
        }
      }
      return Ok((CountDocs(docs, StoreInvoice, from, to), CountDocs(docs, StorePayout, from, to),
                 CountDocs(docs, DriverPayout, from, to)));
    }

    method MarkPaid(doc: nat) returns (r: Result<Doc, FinanceError>)
      modifies this
      ensures match Settlement.MarkPaid(old(State()), doc)
              case Err(e) => r == Err(e) && State() == old(State())
              case Ok(next) => State() == next && doc < |docs| && r == Ok(docs[doc])
    {
      if doc >= |docs| {
        return Err(NoSuchDocument);
      }
      docs := docs[doc := docs[doc].(paid := true)];
      return Ok(docs[doc]);
    }
  }
}

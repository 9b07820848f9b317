/** Sending everything that waits for a reviewed operation to review. */
module DependencyReview {
  import opened OperationQueue
  import opened Operations
  import opened PaymentData
  import opened Wrappers

  const REVIEW_BATCH := 100

  /** Rows refer to earlier rows only: a predecessor exists before its dependent is inserted. */
  ghost predicate Acyclic(rows: seq<Operation>) {
    forall i | 0 <= i < |rows| && rows[i].dependsOn.Some? :: rows[i].dependsOn.value < i
  }

  /** Reviewed, or unfinished and waiting, however indirectly, for something reviewed. */
  ghost predicate InClosure(rows: seq<Operation>, i: nat)
    requires Acyclic(rows) && i < |rows|
    decreases i
  {
    || rows[i].status.ReviewRequired?
    || (Active(rows[i]) && rows[i].dependsOn.Some? && InClosure(rows, rows[i].dependsOn.value))
  }

  predicate Blocked(rows: seq<Operation>, i: nat)
    requires i < |rows|
  {
    && Active(rows[i]) && rows[i].dependsOn.Some? && rows[i].dependsOn.value < |rows|
    && rows[rows[i].dependsOn.value].status.ReviewRequired?
  }

  /** The first `n` blocked rows from position `start`, in creation order. */
  function SelectBlocked(rows: seq<Operation>, start: nat, n: nat): (ids: seq<nat>)
    requires start <= |rows|
    ensures |ids| <= n
    ensures forall k | 0 <= k < |ids| :: start <= ids[k] < |rows| && Blocked(rows, ids[k])
    ensures forall j, k | 0 <= j < k < |ids| :: ids[j] < ids[k]
    ensures |ids| < n ==> forall i | start <= i < |rows| && Blocked(rows, i) :: i in ids
    decreases |rows| - start
  {
    if n == 0 || start == |rows| then []
    else if Blocked(rows, start) then [start] + SelectBlocked(rows, start + 1, n - 1)
    else SelectBlocked(rows, start + 1, n)
  }

  function MarkReviewed(rows: seq<Operation>, ids: seq<nat>): (next: seq<Operation>)
    ensures |next| == |rows|
    ensures forall i | 0 <= i < |rows| :: next[i] == if i in ids then Reviewed(rows[i]) else rows[i]
  {
    seq(|rows|, i requires 0 <= i < |rows| => if i in ids then Reviewed(rows[i]) else rows[i])
  }

  function ReviewCount(rows: seq<Operation>): nat {
    if |rows| == 0 then 0
    else ReviewCount(rows[..|rows| - 1]) + if rows[|rows| - 1].status.ReviewRequired? then 1 else 0
  }

  /** Reviewing a blocked row does not change which rows belong under review. */
  lemma {:induction false} MarkKeepsClosure(rows: seq<Operation>, ids: seq<nat>, i: nat)
    requires Acyclic(rows) && i < |rows|
    requires forall id | id in ids :: id < |rows| && Blocked(rows, id)
    ensures Acyclic(MarkReviewed(rows, ids))
    ensures InClosure(MarkReviewed(rows, ids), i) <==> InClosure(rows, i)
    decreases i
  {
    var next := MarkReviewed(rows, ids);
    forall j | 0 <= j < |next| && next[j].dependsOn.Some? ensures next[j].dependsOn.value < j {
      assert next[j].dependsOn == rows[j].dependsOn;
    }
    if rows[i].dependsOn.Some? {
      MarkKeepsClosure(rows, ids, rows[i].dependsOn.value);
    }
    if i in ids {
      assert InClosure(rows, rows[i].dependsOn.value);
    }
  }

  lemma {:induction false} CountUpdate(rows: seq<Operation>, i: nat, op: Operation)
    requires i < |rows| && op.status.ReviewRequired? && !rows[i].status.ReviewRequired?
    ensures ReviewCount(rows[i := op]) == ReviewCount(rows) + 1
  {
    var last := |rows| - 1;
    if i < last {
      CountUpdate(rows[..last], i, op);
      assert rows[i := op][..last] == rows[..last][i := op];
    } else {
      assert rows[i := op][..last] == rows[..last];
    }
  }

  /** Each selected row adds one to the number of reviewed rows. */
  lemma {:induction false} MarkCounts(rows: seq<Operation>, ids: seq<nat>)
    requires forall k | 0 <= k < |ids| :: ids[k] < |rows| && !rows[ids[k]].status.ReviewRequired?
    requires forall j, k | 0 <= j < k < |ids| :: ids[j] < ids[k]
    ensures ReviewCount(MarkReviewed(rows, ids)) == ReviewCount(rows) + |ids|
  {
    if |ids| == 0 {
      assert MarkReviewed(rows, ids) == rows;
    } else {
      var init, last := ids[..|ids| - 1], ids[|ids| - 1];
      MarkCounts(rows, init);
      assert last !in init;
      assert ids == init + [last];
      var before := MarkReviewed(rows, init);
      assert MarkReviewed(rows, ids) == before[last := Reviewed(rows[last])];
      CountUpdate(before, last, Reviewed(rows[last]));
    }
  }

  /** When nothing is blocked any more, the closure has been reached. */
  lemma {:induction false} NothingBlockedMeansClosed(rows: seq<Operation>, i: nat)
    requires Acyclic(rows) && i < |rows|
    requires forall j | 0 <= j < |rows| :: !Blocked(rows, j)
    ensures InClosure(rows, i) <==> rows[i].status.ReviewRequired?
    decreases i
  {
    if rows[i].dependsOn.Some? {
      NothingBlockedMeansClosed(rows, rows[i].dependsOn.value);
      assert !Blocked(rows, i);
    }
  }

  /** In the queue of one payment the closure of a reviewed head is everything from the head on. */
  lemma {:induction false} ClosureOfAQueue(ops: seq<Operation>, i: nat)
    requires Chain(ops) && i < |ops|
    ensures Acyclic(ops)
    ensures InClosure(ops, i) <==> Head(ops) <= i && ops[Head(ops)].status.ReviewRequired?
    decreases i
  {
    if i > Head(ops) {
      ChainShape(ops, i);
      ClosureOfAQueue(ops, i - 1);
    } else if i > 0 && ops[i].dependsOn.Some? {
      assert ops[i].dependsOn == Some(i - 1);
      assert ops[i - 1].status.Succeeded?;
    }
  }

  /** Some unfinished rows of the original table are reviewed by now, and who belongs under review is the same. */
  ghost predicate Underway(original: seq<Operation>, rows: seq<Operation>)
    requires Acyclic(original)
  {
    && |rows| == |original| && Acyclic(rows)
    && (forall i | 0 <= i < |rows| :: InClosure(rows, i) <==> InClosure(original, i))
    && (forall i | 0 <= i < |rows| ::
        rows[i] == original[i] || (Active(original[i]) && rows[i] == Reviewed(original[i])))
  }

  lemma RoundKeepsUnderway(original: seq<Operation>, rows: seq<Operation>, ids: seq<nat>)
    requires Acyclic(original) && Underway(original, rows)
    requires forall id | id in ids :: id < |rows| && Blocked(rows, id)
    ensures Underway(original, MarkReviewed(rows, ids))
  {
    var next := MarkReviewed(rows, ids);
    forall i | 0 <= i < |rows| ensures Acyclic(next) && (InClosure(next, i) <==> InClosure(original, i)) {
      MarkKeepsClosure(rows, ids, i);
    }
  }

  /** The operations of all payments, oldest first. */
  class OperationTable {
    var rows: seq<Operation>

    constructor (initial: seq<Operation>)
      ensures rows == initial
    {
      rows := initial;
    }

    /** Batches of at most a hundred, until nothing is blocked or the limit is used up. */
    method PropagateReviewedDependencies(limit: int) returns (total: nat)
      requires Acyclic(rows)
      modifies this
      ensures |rows| == |old(rows)| && Acyclic(rows)
      ensures forall i | 0 <= i < |rows| ::
                || rows[i] == old(rows)[i]
                || (Active(old(rows)[i]) && InClosure(old(rows), i) && rows[i] == Reviewed(old(rows)[i]))
      ensures total == ReviewCount(rows) - ReviewCount(old(rows))
      ensures total <= if limit < 0 then 0 else limit
      ensures total < limit ==>
                forall i | 0 <= i < |rows| :: rows[i].status.ReviewRequired? <==> InClosure(old(rows), i)
    {
      total := 0;
      if limit <= 0 {
        return;
      }
      var remaining: nat := limit;
      while remaining > 0
        invariant total + remaining == limit
        invariant Underway(old(rows), rows)
        invariant total == ReviewCount(rows) - ReviewCount(old(rows))
      {
        var ids := SelectBlocked(rows, 0, if remaining < REVIEW_BATCH then remaining else REVIEW_BATCH);
        if |ids| == 0 {
          forall i | 0 <= i < |rows| ensures rows[i].status.ReviewRequired? <==> InClosure(old(rows), i) {
            NothingBlockedMeansClosed(rows, i);
          }
          break;
        }
        RoundKeepsUnderway(old(rows), rows, ids);
        MarkCounts(rows, ids);
        rows := MarkReviewed(rows, ids);
        total, remaining := total + |ids|, remaining - |ids|;
      }
      forall i | 0 <= i < |rows| && rows[i] != old(rows)[i] ensures InClosure(old(rows), i) {
        assert InClosure(rows, i);
      }
    }
  }
}

/** The dispatcher as it runs on the table: claim, send, and write back if the lease is still held. */
module EmailOutbox {
  import opened Outbox
  import opened Wrappers

  datatype DispatchResult = NotClaimed | WasSent | RetryScheduled | WasCancelled | HasFailed

  datatype Summary = Summary(claimed: nat, sent: nat, retryScheduled: nat, cancelled: nat, failed: nat)

  function ResultOf(s: Status): DispatchResult {
    match s
    case Sent => WasSent
    case Pending => RetryScheduled
    case Cancelled => WasCancelled
    case _ => HasFailed
  }

  /** A dispatch that nobody disturbs, from claim to finish. */
  function Dispatched(row: Row, now: int, outcome: Outcome): Row {
    if Claimable(row, now) then Settled(Claimed(row, now), Claimed(row, now), outcome) else row
  }

  function ResultFor(row: Row, now: int, outcome: Outcome): DispatchResult {
    if Claimable(row, now) then ResultOf(Dispatched(row, now, outcome).status) else NotClaimed
  }

  /** Every message as an undisturbed dispatch leaves it. */
  function AllDispatched(rows: seq<Row>, now: int, outcomes: seq<Outcome>): (r: seq<Row>)
    requires |outcomes| == |rows|
    ensures |r| == |rows| && forall id | 0 <= id < |rows| :: r[id] == Dispatched(rows[id], now, outcomes[id])
  {
    seq(|rows|, id requires 0 <= id < |rows| => Dispatched(rows[id], now, outcomes[id]))
  }

  /** The listed messages are as in `dispatched`, all others as before. */
  ghost predicate OnlyListed(before: seq<Row>, after: seq<Row>, dispatched: seq<Row>, due: seq<nat>) {
    && |after| == |before| == |dispatched|
    && forall id | 0 <= id < |before| :: after[id] == if id in due then dispatched[id] else before[id]
  }

  lemma OneMoreListed(before: seq<Row>, after: seq<Row>, dispatched: seq<Row>, due: seq<nat>, id: nat)
    requires OnlyListed(before, after, dispatched, due) && id < |before| && id !in due
    ensures after[id] == before[id]
    ensures OnlyListed(before, after[id := dispatched[id]], dispatched, due + [id])
  {
  }

  lemma NextListed(due: seq<nat>, i: nat)
    requires i < |due| && forall j, k | 0 <= j < k < |due| :: due[j] != due[k]
    ensures due[i] !in due[..i] && due[..i + 1] == due[..i] + [due[i]]
  {
  }

  /** What becomes of the listed messages; `outcomes` has what rendering and sending each message comes to. */
  function Results(rows: seq<Row>, due: seq<nat>, now: int, outcomes: seq<Outcome>): (r: seq<DispatchResult>)
    requires |outcomes| == |rows| && forall i | 0 <= i < |due| :: due[i] < |rows|
    ensures |r| == |due|
    ensures forall i | 0 <= i < |due| :: r[i] == ResultFor(rows[due[i]], now, outcomes[due[i]])
  {
    if |due| == 0 then []
    else
      var last := due[|due| - 1];
      Results(rows, due[..|due| - 1], now, outcomes) + [ResultFor(rows[last], now, outcomes[last])]
  }

  /** What other workers make of the table at the given moment. They may add messages, and take none away. */
  type Others = (nat, seq<Row>) -> seq<Row>

  ghost predicate KeepsMessages(others: Others) {
    forall moment, rows :: |others(moment, rows)| >= |rows|
  }

  ghost predicate Idle(others: Others) {
    forall moment, rows :: others(moment, rows) == rows
  }

  datatype Work = Work(rows: seq<Row>, results: seq<DispatchResult>)

  /** A dispatch with others at work between its claim and its finish, who may have taken the lease over. */
  function DispatchAmid(rows: seq<Row>, id: nat, now: int, outcome: Outcome, others: Others, moment: nat)
    : (r: (seq<Row>, DispatchResult))
    requires id < |rows| && KeepsMessages(others)
    ensures |r.0| >= |rows|
  {
    if !Claimable(rows[id], now) then (rows, NotClaimed)
    else
      var claimed, token := Claimed(rows[id], now), now + LEASE_MS;
      var found := others(moment, rows[id := claimed]);
      var next := found[id := Finish(found[id], claimed, token, outcome)];
      (next, if Owns(found[id], token) then ResultOf(next[id].status) else NotClaimed)
  }

  /** The `n`-th dispatch of a list, for which others may have come first too. */
  function DispatchNext(rows: seq<Row>, id: nat, now: int, outcome: Outcome, others: Others, n: nat)
    : (r: (seq<Row>, DispatchResult))
    requires id < |rows| && KeepsMessages(others)
    ensures |r.0| >= |rows|
  {
    DispatchAmid(others(2 * n, rows), id, now, outcome, others, 2 * n + 1)
  }

  /** The first `n` messages of a list, with others at work before and during each dispatch. */
  function WorkedOff(rows: seq<Row>, due: seq<nat>, n: nat, now: int, outcomes: seq<Outcome>, others: Others): (w: Work)
    requires n <= |due| && KeepsMessages(others) && |outcomes| == |rows|
    requires forall i | 0 <= i < |due| :: due[i] < |rows|
    ensures |w.rows| >= |rows| && |w.results| == n
  {
    if n == 0 then Work(rows, [])
    else
      var w, id := WorkedOff(rows, due, n - 1, now, outcomes, others), due[n - 1];
      var r := DispatchNext(w.rows, id, now, outcomes[id], others, n);
      Work(r.0, w.results + [r.1])
  }

  lemma UndisturbedDispatch(rows: seq<Row>, id: nat, now: int, outcome: Outcome, others: Others, n: nat)
    requires id < |rows| && KeepsMessages(others) && Idle(others)
    ensures DispatchNext(rows, id, now, outcome, others, n).0 == rows[id := Dispatched(rows[id], now, outcome)]
    ensures DispatchNext(rows, id, now, outcome, others, n).1 == ResultFor(rows[id], now, outcome)
  {
    assert others(2 * n, rows) == rows;
    var claimed := rows[id := Claimed(rows[id], now)];
    assert others(2 * n + 1, claimed) == claimed;
    assert claimed[id] == Claimed(rows[id], now);
  }

  lemma UndisturbedStep(rows: seq<Row>, w: Work, due: seq<nat>, n: nat, now: int, outcomes: seq<Outcome>,
      others: Others)
    requires n < |due| && KeepsMessages(others) && Idle(others) && |outcomes| == |rows|
    requires forall i | 0 <= i < |due| :: due[i] < |rows|
    requires forall i, j | 0 <= i < j < |due| :: due[i] != due[j]
    requires OnlyListed(rows, w.rows, AllDispatched(rows, now, outcomes), due[..n])
    ensures var r := DispatchNext(w.rows, due[n], now, outcomes[due[n]], others, n + 1);
            && OnlyListed(rows, r.0, AllDispatched(rows, now, outcomes), due[..n + 1])
            && r.1 == ResultFor(rows[due[n]], now, outcomes[due[n]])
  {
    NextListed(due, n);
    OneMoreListed(rows, w.rows, AllDispatched(rows, now, outcomes), due[..n], due[n]);
    UndisturbedDispatch(w.rows, due[n], now, outcomes[due[n]], others, n + 1);
  }

  lemma OneMoreResult(done: seq<DispatchResult>, result: DispatchResult, results: seq<DispatchResult>, n: nat)
    requires 0 < n <= |results| && done == results[..n - 1] && result == results[n - 1]
    ensures done + [result] == results[..n]
  {
  }

  /** If nobody else is at work, exactly the listed messages are dispatched. */
  lemma {:induction false} UndisturbedWork(rows: seq<Row>, due: seq<nat>, n: nat, now: int, outcomes: seq<Outcome>,
      others: Others)
    requires n <= |due| && KeepsMessages(others) && Idle(others) && |outcomes| == |rows|
    requires forall i | 0 <= i < |due| :: due[i] < |rows|
    requires forall i, j | 0 <= i < j < |due| :: due[i] != due[j]
    ensures OnlyListed(rows, WorkedOff(rows, due, n, now, outcomes, others).rows, AllDispatched(rows, now, outcomes),
                       due[..n])
    ensures WorkedOff(rows, due, n, now, outcomes, others).results == Results(rows, due, now, outcomes)[..n]
  {
    if n > 0 {
      UndisturbedWork(rows, due, n - 1, now, outcomes, others);
      var w := WorkedOff(rows, due, n - 1, now, outcomes, others);
      UndisturbedStep(rows, w, due, n - 1, now, outcomes, others);
      var r := DispatchNext(w.rows, due[n - 1], now, outcomes[due[n - 1]], others, n);
      OneMoreResult(w.results, r.1, Results(rows, due, now, outcomes), n);
      assert WorkedOff(rows, due, n, now, outcomes, others) == Work(r.0, w.results + [r.1]);
    }
  }

  /** Each counter counts its results; all but the messages that somebody else had claimed are counted as claimed. */
  ghost predicate Tallies(summary: Summary, results: seq<DispatchResult>) {
    var m := multiset(results);
    && summary.claimed == |results| - m[NotClaimed]
    && summary.sent == m[WasSent]
    && summary.retryScheduled == m[RetryScheduled]
    && summary.cancelled == m[WasCancelled]
    && summary.failed == m[HasFailed]
  }

  const MAX_BATCH_SIZE := 50

  function BatchLimit(limit: int): nat {
    var atLeastZero := if limit < 0 then 0 else limit;
    if atLeastZero < MAX_BATCH_SIZE then atLeastZero else MAX_BATCH_SIZE
  }

  predicate NotLater(a: Row, b: Row) {
    a.nextAttemptAt < b.nextAttemptAt || (a.nextAttemptAt == b.nextAttemptAt && a.createdAt <= b.createdAt)
  }

  /** The messages that are due, each once and the earliest first; no more than `limit`, and all if they are fewer. */
  ghost predicate Selects(rows: seq<Row>, now: int, limit: nat, due: seq<nat>) {
    && |due| <= limit
    && (forall i | 0 <= i < |due| :: due[i] < |rows| && Claimable(rows[due[i]], now))
    && (forall i, j | 0 <= i < j < |due| :: due[i] != due[j] && NotLater(rows[due[i]], rows[due[j]]))
    && (forall id | 0 <= id < |rows| && Claimable(rows[id], now) && id !in due ::
          |due| == limit && forall i | 0 <= i < |due| :: NotLater(rows[due[i]], rows[id]))
  }

  lemma SelectedAreClaimed(rows: seq<Row>, now: int, limit: nat, due: seq<nat>, outcomes: seq<Outcome>)
    requires |outcomes| == |rows| && Selects(rows, now, limit, due)
    ensures NotClaimed !in Results(rows, due, now, outcomes)
  {
    var results := Results(rows, due, now, outcomes);
    forall i | 0 <= i < |due| ensures !results[i].NotClaimed? {
      assert Claimable(rows[due[i]], now);
    }
  }

  /** Every result is counted once. */
  lemma {:induction false} AllCounted(results: seq<DispatchResult>)
    ensures var m := multiset(results);
            |results| == m[NotClaimed] + m[WasSent] + m[RetryScheduled] + m[WasCancelled] + m[HasFailed]
  {
    if |results| > 0 {
      var init, last := results[..|results| - 1], results[|results| - 1];
      assert results == init + [last];
      AllCounted(init);
      assert last.NotClaimed? || last.WasSent? || last.RetryScheduled? || last.WasCancelled? || last.HasFailed?;
      assert multiset(results) == multiset(init) + multiset{last};
    }
  }

  /** If nobody else is at work, all messages that were selected are claimed, and all others are as they were. */
  lemma UndisturbedSelection(rows: seq<Row>, due: seq<nat>, now: int, limit: nat, outcomes: seq<Outcome>,
      others: Others)
    requires KeepsMessages(others) && Idle(others) && |outcomes| == |rows| && Selects(rows, now, limit, due)
    ensures var w := WorkedOff(rows, due, |due|, now, outcomes, others);
            && OnlyListed(rows, w.rows, AllDispatched(rows, now, outcomes), due)
            && w.results == Results(rows, due, now, outcomes) && NotClaimed !in w.results
  {
    UndisturbedWork(rows, due, |due|, now, outcomes, others);
    SelectedAreClaimed(rows, now, limit, due, outcomes);
    assert due[..|due|] == due;
    var results := Results(rows, due, now, outcomes);
    assert results[..|due|] == results;
  }

  class OutboxTable {
    var rows: seq<Row>

    constructor ()
      ensures rows == []
    {
      rows := [];
    }

    method ClaimOutbox(id: nat, now: int) returns (claim: Option<(Row, int)>)
      requires id < |rows|
      modifies this
      ensures if Claimable(old(rows)[id], now)
              then rows == old(rows)[id := Claimed(old(rows)[id], now)] && claim == Some((rows[id], now + LEASE_MS))
              else rows == old(rows) && claim.None?
    {
      if !Claimable(rows[id], now) {
        return None;
      }
      rows := rows[id := rows[id].(status := Processing, leasedUntil := Some(now + LEASE_MS))];
      return Some((rows[id], now + LEASE_MS));
    }

    method FinishWithStatus(id: nat, row: Row, token: int, status: Status, countAttempt: bool)
      returns (result: DispatchResult)
      requires id < |rows|
      modifies this
      ensures var attempts := if countAttempt then row.attempts + 1 else row.attempts;
              if Owns(old(rows)[id], token)
              then rows == old(rows)[id := Ended(old(rows)[id], status, attempts)] && result == ResultOf(status)
              else rows == old(rows) && result == NotClaimed
    {
      if !Owns(rows[id], token) {
        return NotClaimed;
      }
      var attempts := if countAttempt then row.attempts + 1 else row.attempts;
      rows := rows[id := rows[id].(status := status, attempts := attempts, leasedUntil := None)];
      return ResultOf(status);
    }

    method ScheduleRetry(id: nat, row: Row, token: int, challengeExpiresAt: Option<int>)
      returns (result: DispatchResult)
      requires id < |rows|
      modifies this
      ensures rows == old(rows)[id := Finish(old(rows)[id], row, token, Unreachable(challengeExpiresAt))]
      ensures result == if Owns(old(rows)[id], token) then ResultOf(rows[id].status) else NotClaimed
    {
      var attempts := row.attempts + 1;
      var next := NextAttempt(row.createdAt, attempts);
      if next.None? {
        result := FinishWithStatus(id, row, token, Failed, true);
        return;
      }
      if challengeExpiresAt.Some? && next.value >= challengeExpiresAt.value {
        result := FinishWithStatus(id, row, token, Cancelled, true);
        return;
      }
      if !Owns(rows[id], token) {
        return NotClaimed;
      }
      rows := rows[id := rows[id].(status := Pending, attempts := attempts, nextAttemptAt := next.value,
          leasedUntil := None)];
      return RetryScheduled;
    }

    /** While the message is rendered and sent, other workers go on. */
    method DispatchOutboxById(id: nat, now: int, outcome: Outcome, others: Others, moment: nat)
      returns (result: DispatchResult)
      requires id < |rows| && KeepsMessages(others)
      modifies this
      ensures (rows, result) == DispatchAmid(old(rows), id, now, outcome, others, moment)
    {
      var claim := ClaimOutbox(id, now);
      if claim.None? {
        return NotClaimed;
      }
      rows := others(moment, rows);
      assert rows[id := rows[id]] == rows;
      var (row, token) := claim.value;
      match outcome
      case RenderingFails => result := FinishWithStatus(id, row, token, Failed, false);
      case ChallengeInactive => result := FinishWithStatus(id, row, token, Cancelled, false);
      case Delivered => result := FinishWithStatus(id, row, token, Sent, true);
      case Refused => result := FinishWithStatus(id, row, token, Failed, true);
      case Unreachable(expiresAt) => result := ScheduleRetry(id, row, token, expiresAt);
    }

    method FirstDue(now: int, taken: seq<nat>) returns (first: Option<nat>)
      ensures first.None? ==> forall id | 0 <= id < |rows| && Claimable(rows[id], now) :: id in taken
      ensures first.Some? ==> first.value < |rows| && Claimable(rows[first.value], now) && first.value !in taken
      ensures first.Some? ==> forall id | 0 <= id < |rows| && Claimable(rows[id], now) && id !in taken ::
                NotLater(rows[first.value], rows[id])
    {
      first := None;
      for i := 0 to |rows|
        invariant first.None? ==> forall id | 0 <= id < i && Claimable(rows[id], now) :: id in taken
        invariant first.Some? ==> first.value < i && Claimable(rows[first.value], now) && first.value !in taken
        invariant first.Some? ==> forall id | 0 <= id < i && Claimable(rows[id], now) && id !in taken ::
                    NotLater(rows[first.value], rows[id])
      {
        if Claimable(rows[i], now) && i !in taken && (first.None? || !NotLater(rows[first.value], rows[i])) {
          first := Some(i);
        }
      }
    }

    method SelectDue(now: int, limit: nat) returns (due: seq<nat>)
      ensures Selects(rows, now, limit, due)
    {
      due := [];
      while |due| < limit
        invariant |due| <= limit
        invariant forall i | 0 <= i < |due| :: due[i] < |rows| && Claimable(rows[due[i]], now)
        invariant forall i, j | 0 <= i < j < |due| :: due[i] != due[j] && NotLater(rows[due[i]], rows[due[j]])
        invariant forall i, id | 0 <= i < |due| && 0 <= id < |rows| && Claimable(rows[id], now) && id !in due ::
                    NotLater(rows[due[i]], rows[id])
      {
        var first := FirstDue(now, due);
        if first.None? {
          return;
        }
        due := due + [first.value];
      }
    }

    method Counted(summary: Summary, result: DispatchResult, ghost results: seq<DispatchResult>)
      returns (next: Summary)
      requires Tallies(summary, results)
      ensures Tallies(next, results + [result])
    {
      next := summary;
      if result.NotClaimed? {
        return;
      }
      next := next.(claimed := next.claimed + 1);
      if result.WasSent? {
        next := next.(sent := next.sent + 1);
      } else if result.RetryScheduled? {
        next := next.(retryScheduled := next.retryScheduled + 1);
      } else if result.WasCancelled? {
        next := next.(cancelled := next.cancelled + 1);
      } else {
        next := next.(failed := next.failed + 1);
      }
    }

    method DispatchNextOne(id: nat, now: int, outcome: Outcome, others: Others, n: nat)
      returns (result: DispatchResult)
      requires id < |rows| && KeepsMessages(others)
      modifies this
      ensures (rows, result) == DispatchNext(old(rows), id, now, outcome, others, n)
    {
      rows := others(2 * n, rows);
      result := DispatchOutboxById(id, now, outcome, others, 2 * n + 1);
    }

    /** Works through a list of messages that were due; others may have claimed some of them meanwhile. */
    method DispatchAll(due: seq<nat>, now: int, outcomes: seq<Outcome>, others: Others) returns (summary: Summary)
      requires |outcomes| == |rows| && KeepsMessages(others)
      requires forall i | 0 <= i < |due| :: due[i] < |rows|
      modifies this
      ensures rows == WorkedOff(old(rows), due, |due|, now, outcomes, others).rows
      ensures Tallies(summary, WorkedOff(old(rows), due, |due|, now, outcomes, others).results)
    {
      summary := Summary(0, 0, 0, 0, 0);
      for i := 0 to |due|
        invariant rows == WorkedOff(old(rows), due, i, now, outcomes, others).rows
        invariant Tallies(summary, WorkedOff(old(rows), due, i, now, outcomes, others).results)
      {
        ghost var results := WorkedOff(old(rows), due, i, now, outcomes, others).results;
        var result := DispatchNextOne(due[i], now, outcomes[due[i]], others, i + 1);
        summary := Counted(summary, result, results);
      }
    }

    method DispatchDueOutbox(now: int, limit: int, outcomes: seq<Outcome>, others: Others)
      returns (summary: Summary, ghost due: seq<nat>)
      requires |outcomes| == |rows| && KeepsMessages(others)
      modifies this
      ensures Selects(old(rows), now, BatchLimit(limit), due)
      ensures rows == WorkedOff(old(rows), due, |due|, now, outcomes, others).rows
      ensures Tallies(summary, WorkedOff(old(rows), due, |due|, now, outcomes, others).results)
      ensures summary.claimed == summary.sent + summary.retryScheduled + summary.cancelled + summary.failed
    {
      var found := SelectDue(now, BatchLimit(limit));
      due := found;
      ghost var results := WorkedOff(rows, due, |due|, now, outcomes, others).results;
      summary := DispatchAll(found, now, outcomes, others);
      AllCounted(results);
    }
  }
}

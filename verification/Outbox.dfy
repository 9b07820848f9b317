/** One e-mail of the outbox and the workers that try to send it under leases. */
module Outbox {
  import opened Wrappers

  const LEASE_MS := 120_000
  const MINUTE_MS := 60_000
  /** When the attempts of a message are due, counted from its creation. */
  const OFFSETS: seq<int> := [0, 5 * MINUTE_MS, 30 * MINUTE_MS, 120 * MINUTE_MS, 720 * MINUTE_MS]

  datatype Status = Pending | Processing | Sent | Failed | Cancelled

  datatype Row = Row(status: Status, attempts: nat, nextAttemptAt: int, leasedUntil: Option<int>, createdAt: int)

  /** What rendering and sending may come to; a code e-mail is bound to the expiry of its challenge. */
  datatype Outcome =
    | RenderingFails
    | ChallengeInactive
    | Delivered
    | Refused
    | Unreachable(challengeExpiresAt: Option<int>)

  predicate Terminal(s: Status) {
    s.Sent? || s.Failed? || s.Cancelled?
  }

  predicate Claimable(row: Row, now: int) {
    || (row.status.Pending? && row.nextAttemptAt <= now)
    || (row.status.Processing? && row.leasedUntil.Some? && row.leasedUntil.value <= now)
  }

  function Claimed(row: Row, now: int): Row {
    row.(status := Processing, leasedUntil := Some(now + LEASE_MS))
  }

  /** The lease time doubles as the token of its holder. */
  predicate Owns(row: Row, token: int) {
    row.status.Processing? && row.leasedUntil == Some(token)
  }

  function NextAttempt(createdAt: int, attempts: nat): Option<int> {
    if attempts < |OFFSETS| then Some(createdAt + OFFSETS[attempts]) else None
  }

  function Ended(row: Row, status: Status, attempts: nat): Row {
    row.(status := status, attempts := attempts, leasedUntil := None)
  }

  /** What the holder of the lease writes, from the row as it was claimed. */
  function Settled(row: Row, claimed: Row, outcome: Outcome): Row {
    match outcome
    case RenderingFails => Ended(row, Failed, claimed.attempts)
    case ChallengeInactive => Ended(row, Cancelled, claimed.attempts)
    case Delivered => Ended(row, Sent, claimed.attempts + 1)
    case Refused => Ended(row, Failed, claimed.attempts + 1)
    case Unreachable(expiresAt) =>
      var next := NextAttempt(claimed.createdAt, claimed.attempts + 1);
      if next.None? then Ended(row, Failed, claimed.attempts + 1)
      else if expiresAt.Some? && next.value >= expiresAt.value then Ended(row, Cancelled, claimed.attempts + 1)
      else Ended(row, Pending, claimed.attempts + 1).(nextAttemptAt := next.value)
  }

  function Finish(row: Row, claimed: Row, token: int, outcome: Outcome): Row {
    if Owns(row, token) then Settled(row, claimed, outcome) else row
  }

  // ----- Many workers -----

  datatype Worker = Worker(token: int, claimed: Row, finished: bool)

  /** `writes` counts the finishes that changed the row. */
  datatype World = World(row: Row, workers: seq<Worker>, writes: nat)

  datatype Event = Claims | Finishes(worker: nat, outcome: Outcome)

  function Next(w: World, event: Event, now: int): World {
    match event
    case Claims =>
      if Claimable(w.row, now) then
        var row := Claimed(w.row, now);
        w.(row := row, workers := w.workers + [Worker(now + LEASE_MS, row, false)])
      else w
    case Finishes(k, outcome) =>
      if k < |w.workers| && !w.workers[k].finished then
        var worker := w.workers[k];
        World(Finish(w.row, worker.claimed, worker.token, outcome), w.workers[k := worker.(finished := true)],
              w.writes + if Owns(w.row, worker.token) then 1 else 0)
      else w
  }

  function Run(createdAt: int, events: seq<(Event, int)>): World {
    if |events| == 0 then World(Row(Pending, 0, createdAt, None, createdAt), [], 0)
    else Next(Run(createdAt, events[..|events| - 1]), events[|events| - 1].0, events[|events| - 1].1)
  }

  ghost predicate Ordered(events: seq<(Event, int)>) {
    forall i, j | 0 <= i < j < |events| :: events[i].1 <= events[j].1
  }

  /** A worker that is not done either holds the lease, on the row as it claimed it, or its lease has run out. */
  predicate HoldsOrLapsed(worker: Worker, row: Row, now: int) {
    worker.finished || worker.token <= now || (Owns(row, worker.token) && worker.claimed == row)
  }

  ghost predicate Fenced(w: World, now: int) {
    && (forall k | 0 <= k < |w.workers| :: HoldsOrLapsed(w.workers[k], w.row, now))
    && (forall j, k | 0 <= j < k < |w.workers| && !w.workers[j].finished && !w.workers[k].finished ::
          w.workers[j].token != w.workers[k].token)
    && (w.row.status.Processing? <==> w.row.leasedUntil.Some?)
  }

  /**
   * Stale workers may still hold the token of a lapsed lease that nobody has taken over: then the row is theirs as
   * it was.
   */
  ghost predicate OwnersKnowTheRow(w: World) {
    forall k | 0 <= k < |w.workers| && !w.workers[k].finished && Owns(w.row, w.workers[k].token) ::
        w.workers[k].claimed == w.row
  }

  predicate AttemptsOk(row: Row, writes: nat) {
    && (Terminal(row.status) ==> row.attempts <= |OFFSETS| && writes <= |OFFSETS| && writes <= row.attempts + 1)
    && (!Terminal(row.status) ==> row.attempts < |OFFSETS| && writes == row.attempts)
    && (row.status.Pending? ==> row.nextAttemptAt == row.createdAt + OFFSETS[row.attempts])
  }

  ghost predicate Sound(w: World, now: int) {
    Fenced(w, now) && OwnersKnowTheRow(w) && AttemptsOk(w.row, w.writes)
  }

  lemma ClaimKeepsSound(w: World, now: int)
    requires Sound(w, now)
    ensures Sound(Next(w, Claims, now), now)
  {
    if Claimable(w.row, now) {
      forall k | 0 <= k < |w.workers| && !w.workers[k].finished ensures w.workers[k].token <= now {
        assert HoldsOrLapsed(w.workers[k], w.row, now);
      }
    }
  }

  lemma FinishKeepsSound(w: World, k: nat, outcome: Outcome, now: int)
    requires Sound(w, now) && k < |w.workers| && !w.workers[k].finished
    ensures Sound(Next(w, Finishes(k, outcome), now), now)
  {
    var next, worker := Next(w, Finishes(k, outcome), now), w.workers[k];
    forall j | 0 <= j < |w.workers| ensures HoldsOrLapsed(next.workers[j], next.row, now) {
      assert HoldsOrLapsed(w.workers[j], w.row, now);
      if j != k && !w.workers[j].finished && Owns(w.row, worker.token) {
        assert w.workers[j].token != worker.token;
      }
    }
    if Owns(w.row, worker.token) {
      assert worker.claimed == w.row;
    }
  }

  lemma TimePasses(w: World, now: int, later: int)
    requires Sound(w, now) && now <= later
    ensures Sound(w, later)
  {
    forall k | 0 <= k < |w.workers| ensures HoldsOrLapsed(w.workers[k], w.row, later) {
      assert HoldsOrLapsed(w.workers[k], w.row, now);
    }
  }

  lemma {:induction false} RunsStaySound(createdAt: int, events: seq<(Event, int)>, now: int)
    requires Ordered(events) && (|events| > 0 ==> events[|events| - 1].1 <= now)
    ensures Sound(Run(createdAt, events), now)
  {
    if |events| > 0 {
      var init, last := events[..|events| - 1], events[|events| - 1];
      RunsStaySound(createdAt, init, last.1);
      var w := Run(createdAt, init);
      match last.0 {
        case Claims => ClaimKeepsSound(w, last.1);
        case Finishes(k, outcome) =>
          if k < |w.workers| && !w.workers[k].finished {
            FinishKeepsSound(w, k, outcome, last.1);
          }
      }
      TimePasses(Run(createdAt, events), last.1, now);
    }
  }

  /**
   * Over every run of workers that may stall at any point: no two that are still at work hold the same token, so
   * at most one of them can still change the row, and that one knows it as it is.
   */
  lemma TokensFence(createdAt: int, events: seq<(Event, int)>, j: nat, k: nat)
    requires Ordered(events)
    requires var w := Run(createdAt, events); j < k < |w.workers| && !w.workers[j].finished && !w.workers[k].finished
    ensures var w := Run(createdAt, events);
            && w.workers[j].token != w.workers[k].token
            && !(Owns(w.row, w.workers[j].token) && Owns(w.row, w.workers[k].token))
            && (Owns(w.row, w.workers[k].token) ==> w.workers[k].claimed == w.row)
  {
    RunsStaySound(createdAt, events, if |events| > 0 then events[|events| - 1].1 else createdAt);
  }

  /** Over every run: at most five attempts and at most five writes, and a pending row is due when its attempt says. */
  lemma AtMostFiveAttempts(createdAt: int, events: seq<(Event, int)>)
    requires Ordered(events)
    ensures var w := Run(createdAt, events);
            && w.row.attempts <= 5 && w.writes <= 5
            && (w.row.status.Pending? ==>
                w.row.attempts < 5 && w.row.nextAttemptAt == w.row.createdAt + OFFSETS[w.row.attempts])
  {
    RunsStaySound(createdAt, events, if |events| > 0 then events[|events| - 1].1 else createdAt);
  }

  /** A worker whose lease was taken over changes nothing by finishing. */
  lemma LateFinishChangesNothing(createdAt: int, events: seq<(Event, int)>, k: nat, outcome: Outcome, now: int)
    requires Ordered(events)
    requires var w := Run(createdAt, events); k + 1 < |w.workers| && !w.workers[k].finished
    ensures var w := Run(createdAt, events); Next(w, Finishes(k, outcome), now).row == w.row
  {
    var w := Run(createdAt, events);
    LaterClaimsTakeOver(createdAt, events, k);
  }

  /** Only the newest claim can hold the lease. */
  lemma {:induction false} LaterClaimsTakeOver(createdAt: int, events: seq<(Event, int)>, k: nat)
    requires Ordered(events) && k + 1 < |Run(createdAt, events).workers| && !Run(createdAt, events).workers[k].finished
    ensures !Owns(Run(createdAt, events).row, Run(createdAt, events).workers[k].token)
  {
    var init, last := events[..|events| - 1], events[|events| - 1];
    var w := Run(createdAt, init);
    RunsStaySound(createdAt, init, last.1);
    assert k < |w.workers|;
    assert HoldsOrLapsed(w.workers[k], w.row, last.1);
    if k + 1 < |w.workers| {
      LaterClaimsTakeOver(createdAt, init, k);
    }
  }

  /** A code is never scheduled for an attempt at which its challenge would have expired. */
  lemma RetriesPrecedeExpiry(row: Row, claimed: Row, token: int, expiresAt: int)
    requires Owns(row, token) && Finish(row, claimed, token, Unreachable(Some(expiresAt))).status.Pending?
    ensures Finish(row, claimed, token, Unreachable(Some(expiresAt))).nextAttemptAt < expiresAt
  {
  }
}

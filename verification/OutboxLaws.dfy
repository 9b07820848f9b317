/** When a message may be claimed, what each outcome makes of it, and how every message ended, written out. */
module OutboxLaws {
  import opened Outbox
  import opened Wrappers

  /** Minutes from the creation of a message to its second, third, fourth and fifth attempt. */
  function Minutes(attempt: nat): int
    requires 1 <= attempt <= 4
  {
    match attempt
    case 1 => 5
    case 2 => 30
    case 3 => 120
    case 4 => 720
  }

  predicate Holds(w: World, k: nat) {
    && k < |w.workers| && !w.workers[k].finished
    && w.row.status == Processing && w.row.leasedUntil == Some(w.workers[k].token)
  }

  /** A claim takes a message that is due, or whose lease has run out, for two minutes. */
  lemma ClaimsExactly(w: World, now: int)
    ensures var next := Next(w, Claims, now);
            if || (w.row.status == Pending && w.row.nextAttemptAt <= now)
               || (w.row.status == Processing && w.row.leasedUntil.Some? && w.row.leasedUntil.value <= now)
            then
              && next.row == Row(Processing, w.row.attempts, w.row.nextAttemptAt, Some(now + 120_000), w.row.createdAt)
              && next.workers == w.workers + [Worker(now + 120_000, next.row, false)]
            else next == w
  {
  }

  /** The outcome of the attempt after so many others. */
  predicate EndsAs(row: Row, outcome: Outcome, s: Status) {
    match s
    case Sent => outcome == Delivered
    case Failed => outcome == Refused || outcome == RenderingFails || (outcome.Unreachable? && row.attempts >= 4)
    case Cancelled =>
      || outcome == ChallengeInactive
      || (outcome.Unreachable? && row.attempts < 4 && outcome.challengeExpiresAt.Some?
          && outcome.challengeExpiresAt.value <= row.createdAt + Minutes(row.attempts + 1) * 60_000)
    case Pending =>
      && outcome.Unreachable? && row.attempts < 4
      && (outcome.challengeExpiresAt.Some? ==>
            outcome.challengeExpiresAt.value > row.createdAt + Minutes(row.attempts + 1) * 60_000)
    case Processing => false
  }

  /** Rendering that fails and challenges that lapse are no attempts. */
  predicate IsAttempt(outcome: Outcome) {
    outcome != RenderingFails && outcome != ChallengeInactive
  }

  lemma FinishWrites(w: World, k: nat, outcome: Outcome, now: int, s: Status)
    requires Sound(w, now) && Holds(w, k) && EndsAs(w.row, outcome, s)
    ensures Next(w, Finishes(k, outcome), now).row ==
            Row(s, w.row.attempts + if IsAttempt(outcome) then 1 else 0,
                if s == Pending then w.row.createdAt + Minutes(w.row.attempts + 1) * 60_000 else w.row.nextAttemptAt,
                None, w.row.createdAt)
  {
    assert w.workers[k].claimed == w.row;
  }

  lemma EveryOutcomeEnds(row: Row, outcome: Outcome)
    ensures exists s :: EndsAs(row, outcome, s)
  {
    if outcome.Unreachable? && row.attempts < 4 {
      assert EndsAs(row, outcome, Pending) || EndsAs(row, outcome, Cancelled);
    } else {
      assert EndsAs(row, outcome, Sent) || EndsAs(row, outcome, Failed) || EndsAs(row, outcome, Cancelled);
    }
  }

  /** The holder of the lease writes exactly what its outcome says, and nobody else writes anything. */
  lemma FinishesExactly(createdAt: int, events: seq<(Event, int)>, k: nat, outcome: Outcome, now: int, s: Status)
    requires Ordered(events) && (|events| > 0 ==> events[|events| - 1].1 <= now)
    ensures var w := Run(createdAt, events);
            var next := Next(w, Finishes(k, outcome), now);
            && (!Holds(w, k) ==> next.row == w.row)
            && (Holds(w, k) ==> (next.row.status == s <==> EndsAs(w.row, outcome, s)))
            && (Holds(w, k) && EndsAs(w.row, outcome, s) ==>
                  next.row == Row(s, w.row.attempts + if IsAttempt(outcome) then 1 else 0,
                                  if s == Pending then w.row.createdAt + Minutes(w.row.attempts + 1) * 60_000
                                  else w.row.nextAttemptAt, None, w.row.createdAt))
  {
    var w := Run(createdAt, events);
    RunsStaySound(createdAt, events, now);
    if Holds(w, k) {
      EveryOutcomeEnds(w.row, outcome);
      var t :| EndsAs(w.row, outcome, t);
      FinishWrites(w, k, outcome, now, t);
      if EndsAs(w.row, outcome, s) {
        FinishWrites(w, k, outcome, now, s);
      }
    }
  }

  // ----- How messages end -----

  /** With this event the holder of the lease ended the message so. */
  ghost predicate EndedAt(createdAt: int, events: seq<(Event, int)>, j: nat, s: Status) {
    && j < |events| && events[j].0.Finishes?
    && Holds(Run(createdAt, events[..j]), events[j].0.worker)
    && EndsAs(Run(createdAt, events[..j]).row, events[j].0.outcome, s)
  }

  lemma EndedStays(w: World, event: Event, now: int)
    requires Terminal(w.row.status)
    ensures Next(w, event, now).row == w.row
  {
  }

  lemma EndedLater(createdAt: int, events: seq<(Event, int)>, j: nat, s: Status)
    requires |events| > 0 && EndedAt(createdAt, events[..|events| - 1], j, s)
    ensures EndedAt(createdAt, events, j, s)
  {
    assert events[..j] == events[..|events| - 1][..j];
  }

  /**
   * Over every run, whoever stalls: a message is sent if and only if the holder of its lease saw it delivered, failed
   * if it was refused, could not be rendered or went unanswered five times, cancelled if its code had lapsed or would.
   */
  lemma {:induction false} EndsExactly(createdAt: int, events: seq<(Event, int)>, s: Status)
    requires Ordered(events) && Terminal(s)
    ensures Run(createdAt, events).row.status == s <==> exists j: nat :: EndedAt(createdAt, events, j, s)
  {
    if |events| > 0 {
      var init, last := events[..|events| - 1], events[|events| - 1];
      var w := Run(createdAt, init);
      EndsExactly(createdAt, init, s);
      if w.row.status == s {
        EndedStays(w, last.0, last.1);
        var j: nat :| EndedAt(createdAt, init, j, s);
        EndedLater(createdAt, events, j, s);
      } else {
        LastEnds(createdAt, events, s);
        forall j: nat | EndedAt(createdAt, events, j, s) ensures j == |events| - 1 {
          if j < |init| {
            assert events[..j] == init[..j];
            assert EndedAt(createdAt, init, j, s);
          }
        }
      }
    }
  }

  lemma LastEnds(createdAt: int, events: seq<(Event, int)>, s: Status)
    requires Ordered(events) && Terminal(s) && |events| > 0
    requires Run(createdAt, events[..|events| - 1]).row.status != s
    ensures Run(createdAt, events).row.status == s <==> EndedAt(createdAt, events, |events| - 1, s)
  {
    var init, last := events[..|events| - 1], events[|events| - 1];
    if last.0.Finishes? {
      FinishesExactly(createdAt, init, last.0.worker, last.0.outcome, last.1, s);
    }
  }
}

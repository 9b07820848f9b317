/** The limiter's answers, told from the times of the earlier requests alone. */
module RateLimitLaws {
  import opened RateLimits
  import opened Wrappers

  // ----- A limiter without a table -----

  /** When requests were made since the last clear. */
  function Requests(events: seq<(Event, int)>): seq<int> {
    if |events| == 0 then []
    else
      var (event, at) := events[|events| - 1];
      var earlier := Requests(events[..|events| - 1]);
      match event
      case Consumes => earlier + [at]
      case Clears => []
      case _ => earlier
  }

  /** How many requests fell into the same window as the given time. */
  function Earlier(times: seq<int>, window: int, now: int): nat
    requires window > 0
  {
    if |times| == 0 then 0
    else
      Earlier(times[..|times| - 1], window, now)
      + if times[|times| - 1] / window == now / window then 1 else 0
  }

  predicate InForce(block: Option<int>, now: int) {
    block.Some? && block.value > now
  }

  /** The last block: the request that reaches the limit starts it for the cooldown, unless one is in force. */
  function Block(times: seq<int>, p: Policy): Option<int>
    requires ValidPolicy(p)
  {
    if |times| == 0 then None
    else
      var earlier, at := times[..|times| - 1], times[|times| - 1];
      var block := Block(earlier, p);
      if InForce(block, at) then block
      else if p.cooldown.Some? && p.cooldown.value > 0 && Earlier(earlier, p.window, at) + 1 >= p.limit then
        Some(at + p.cooldown.value)
      else None
  }

  // ----- The table agrees -----

  function Times(answers: seq<Answer>): seq<int> {
    seq(|answers|, i requires 0 <= i < |answers| => answers[i].at)
  }

  lemma SameStart(a: int, b: int, window: int)
    requires window > 0
    ensures WindowStart(a, window) == WindowStart(b, window) <==> a / window == b / window
  {
    if a / window < b / window {
      Scale(a / window + 1, b / window, window);
    } else if b / window < a / window {
      Scale(b / window + 1, a / window, window);
    }
  }

  lemma {:induction false} CountWritten(answers: seq<Answer>, window: int, now: int)
    requires window > 0
    ensures CountIn(answers, window, WindowStart(now, window), false) == Earlier(Times(answers), window, now)
  {
    if |answers| > 0 {
      var init, last := answers[..|answers| - 1], answers[|answers| - 1];
      CountWritten(init, window, now);
      SameStart(last.at, now, window);
      assert Times(answers) == Times(init) + [last.at];
    }
  }

  /** The table carries the block of the history, as long as that is in force. */
  ghost predicate Agrees(t: Trace, times: seq<int>, p: Policy, now: int)
    requires ValidPolicy(p)
  {
    && Times(t.answers) == times
    && PriorBlock(t.rows, now) == if InForce(Block(times, p), now) then Block(times, p) else None
  }

  lemma CountIsEarlier(t: Trace, times: seq<int>, p: Policy, now: int)
    requires ValidPolicy(p) && Limiting(t, p, now) && Times(t.answers) == times
    ensures Consume(t.rows, p, now).1.count == Earlier(times, p.window, now) + 1
  {
    var start := WindowStart(now, p.window);
    assert RowCount(t.rows, start) == CountIn(t.answers, p.window, start, false);
    CountWritten(t.answers, p.window, now);
  }

  lemma BlockAfterRequest(times: seq<int>, p: Policy, now: int)
    requires ValidPolicy(p)
    ensures Block(times + [now], p) ==
            if InForce(Block(times, p), now) then Block(times, p)
            else if p.cooldown.Some? && p.cooldown.value > 0 && Earlier(times, p.window, now) + 1 >= p.limit then
              Some(now + p.cooldown.value)
            else None
  {
    assert (times + [now])[..|times|] == times;
  }

  lemma ConsumeAgrees(t: Trace, times: seq<int>, p: Policy, now: int)
    requires ValidPolicy(p) && Limiting(t, p, now) && Agrees(t, times, p, now)
    ensures Agrees(Next(t, p, Consumes, now, true), times + [now], p, now)
  {
    var next := Next(t, p, Consumes, now, true);
    assert Times(next.answers) == times + [now];
    BlockAfterRequest(times, p, now);
    CountIsEarlier(t, times, p, now);
    if InForce(Block(times, p), now) {
      BlockDeniesAndStays(t.rows, p, now, Block(times, p).value);
    } else {
      BlocksStartAtTheLimit(t.rows, p, now);
    }
  }

  lemma {:induction false} RunsAgree(p: Policy, events: seq<(Event, int)>, now: int)
    requires ValidPolicy(p) && Retaining(p) && Ordered(events) && (|events| > 0 ==> events[|events| - 1].1 <= now)
    ensures Agrees(Run(p, events, true), Requests(events), p, now)
  {
    if |events| > 0 {
      var init, last := events[..|events| - 1], events[|events| - 1];
      RunsAgree(p, init, last.1);
      RunsLimit(p, init, last.1);
      var t := Run(p, init, true);
      match last.0 {
        case Consumes => ConsumeAgrees(t, Requests(init), p, last.1);
        case Collects(victims) => CollectAlike(t.rows, p, victims, last.1);
        case _ =>
      }
      PriorBlockLater(Run(p, events, true).rows, last.1, now);
    }
  }

  /**
   * Over every run: a request is counted with those of its window, and allowed if and only if no block is in force and
   * the limit leaves room for it.
   */
  lemma AllowedExactly(p: Policy, events: seq<(Event, int)>, now: int)
    requires ValidPolicy(p) && Retaining(p) && Ordered(events) && (|events| > 0 ==> events[|events| - 1].1 <= now)
    ensures var d, times := Consume(Run(p, events, true).rows, p, now).1, Requests(events);
            && d.limit == p.limit && d.count == Earlier(times, p.window, now) + 1
            && (d.allowed <==> !InForce(Block(times, p), now) && Earlier(times, p.window, now) < p.limit)
  {
    RunsAgree(p, events, now);
    RunsLimit(p, events, now);
    CountIsEarlier(Run(p, events, true), Requests(events), p, now);
  }

  /** A denied request is told of the block in force, its own included, and to wait for its end or else the window's. */
  lemma DeniedUntil(p: Policy, events: seq<(Event, int)>, now: int)
    requires ValidPolicy(p) && Retaining(p) && Ordered(events) && (|events| > 0 ==> events[|events| - 1].1 <= now)
    ensures var d, block := Consume(Run(p, events, true).rows, p, now).1, Block(Requests(events) + [now], p);
            && (InForce(block, now) ==> d.blockedUntil == block)
            && (InForce(d.blockedUntil, now) ==> d.blockedUntil == block)
            && var end := if InForce(block, now) then block.value else (now / p.window + 1) * p.window;
               if d.allowed then d.retryAfterSeconds == 0
               else now + d.retryAfterSeconds * 1000 >= end > now + (d.retryAfterSeconds - 1) * 1000
  {
    var t, times := Run(p, events, true), Requests(events);
    RunsAgree(p, events, now);
    RunsLimit(p, events, now);
    ConsumeAgrees(t, times, p, now);
    BlockAfterUpsert(t.rows, p, now);
    RetryAfterIsTight(t.rows, p, now);
  }

  /** Fewer requests than the limit in every window are all allowed, however often the table is swept. */
  lemma {:induction false} BelowTheLimitNothingBlocks(times: seq<int>, p: Policy)
    requires ValidPolicy(p)
    requires forall i | 0 <= i < |times| :: Earlier(times[..i], p.window, times[i]) + 1 < p.limit
    ensures Block(times, p) == None
  {
    if |times| > 0 {
      var init := times[..|times| - 1];
      assert forall i | 0 <= i < |init| :: init[..i] == times[..i];
      BelowTheLimitNothingBlocks(init, p);
    }
  }

  lemma BelowTheLimitEveryRequestIsAllowed(p: Policy, events: seq<(Event, int)>, now: int)
    requires ValidPolicy(p) && Retaining(p) && Ordered(events) && (|events| > 0 ==> events[|events| - 1].1 <= now)
    requires var times := Requests(events);
             && (forall i | 0 <= i < |times| :: Earlier(times[..i], p.window, times[i]) + 1 < p.limit)
             && Earlier(times, p.window, now) < p.limit
    ensures Consume(Run(p, events, true).rows, p, now).1.allowed
  {
    BelowTheLimitNothingBlocks(Requests(events), p);
    AllowedExactly(p, events, now);
  }
}

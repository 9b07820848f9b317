/** A fixed-window limiter with blocks that outlast windows, for one scope and subject. Times are milliseconds. */
module RateLimits {
  import opened Wrappers

  datatype Policy = Policy(limit: nat, window: int, retention: int, cooldown: Option<int>)

  /** One row of the table; `start` identifies it. */
  datatype Bucket = Bucket(start: int, count: nat, blockedUntil: Option<int>, expiresAt: int)

  datatype Decision = Decision(allowed: bool, count: nat, limit: nat, retryAfterSeconds: int, blockedUntil: Option<int>)

  predicate ValidPolicy(p: Policy) {
    p.window > 0
  }

  function WindowStart(now: int, window: int): (start: int)
    requires window > 0
    ensures start <= now < start + window
  {
    now / window * window
  }

  function CeilSeconds(ms: int): int {
    if ms <= 0 then 0 else (ms + 999) / 1000
  }

  function Later(a: Option<int>, b: Option<int>): Option<int> {
    if a.None? then b else if b.None? || a.value >= b.value then a else b
  }

  function Find(rows: seq<Bucket>, start: int): (r: Option<nat>)
    ensures r.Some? ==> r.value < |rows| && rows[r.value].start == start
    ensures r.None? ==> forall i | 0 <= i < |rows| :: rows[i].start != start
  {
    if |rows| == 0 then None
    else if rows[|rows| - 1].start == start then Some(|rows| - 1)
    else Find(rows[..|rows| - 1], start)
  }

  function Current(rows: seq<Bucket>, start: int): Option<Bucket> {
    var i := Find(rows, start);
    if i.Some? then Some(rows[i.value]) else None
  }

  /** The latest block of any window that is still in force. */
  function PriorBlock(rows: seq<Bucket>, now: int): (r: Option<int>)
    ensures r.Some? ==> r.value > now && exists b | b in rows :: b.blockedUntil == r
    ensures forall b | b in rows && b.blockedUntil.Some? && b.blockedUntil.value > now ::
              r.Some? && b.blockedUntil.value <= r.value
  {
    if |rows| == 0 then None
    else
      var last := rows[|rows| - 1];
      var rest := PriorBlock(rows[..|rows| - 1], now);
      if last.blockedUntil.Some? && last.blockedUntil.value > now then Later(last.blockedUntil, rest) else rest
  }

  /** The bucket of the current window after one more request. */
  function Bumped(p: Policy, current: Option<Bucket>, prior: Option<int>, now: int): Bucket
    requires ValidPolicy(p)
  {
    var start := WindowStart(now, p.window);
    var count := if current.Some? then current.value.count + 1 else 1;
    var latest := Later(if current.Some? then current.value.blockedUntil else None, prior);
    var blockedUntil :=
      if latest.Some? && latest.value > now then latest
      else if p.cooldown.Some? && count >= p.limit then Some(now + p.cooldown.value)
      else latest;
    var base := start + p.retention;
    var expiresAt := if blockedUntil.Some? && blockedUntil.value > base then blockedUntil.value else base;
    Bucket(start, count, blockedUntil, expiresAt)
  }

  function Decide(p: Policy, count: nat, blockedUntil: Option<int>, wasBlocked: bool, now: int): Decision
    requires ValidPolicy(p)
  {
    var allowed := !wasBlocked && count <= p.limit;
    var retry :=
      if allowed then 0
      else if blockedUntil.Some? && blockedUntil.value > now then CeilSeconds(blockedUntil.value - now)
      else CeilSeconds(WindowStart(now, p.window) + p.window - now);
    Decision(allowed, count, p.limit, retry, blockedUntil)
  }

  function Upsert(rows: seq<Bucket>, b: Bucket): seq<Bucket> {
    var i := Find(rows, b.start);
    if i.Some? then rows[i.value := b] else rows + [b]
  }

  function Consume(rows: seq<Bucket>, p: Policy, now: int): (seq<Bucket>, Decision)
    requires ValidPolicy(p)
  {
    var prior := PriorBlock(rows, now);
    var b := Bumped(p, Current(rows, WindowStart(now, p.window)), prior, now);
    (Upsert(rows, b), Decide(p, b.count, b.blockedUntil, prior.Some?, now))
  }

  function Inspect(rows: seq<Bucket>, p: Policy, now: int): Decision
    requires ValidPolicy(p)
  {
    var prior := PriorBlock(rows, now);
    var current := Current(rows, WindowStart(now, p.window));
    Decide(p, if current.Some? then current.value.count else 0,
           Later(if current.Some? then current.value.blockedUntil else None, prior), prior.Some?, now)
  }

  /** Garbage collection takes any choice of rows that have expired. */
  function Collect(rows: seq<Bucket>, victims: set<int>, now: int): (next: seq<Bucket>)
    ensures forall b :: b in next <==> b in rows && !(b.start in victims && b.expiresAt <= now)
  {
    if |rows| == 0 then []
    else
      var rest := Collect(rows[..|rows| - 1], victims, now);
      var last := rows[|rows| - 1];
      if last.start in victims && last.expiresAt <= now then rest else rest + [last]
  }

  // ----- What holds of every table -----

  ghost predicate UniqueStarts(rows: seq<Bucket>) {
    forall i, j | 0 <= i < j < |rows| :: rows[i].start != rows[j].start
  }

  /**
   * Rows are kept for at least their window. Only where each millisecond is a window of its own and every request
   * starts a block, the blocks do it for a retention that is too short.
   */
  predicate Retaining(p: Policy) {
    || p.retention >= p.window
    || (p.window == 1 && p.limit <= 1 && p.cooldown.Some? && p.cooldown.value >= 1)
  }

  /** A row outlives its block and, if rows are retained, its window. */
  predicate Lasting(b: Bucket, p: Policy) {
    && (Retaining(p) ==> b.expiresAt >= b.start + p.window)
    && (b.blockedUntil.Some? ==> b.expiresAt >= b.blockedUntil.value)
  }

  ghost predicate TableOk(rows: seq<Bucket>, p: Policy) {
    UniqueStarts(rows) && forall b | b in rows :: Lasting(b, p)
  }

  lemma CurrentIs(rows: seq<Bucket>, b: Bucket)
    requires UniqueStarts(rows) && b in rows
    ensures Current(rows, b.start) == Some(b)
  {
  }

  lemma UpsertCurrent(rows: seq<Bucket>, b: Bucket, start: int)
    requires UniqueStarts(rows)
    ensures UniqueStarts(Upsert(rows, b))
    ensures Current(Upsert(rows, b), start) == if start == b.start then Some(b) else Current(rows, start)
    ensures forall x :: x in Upsert(rows, b) <==> x == b || (x in rows && x.start != b.start)
  {
    var next := Upsert(rows, b);
    assert b in next by {
      var i := Find(rows, b.start);
      assert next[if i.Some? then i.value else |rows|] == b;
    }
    forall x | x in rows && x.start != b.start ensures x in next {
      var i :| 0 <= i < |rows| && rows[i] == x;
      assert next[i] == x;
    }
    CurrentIs(next, b);
    if start != b.start && Current(rows, start).Some? {
      CurrentIs(next, Current(rows, start).value);
    }
  }

  lemma ConsumeKeepsTable(rows: seq<Bucket>, p: Policy, now: int)
    requires ValidPolicy(p) && TableOk(rows, p)
    ensures TableOk(Consume(rows, p, now).0, p)
  {
    var b := Bumped(p, Current(rows, WindowStart(now, p.window)), PriorBlock(rows, now), now);
    UpsertCurrent(rows, b, b.start);
  }

  lemma {:induction false} CollectKeepsTable(rows: seq<Bucket>, p: Policy, victims: set<int>, now: int)
    requires TableOk(rows, p)
    ensures TableOk(Collect(rows, victims, now), p)
  {
    if |rows| > 0 {
      assert forall b | b in rows[..|rows| - 1] :: b in rows;
      CollectKeepsTable(rows[..|rows| - 1], p, victims, now);
      assert forall b | b in Collect(rows[..|rows| - 1], victims, now) :: b.start != rows[|rows| - 1].start;
    }
  }

  // ----- Blocks -----

  ghost predicate Carries(rows: seq<Bucket>, until: int) {
    exists b | b in rows :: b.blockedUntil == Some(until)
  }

  ghost predicate NoLaterBlock(rows: seq<Bucket>, until: int) {
    forall b | b in rows && b.blockedUntil.Some? :: b.blockedUntil.value <= until
  }

  /** The block in force is one time, whichever rows carry it. */
  lemma PriorBlockIs(rows: seq<Bucket>, now: int, until: int)
    requires until > now && Carries(rows, until) && NoLaterBlock(rows, until)
    ensures PriorBlock(rows, now) == Some(until)
  {
    var b :| b in rows && b.blockedUntil == Some(until);
  }

  lemma PriorBlockMeans(rows: seq<Bucket>, now: int)
    ensures PriorBlock(rows, now).Some? ==>
              PriorBlock(rows, now).value > now && Carries(rows, PriorBlock(rows, now).value)
                  && NoLaterBlock(rows, PriorBlock(rows, now).value)
    ensures PriorBlock(rows, now).None? ==> NoLaterBlock(rows, now)
  {
    forall b | b in rows && b.blockedUntil.Some? && PriorBlock(rows, now).None? ensures b.blockedUntil.value <= now {
    }
  }

  /** A row's block is in force after it was written unless another one is later. */
  lemma PriorBlockAfter(rows: seq<Bucket>, row: Bucket, now: int)
    requires UniqueStarts(rows)
    requires row.blockedUntil.Some? && row.blockedUntil.value > now && NoLaterBlock(rows, row.blockedUntil.value)
    ensures PriorBlock(Upsert(rows, row), now) == row.blockedUntil
  {
    var next := Upsert(rows, row);
    UpsertCurrent(rows, row, row.start);
    assert row in next;
    PriorBlockIs(next, now, row.blockedUntil.value);
  }

  /**
   * While a block is in force every request is denied, in the same window or a later one, and the block neither
   * moves nor ends early.
   */
  lemma BlockDeniesAndStays(rows: seq<Bucket>, p: Policy, now: int, until: int)
    requires ValidPolicy(p) && TableOk(rows, p) && PriorBlock(rows, now) == Some(until)
    ensures var (next, d) := Consume(rows, p, now);
            && !d.allowed && d.blockedUntil == Some(until)
            && PriorBlock(next, now) == Some(until)
  {
    var current := Current(rows, WindowStart(now, p.window));
    PriorBlockMeans(rows, now);
    BumpedCarries(rows, p, current, now, until);
    PriorBlockAfter(rows, Bumped(p, current, Some(until), now), now);
  }

  lemma BumpedCarries(rows: seq<Bucket>, p: Policy, current: Option<Bucket>, now: int, until: int)
    requires ValidPolicy(p) && until > now && NoLaterBlock(rows, until) && (current.Some? ==> current.value in rows)
    ensures Bumped(p, current, Some(until), now).blockedUntil == Some(until)
  {
  }

  /** Neither time, up to its end, nor garbage collection lifts a block. */
  lemma BlockOutlastsCollection(rows: seq<Bucket>, p: Policy, victims: set<int>, now: int, later: int, until: int)
    requires TableOk(rows, p) && PriorBlock(rows, now) == Some(until) && now <= later < until
    ensures PriorBlock(rows, later) == Some(until)
    ensures PriorBlock(Collect(rows, victims, later), later) == Some(until)
  {
    PriorBlockMeans(rows, now);
    var b :| b in rows && b.blockedUntil == Some(until);
    assert Lasting(b, p);
    PriorBlockIs(rows, later, until);
    assert b in Collect(rows, victims, later);
    PriorBlockIs(Collect(rows, victims, later), later, until);
  }

  /** Without a block in force, the row carries one exactly when the request reaches the limit. */
  lemma BumpedAtTheLimit(p: Policy, current: Option<Bucket>, now: int)
    requires ValidPolicy(p)
    requires current.Some? && current.value.blockedUntil.Some? ==> current.value.blockedUntil.value <= now
    ensures var row := Bumped(p, current, None, now);
            (if row.blockedUntil.Some? && row.blockedUntil.value > now then row.blockedUntil else None) ==
              if p.cooldown.Some? && p.cooldown.value > 0 && row.count >= p.limit then Some(now + p.cooldown.value)
                  else None
  {
  }

  /** A block begins with the request that reaches the limit, and only then; it lasts for the cooldown. */
  lemma BlocksStartAtTheLimit(rows: seq<Bucket>, p: Policy, now: int)
    requires ValidPolicy(p) && TableOk(rows, p) && PriorBlock(rows, now).None?
    ensures PriorBlock(Consume(rows, p, now).0, now) ==
              if p.cooldown.Some? && p.cooldown.value > 0 && Consume(rows, p, now).1.count >= p.limit
              then Some(now + p.cooldown.value) else None
  {
    var current := Current(rows, WindowStart(now, p.window));
    PriorBlockMeans(rows, now);
    assert current.Some? ==> current.value in rows;
    BumpedAtTheLimit(p, current, now);
    BlockAfterUpsert(rows, p, now);
  }

  /** A request is allowed exactly when an inspection would be and the count leaves room for one more. */
  lemma InspectPredictsConsume(rows: seq<Bucket>, p: Policy, now: int)
    requires ValidPolicy(p)
    ensures Consume(rows, p, now).1.allowed <==> Inspect(rows, p, now).allowed && Inspect(rows, p, now).count < p.limit
    ensures Consume(rows, p, now).1.count == Inspect(rows, p, now).count + 1
  {
  }

  /** The advised wait is the least number of whole seconds to the end of the block, or else of the window. */
  lemma RetryAfterIsTight(rows: seq<Bucket>, p: Policy, now: int)
    requires ValidPolicy(p)
    ensures var d := Consume(rows, p, now).1;
            var end := if d.blockedUntil.Some? && d.blockedUntil.value > now then d.blockedUntil.value
                       else WindowStart(now, p.window) + p.window;
            if d.allowed then d.retryAfterSeconds == 0
            else now + d.retryAfterSeconds * 1000 >= end > now + (d.retryAfterSeconds - 1) * 1000
  {
  }

  // ----- Garbage collection changes nothing -----

  /** Two tables that no request from now on can tell apart. */
  ghost predicate Alike(a: seq<Bucket>, b: seq<Bucket>, p: Policy, now: int) {
    && TableOk(a, p) && TableOk(b, p)
    && PriorBlock(a, now) == PriorBlock(b, now)
    && forall start | start + p.window > now :: Current(a, start) == Current(b, start)
  }

  lemma AlikeLater(a: seq<Bucket>, b: seq<Bucket>, p: Policy, now: int, later: int)
    requires Alike(a, b, p, now) && now <= later
    ensures Alike(a, b, p, later)
  {
    PriorBlockLater(a, now, later);
    PriorBlockLater(b, now, later);
  }

  lemma PriorBlockLater(rows: seq<Bucket>, now: int, later: int)
    requires now <= later
    ensures PriorBlock(rows, later) ==
              if PriorBlock(rows, now).Some? && PriorBlock(rows, now).value > later then PriorBlock(rows, now) else None
  {
  }

  /** Alike tables give the same answer and stay alike. */
  lemma ConsumeAlike(a: seq<Bucket>, b: seq<Bucket>, p: Policy, now: int)
    requires ValidPolicy(p) && Alike(a, b, p, now)
    ensures Consume(a, p, now).1 == Consume(b, p, now).1
    ensures Alike(Consume(a, p, now).0, Consume(b, p, now).0, p, now)
  {
    var start, prior := WindowStart(now, p.window), PriorBlock(a, now);
    var row := Bumped(p, Current(a, start), prior, now);
    ConsumeKeepsTable(a, p, now);
    ConsumeKeepsTable(b, p, now);
    forall s | s + p.window > now ensures Current(Upsert(a, row), s) == Current(Upsert(b, row), s) {
      UpsertCurrent(a, row, s);
      UpsertCurrent(b, row, s);
    }
    BlockAfterUpsert(a, p, now);
    BlockAfterUpsert(b, p, now);
  }

  /** After a request, the block in force is the one that its row carries. */
  lemma BlockAfterUpsert(rows: seq<Bucket>, p: Policy, now: int)
    requires ValidPolicy(p) && TableOk(rows, p)
    ensures var row := Bumped(p, Current(rows, WindowStart(now, p.window)), PriorBlock(rows, now), now);
            PriorBlock(Upsert(rows, row), now) == if row.blockedUntil.Some? && row.blockedUntil.value > now then
                row.blockedUntil else None
  {
    var current := Current(rows, WindowStart(now, p.window));
    var row := Bumped(p, current, PriorBlock(rows, now), now);
    PriorBlockMeans(rows, now);
    if PriorBlock(rows, now).Some? {
      BlockDeniesAndStays(rows, p, now, PriorBlock(rows, now).value);
    } else if row.blockedUntil.Some? && row.blockedUntil.value > now {
      PriorBlockAfter(rows, row, now);
    } else {
      UpsertCurrent(rows, row, row.start);
      PriorBlockMeans(Upsert(rows, row), now);
    }
  }

  /** With rows retained for their window, whatever garbage collection takes is of no consequence. */
  lemma CollectAlike(rows: seq<Bucket>, p: Policy, victims: set<int>, now: int)
    requires ValidPolicy(p) && Retaining(p) && TableOk(rows, p)
    ensures Alike(rows, Collect(rows, victims, now), p, now)
  {
    var next := Collect(rows, victims, now);
    CollectKeepsTable(rows, p, victims, now);
    forall start | start + p.window > now ensures Current(rows, start) == Current(next, start) {
      if Current(rows, start).Some? {
        var b := Current(rows, start).value;
        assert b in rows && Lasting(b, p);
        CurrentIs(next, b);
      }
    }
    if PriorBlock(rows, now).Some? {
      BlockOutlastsCollection(rows, p, victims, now, now, PriorBlock(rows, now).value);
    }
  }

  // ----- Runs -----

  datatype Event = Consumes | Inspects | Clears | Collects(victims: set<int>)

  datatype Answer = Answer(at: int, decision: Decision)

  /** The table, and the answers to all requests since the last clear. */
  datatype Trace = Trace(rows: seq<Bucket>, answers: seq<Answer>)

  function Next(t: Trace, p: Policy, event: Event, now: int, collecting: bool): Trace
    requires ValidPolicy(p)
  {
    match event
    case Consumes => Trace(Consume(t.rows, p, now).0, t.answers + [Answer(now, Consume(t.rows, p, now).1)])
    case Inspects => t
    case Clears => Trace([], [])
    case Collects(victims) => if collecting then t.(rows := Collect(t.rows, victims, now)) else t
  }

  function Run(p: Policy, events: seq<(Event, int)>, collecting: bool): Trace
    requires ValidPolicy(p)
  {
    if |events| == 0 then Trace([], [])
    else
      var last := events[|events| - 1];
      Next(Run(p, events[..|events| - 1], collecting), p, last.0, last.1, collecting)
  }

  ghost predicate Ordered(events: seq<(Event, int)>) {
    forall i, j | 0 <= i < j < |events| :: events[i].1 <= events[j].1
  }

  /** No run can tell whether expired rows are ever deleted: all answers are the same, to the last detail. */
  lemma {:induction false} CollectionIsInvisible(p: Policy, events: seq<(Event, int)>, now: int)
    requires ValidPolicy(p) && Retaining(p) && Ordered(events)
    requires |events| > 0 ==> events[|events| - 1].1 <= now
    ensures Run(p, events, true).answers == Run(p, events, false).answers
    ensures Alike(Run(p, events, true).rows, Run(p, events, false).rows, p, now)
  {
    if |events| > 0 {
      var init, last := events[..|events| - 1], events[|events| - 1];
      CollectionIsInvisible(p, init, last.1);
      var a, b := Run(p, init, true).rows, Run(p, init, false).rows;
      match last.0 {
        case Consumes => ConsumeAlike(a, b, p, last.1);
        case Collects(victims) => CollectAlike(a, p, victims, last.1);
        case _ =>
      }
      AlikeLater(Run(p, events, true).rows, Run(p, events, false).rows, p, last.1, now);
    }
  }

  /** No time is before 1970. */
  ghost predicate Timestamps(events: seq<(Event, int)>) {
    forall i | 0 <= i < |events| :: events[i].1 >= 0
  }

  /** The answers of this run, in the order of time, tell whether rows are deleted. */
  ghost predicate Tells(p: Policy, events: seq<(Event, int)>)
    requires ValidPolicy(p)
  {
    Ordered(events) && Timestamps(events) && Run(p, events, true).answers != Run(p, events, false).answers
  }

  /** No sequence of requests, inspections, clears and deletions in the order of time has answers that tell. */
  ghost predicate Invisible(p: Policy)
    requires ValidPolicy(p)
  {
    forall events :: !Tells(p, events)
  }

  lemma SameWindow(t: int, start: int, window: int)
    requires window > 0 && WindowStart(start, window) == start <= t < start + window
    ensures WindowStart(t, window) == start
  {
    NeighbouringWindow(start, t, window);
  }

  lemma MultipleStarts(n: int, window: int)
    requires window > 0
    ensures WindowStart(n * window, window) == n * window
  {
    NeighbouringWindow(n * window, n * window, window);
    var d := n * window / window - n;
    assert n * window == WindowStart(n * window, window) + n * window % window;
    assert d * window == WindowStart(n * window, window) - n * window;
    if d >= 1 {
      Scale(1, d, window);
    } else if d <= -1 {
      Scale(d, -1, window);
    }
  }

  lemma RunAppend(p: Policy, events: seq<(Event, int)>, e: (Event, int), collecting: bool)
    requires ValidPolicy(p)
    ensures Run(p, events + [e], collecting) == Next(Run(p, events, collecting), p, e.0, e.1, collecting)
  {
    assert (events + [e])[..|events|] == events;
  }

  lemma LateWindow(time: int, window: int) returns (start: int)
    requires window > 0 && time >= 0
    ensures WindowStart(start, window) == start && start >= time
  {
    start := time * window;
    MultipleStarts(time, window);
    Scale(1, window, time + 1);
  }

  /** Once the row of the current window is gone, the next request of the window is counted as its first. */
  lemma LostRowShows(rows: seq<Bucket>, p: Policy, start: int, now: int)
    requires ValidPolicy(p) && UniqueStarts(rows) && WindowStart(start, p.window) == start <= now < start + p.window
    requires Current(rows, start).Some? && Current(rows, start).value.count >= 1
    requires Current(rows, start).value.expiresAt <= now
    ensures Consume(Collect(rows, {start}, now), p, now).1.count == 1
    ensures Consume(rows, p, now).1.count >= 2
  {
    SameWindow(now, start, p.window);
    assert forall b | b in rows && b.start == start :: b == Current(rows, start).value by {
      forall b | b in rows && b.start == start ensures b == Current(rows, start).value {
        CurrentIs(rows, b);
      }
    }
  }

  lemma ThenCollectAndConsume(p: Policy, events: seq<(Event, int)>, start: int, now: int, collecting: bool)
    requires ValidPolicy(p)
    ensures var t := Run(p, events, collecting);
            var rows := if collecting then Collect(t.rows, {start}, now) else t.rows;
            Run(p, events + [(Collects({start}), now)] + [(Consumes, now)], collecting).answers ==
              t.answers + [Answer(now, Consume(rows, p, now).1)]
  {
    RunAppend(p, events, (Collects({start}), now), collecting);
    RunAppend(p, events + [(Collects({start}), now)], (Consumes, now), collecting);
  }

  lemma OrderedAppend(events: seq<(Event, int)>, e: (Event, int))
    requires Ordered(events) && (|events| > 0 ==> events[|events| - 1].1 <= e.1)
    ensures Ordered(events + [e])
  {
  }

  lemma LastDiffers(a: seq<Answer>, x: Answer, y: Answer)
    requires x != y
    ensures a + [x] != a + [y]
  {
    assert (a + [x])[|a|] == x && (a + [y])[|a|] == y;
  }

  /** The deletion of the row of the window that began at `start`, and a request right after it. */
  function Probe(start: int, now: int): seq<(Event, int)> {
    [(Collects({start}), now), (Consumes, now)]
  }

  lemma ProbeAppends(p: Policy, events: seq<(Event, int)>, start: int, now: int, collecting: bool)
    requires ValidPolicy(p)
    ensures var t := Run(p, events, collecting);
            var rows := if collecting then Collect(t.rows, {start}, now) else t.rows;
            Run(p, events + Probe(start, now), collecting).answers == t.answers + [Answer(now, Consume(rows, p, now).1)]
  {
    ThenCollectAndConsume(p, events, start, now, collecting);
    assert events + Probe(start, now) == events + [(Collects({start}), now)] + [(Consumes, now)];
  }

  lemma OrderedProbe(events: seq<(Event, int)>, start: int, now: int)
    requires Ordered(events) && Timestamps(events) && now >= 0 && (|events| > 0 ==> events[|events| - 1].1 <= now)
    ensures Ordered(events + Probe(start, now)) && Timestamps(events + Probe(start, now))
  {
    OrderedAppend(events, (Collects({start}), now));
    OrderedAppend(events + [(Collects({start}), now)], (Consumes, now));
    assert events + Probe(start, now) == events + [(Collects({start}), now)] + [(Consumes, now)];
  }

  /** The two tables answer the probe differently. */
  ghost predicate Lost(rows: seq<Bucket>, p: Policy, start: int, now: int)
    requires ValidPolicy(p)
  {
    Consume(Collect(rows, {start}, now), p, now).1 != Consume(rows, p, now).1
  }

  lemma LostRowIsLost(rows: seq<Bucket>, p: Policy, start: int, now: int)
    requires ValidPolicy(p) && UniqueStarts(rows) && WindowStart(start, p.window) == start <= now < start + p.window
    requires Current(rows, start).Some? && Current(rows, start).value.count >= 1
    requires Current(rows, start).value.expiresAt <= now
    ensures Lost(rows, p, start, now)
  {
    LostRowShows(rows, p, start, now);
  }

  lemma LossDiffers(p: Policy, events: seq<(Event, int)>, start: int, now: int, t: Trace)
    requires ValidPolicy(p) && Lost(t.rows, p, start, now)
    requires Run(p, events, true) == t && Run(p, events, false) == t
    ensures Run(p, events + Probe(start, now), true).answers != Run(p, events + Probe(start, now), false).answers
  {
    ProbeAppends(p, events, start, now, true);
    ProbeAppends(p, events, start, now, false);
    var x, y := Consume(Collect(t.rows, {start}, now), p, now).1, Consume(t.rows, p, now).1;
    LastDiffers(t.answers, Answer(now, x), Answer(now, y));
  }

  /** A run that leaves such a row, once with and once without the deletion. */
  lemma LostRowIsVisible(p: Policy, events: seq<(Event, int)>, start: int, now: int, t: Trace)
    returns (run: seq<(Event, int)>)
    requires ValidPolicy(p) && Lost(t.rows, p, start, now) && Ordered(events) && Timestamps(events) && now >= 0
    requires |events| > 0 ==> events[|events| - 1].1 <= now
    requires Run(p, events, true) == t && Run(p, events, false) == t
    ensures Tells(p, run)
  {
    OrderedProbe(events, start, now);
    LossDiffers(p, events, start, now, t);
    run := events + Probe(start, now);
  }

  lemma OneRequest(p: Policy, first: int, collecting: bool)
    requires ValidPolicy(p)
    ensures Run(p, [(Consumes, first)], collecting) ==
              Trace(Consume([], p, first).0, [Answer(first, Consume([], p, first).1)])
  {
    var none: seq<(Event, int)> := [];
    RunAppend(p, none, (Consumes, first), collecting);
    assert none + [(Consumes, first)] == [(Consumes, first)];
  }

  lemma FirstRowIsLost(p: Policy, now: int)
    requires ValidPolicy(p) && 0 <= now < p.window && p.retention <= now
    requires p.limit >= 2 || p.cooldown.None? || p.cooldown.value <= 0
    ensures Lost(Consume([], p, 0).0, p, 0, now)
  {
    MultipleStarts(0, p.window);
    var b := Bumped(p, None, None, 0);
    assert Consume([], p, 0).0 == [b];
    CurrentIs([b], b);
    LostRowIsLost([b], p, 0, now);
  }

  /** One request is enough if it starts no block, or one that is over at once. */
  lemma VisibleWithoutBlock(p: Policy) returns (run: seq<(Event, int)>)
    requires ValidPolicy(p) && p.retention < p.window
    requires p.limit >= 2 || p.cooldown.None? || p.cooldown.value <= 0
    ensures Tells(p, run)
  {
    var now := if p.retention > 0 then p.retention else 0;
    OneRequest(p, 0, true);
    OneRequest(p, 0, false);
    FirstRowIsLost(p, now);
    run := LostRowIsVisible(p, [(Consumes, 0)], 0, now, Run(p, [(Consumes, 0)], true));
  }

  /**
   * Otherwise a first request starts a block that ends just after a window begins, in which a second one leaves its
   * row.
   */
  lemma RowUnderBlock(p: Policy, start: int)
    requires ValidPolicy(p) && p.window >= 2 && p.limit <= 1 && p.cooldown.Some? && p.cooldown.value >= 1
    requires WindowStart(start, p.window) == start
    ensures var rows := Consume(Consume([], p, start + 1 - p.cooldown.value).0, p, start).0;
            && UniqueStarts(rows) && Current(rows, start).Some? && Current(rows, start).value.count >= 1
            && Current(rows, start).value.expiresAt == start + if p.retention > 1 then p.retention else 1
  {
    var first := Bumped(p, None, None, start + 1 - p.cooldown.value);
    assert Consume([], p, start + 1 - p.cooldown.value).0 == [first];
    assert first.blockedUntil == Some(start + 1);
    assert first in [first];
    PriorBlockIs([first], start, start + 1);
    var row := Bumped(p, Current([first], start), Some(start + 1), start);
    UpsertCurrent([first], row, start);
    assert row.blockedUntil == Some(start + 1);
  }

  lemma LostUnderBlock(p: Policy, rows: seq<Bucket>, start: int, now: int)
    requires ValidPolicy(p) && p.limit <= 1 && p.cooldown.Some? && p.cooldown.value >= 1
    requires rows == Consume(Consume([], p, start + 1 - p.cooldown.value).0, p, start).0
    requires WindowStart(start, p.window) == start < now < start + p.window && now >= start + p.retention
    ensures Lost(rows, p, start, now)
  {
    RowUnderBlock(p, start);
    LostRowIsLost(rows, p, start, now);
  }

  lemma TwoRequests(p: Policy, first: int, second: int) returns (events: seq<(Event, int)>, t: Trace)
    requires ValidPolicy(p) && 0 <= first <= second
    ensures Ordered(events) && Timestamps(events) && |events| > 0 && events[|events| - 1].1 == second
    ensures Run(p, events, true) == t && Run(p, events, false) == t
    ensures t.rows == Consume(Consume([], p, first).0, p, second).0
  {
    OneRequest(p, first, true);
    OneRequest(p, first, false);
    RunAppend(p, [(Consumes, first)], (Consumes, second), true);
    RunAppend(p, [(Consumes, first)], (Consumes, second), false);
    events := [(Consumes, first)] + [(Consumes, second)];
    t := Run(p, events, true);
  }

  lemma VisibleUnderBlock(p: Policy) returns (run: seq<(Event, int)>)
    requires ValidPolicy(p) && p.retention < p.window && p.window >= 2
    requires p.limit <= 1 && p.cooldown.Some? && p.cooldown.value >= 1
    ensures Tells(p, run)
  {
    var start := LateWindow(p.cooldown.value, p.window);
    var now := start + if p.retention > 1 then p.retention else 1;
    var events, t := TwoRequests(p, start + 1 - p.cooldown.value, start);
    LostUnderBlock(p, t.rows, start, now);
    run := LostRowIsVisible(p, events, start, now, t);
  }

  /**
   * Deleting expired rows can be told from keeping them if and only if rows are not retained for their window: for
   * every policy whose window is longer than a millisecond, if and only if its retention is shorter than its window.
   */
  lemma InvisibleExactlyWhenRetaining(p: Policy)
    requires ValidPolicy(p)
    ensures Invisible(p) <==> Retaining(p)
    ensures p.window >= 2 ==> (Invisible(p) <==> p.retention >= p.window)
  {
    if Retaining(p) {
      forall events: seq<(Event, int)> ensures !Tells(p, events) {
        if Ordered(events) {
          CollectionIsInvisible(p, events, if |events| > 0 then events[|events| - 1].1 else 0);
        }
      }
    } else if p.limit >= 2 || p.cooldown.None? || p.cooldown.value <= 0 {
      var run := VisibleWithoutBlock(p);
      assert Tells(p, run);
    } else {
      var run := VisibleUnderBlock(p);
      assert Tells(p, run);
    }
  }

  // ----- How much gets through -----

  /** The answers to requests of one window, or only the permissions among them. */
  function CountIn(answers: seq<Answer>, window: int, start: int, permissions: bool): nat
    requires window > 0
  {
    if |answers| == 0 then 0
    else
      var last := answers[|answers| - 1];
      CountIn(answers[..|answers| - 1], window, start, permissions)
      + if WindowStart(last.at, window) == start && (permissions ==> last.decision.allowed) then 1 else 0
  }

  lemma CountAppend(answers: seq<Answer>, a: Answer, window: int, start: int, permissions: bool)
    requires window > 0
    ensures CountIn(answers + [a], window, start, permissions) == CountIn(answers, window, start, permissions)
              + if WindowStart(a.at, window) == start && (permissions ==> a.decision.allowed) then 1 else 0
  {
    assert (answers + [a])[..|answers|] == answers;
  }

  lemma {:induction false} PermissionsAreAnswers(answers: seq<Answer>, window: int, start: int)
    requires window > 0
    ensures CountIn(answers, window, start, true) <= CountIn(answers, window, start, false)
  {
    if |answers| > 0 {
      PermissionsAreAnswers(answers[..|answers| - 1], window, start);
    }
  }

  function RowCount(rows: seq<Bucket>, start: int): nat {
    var current := Current(rows, start);
    if current.Some? then current.value.count else 0
  }

  /** Rows of unfinished windows have counted every request, and no window has let more than the limit through. */
  ghost predicate Limiting(t: Trace, p: Policy, now: int)
    requires ValidPolicy(p)
  {
    && TableOk(t.rows, p)
    && (forall start | start + p.window > now :: RowCount(t.rows, start) == CountIn(t.answers, p.window, start, false))
    && (forall start :: CountIn(t.answers, p.window, start, true) <= p.limit)
  }

  lemma ConsumeKeepsLimiting(t: Trace, p: Policy, now: int)
    requires ValidPolicy(p) && Limiting(t, p, now)
    ensures Limiting(Next(t, p, Consumes, now, true), p, now)
  {
    var next, a := Next(t, p, Consumes, now, true), Answer(now, Consume(t.rows, p, now).1);
    var row := Bumped(p, Current(t.rows, WindowStart(now, p.window)), PriorBlock(t.rows, now), now);
    ConsumeKeepsTable(t.rows, p, now);
    forall start | start + p.window > now
      ensures RowCount(next.rows, start) == CountIn(next.answers, p.window, start, false)
    {
      UpsertCurrent(t.rows, row, start);
      CountAppend(t.answers, a, p.window, start, false);
    }
    forall start ensures CountIn(next.answers, p.window, start, true) <= p.limit {
      CountAppend(t.answers, a, p.window, start, true);
      CountAppend(t.answers, a, p.window, start, false);
      PermissionsAreAnswers(t.answers, p.window, start);
    }
  }

  lemma {:induction false} RunsLimit(p: Policy, events: seq<(Event, int)>, now: int)
    requires ValidPolicy(p) && Retaining(p) && Ordered(events)
    requires |events| > 0 ==> events[|events| - 1].1 <= now
    ensures Limiting(Run(p, events, true), p, now)
  {
    if |events| > 0 {
      var init, last := events[..|events| - 1], events[|events| - 1];
      RunsLimit(p, init, last.1);
      match last.0 {
        case Consumes => ConsumeKeepsLimiting(Run(p, init, true), p, last.1);
        case Collects(victims) => CollectAlike(Run(p, init, true).rows, p, victims, last.1);
        case _ =>
      }
    }
  }

  function PermittedBetween(answers: seq<Answer>, from: int, to: int): nat {
    if |answers| == 0 then 0
    else
      var last := answers[|answers| - 1];
      PermittedBetween(answers[..|answers| - 1], from, to)
      + if from <= last.at < to && last.decision.allowed then 1 else 0
  }

  /** An interval as long as a window meets at most two of them. */
  lemma {:induction false} TwoWindowsCover(answers: seq<Answer>, window: int, from: int)
    requires window > 0
    ensures PermittedBetween(answers, from, from + window)
         <= CountIn(answers, window, WindowStart(from, window), true)
             + CountIn(answers, window, WindowStart(from, window) + window, true)
  {
    if |answers| > 0 {
      TwoWindowsCover(answers[..|answers| - 1], window, from);
      var at := answers[|answers| - 1].at;
      if from <= at < from + window {
        NeighbouringWindow(from, at, window);
      }
    }
  }

  lemma Scale(a: int, b: int, window: int)
    requires a <= b && window > 0
    ensures a * window <= b * window
  {
  }

  lemma NeighbouringWindow(from: int, at: int, window: int)
    requires window > 0 && from <= at < from + window
    ensures WindowStart(at, window) == WindowStart(from, window)
              || WindowStart(at, window) == WindowStart(from, window) + window
  {
    var d := at / window - from / window;
    assert d * window == WindowStart(at, window) - WindowStart(from, window);
    if d >= 2 {
      Scale(2, d, window);
    } else if d <= -1 {
      Scale(d, -1, window);
    }
  }

  lemma LimitingBounds(t: Trace, p: Policy, now: int, start: int, from: int)
    requires ValidPolicy(p) && Limiting(t, p, now)
    ensures CountIn(t.answers, p.window, start, true) <= p.limit
    ensures PermittedBetween(t.answers, from, from + p.window) <= 2 * p.limit
  {
    TwoWindowsCover(t.answers, p.window, from);
    var first := WindowStart(from, p.window);
    assert CountIn(t.answers, p.window, first, true) <= p.limit;
    assert CountIn(t.answers, p.window, first + p.window, true) <= p.limit;
  }

  /**
   * Between clears, with garbage collection at any moment: each window lets at most the limit through, and any
   * interval of a window's length at most twice the limit.
   */
  lemma AtMostTheLimitPerWindow(p: Policy, events: seq<(Event, int)>, start: int, from: int)
    requires ValidPolicy(p) && Retaining(p) && Ordered(events)
    ensures CountIn(Run(p, events, true).answers, p.window, start, true) <= p.limit
    ensures PermittedBetween(Run(p, events, true).answers, from, from + p.window) <= 2 * p.limit
  {
    var t, now := Run(p, events, true), if |events| > 0 then events[|events| - 1].1 else 0;
    RunsLimit(p, events, now);
    LimitingBounds(t, p, now, start, from);
  }

  predicate Denies(answers: seq<Answer>, until: int) {
    forall a | a in answers :: !a.decision.allowed && a.decision.blockedUntil == Some(until)
  }

  lemma ConsumeKeepsBlock(rows: seq<Bucket>, p: Policy, now: int, until: int)
    requires ValidPolicy(p) && TableOk(rows, p) && PriorBlock(rows, now) == Some(until) && now < until
    ensures var (next, d) := Consume(rows, p, now);
            TableOk(next, p) && PriorBlock(next, now) == Some(until) && !d.allowed && d.blockedUntil == Some(until)
  {
    BlockDeniesAndStays(rows, p, now, until);
    ConsumeKeepsTable(rows, p, now);
  }

  lemma CollectKeepsBlock(rows: seq<Bucket>, p: Policy, victims: set<int>, at: int, now: int, until: int)
    requires TableOk(rows, p) && PriorBlock(rows, at) == Some(until) && at <= now < until
    ensures var next := Collect(rows, victims, now); TableOk(next, p) && PriorBlock(next, now) == Some(until)
  {
    BlockOutlastsCollection(rows, p, victims, at, now, until);
    CollectKeepsTable(rows, p, victims, now);
  }

  lemma BlockHoldsOneStep(t: Trace, p: Policy, e: (Event, int), at: int, until: int)
    requires ValidPolicy(p) && TableOk(t.rows, p) && PriorBlock(t.rows, at) == Some(until) && Denies(t.answers, until)
    requires at <= e.1 < until && !e.0.Clears?
    ensures var next := Next(t, p, e.0, e.1, true);
            TableOk(next.rows, p) && PriorBlock(next.rows, e.1) == Some(until) && Denies(next.answers, until)
  {
    if e.0.Collects? {
      CollectKeepsBlock(t.rows, p, e.0.victims, at, e.1, until);
    } else {
      PriorBlockLater(t.rows, at, e.1);
      if e.0.Consumes? {
        ConsumeKeepsBlock(t.rows, p, e.1, until);
      }
    }
  }

  /**
   * From a request that meets a block until the block ends, no request gets through, however windows change
   * meanwhile.
   */
  lemma {:induction false} NothingPassesABlock(rows: seq<Bucket>, p: Policy, events: seq<(Event, int)>, now: int,
      until: int)
    requires ValidPolicy(p) && TableOk(rows, p) && PriorBlock(rows, now) == Some(until) && Ordered(events)
    requires forall e | e in events :: now <= e.1 < until && !e.0.Clears?
    ensures var final := RunFrom(Trace(rows, []), p, events);
            && TableOk(final.rows, p) && Denies(final.answers, until)
            && PriorBlock(final.rows, if |events| > 0 then events[|events| - 1].1 else now) == Some(until)
  {
    if |events| > 0 {
      var init, last := events[..|events| - 1], events[|events| - 1];
      assert forall e | e in init :: e in events;
      assert last in events;
      NothingPassesABlock(rows, p, init, now, until);
      var at := if |init| > 0 then init[|init| - 1].1 else now;
      BlockHoldsOneStep(RunFrom(Trace(rows, []), p, init), p, last, at, until);
    }
  }

  function RunFrom(t: Trace, p: Policy, events: seq<(Event, int)>): Trace
    requires ValidPolicy(p)
  {
    if |events| == 0 then t
    else
      var last := events[|events| - 1];
      Next(RunFrom(t, p, events[..|events| - 1]), p, last.0, last.1, true)
  }
}

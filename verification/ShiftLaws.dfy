/** When a shift starts and on which terms, when each guard refuses, and what becomes of it, written out. */
module ShiftLaws {
  import opened Agenda
  import opened AgendaLaws
  import opened Schedules
  import opened Shifts
  import opened Wrappers

  // ----- Occurrences as instants -----

  predicate FirstOfDay(schedule: seq<ScheduleItem>, i: nat, day: int) {
    i < |schedule| && FallsOn(schedule[i], day) && forall j | 0 <= j < i :: !FallsOn(schedule[j], day)
  }

  /** The day's first item begins within half an hour of now, and is not over. */
  predicate OnTime(schedule: seq<ScheduleItem>, i: nat, day: int, now: int) {
    && FirstOfDay(schedule, i, day)
    && Instant(Begin(schedule[i], day)) - 1_800_000 <= now <= Instant(Begin(schedule[i], day)) + 1_800_000
    && now < Instant(End(schedule[i], day))
  }

  /** The item of the earliest day on which there is one on time. */
  ghost predicate Regular(schedule: seq<ScheduleItem>, i: nat, day: int, now: int) {
    OnTime(schedule, i, day, now) && forall j: nat, d | d < day :: !OnTime(schedule, j, d, now)
  }

  lemma {:induction false} FirstWritten(schedule: seq<ScheduleItem>, day: int, i: nat)
    ensures FirstOfDay(schedule, i, day) ==> FirstOn(schedule, day) == Some(schedule[i])
    ensures FirstOn(schedule, day).Some? ==> exists k :: FirstOfDay(schedule, k, day)
  {
    if |schedule| > 0 && !OccursOn(schedule[0], day) {
      if FirstOfDay(schedule, i, day) {
        assert FirstOfDay(schedule[1..], i - 1, day);
        FirstWritten(schedule[1..], day, i - 1);
      } else if FirstOn(schedule[1..], day).Some? {
        FirstWritten(schedule[1..], day, 0);
        var k: nat :| FirstOfDay(schedule[1..], k, day);
        assert FirstOfDay(schedule, k + 1, day);
      }
    } else if |schedule| > 0 {
      assert FirstOfDay(schedule, 0, day);
    }
  }

  lemma OccurrenceWritten(schedule: seq<ScheduleItem>, i: nat, day: int)
    requires FirstOfDay(schedule, i, day)
    ensures OccurrenceFor(schedule, day) ==
              Some(Occurrence(day, schedule[i], Instant(Begin(schedule[i], day)), Instant(End(schedule[i], day))))
  {
    FirstWritten(schedule, day, i);
  }

  lemma OnTimeWritten(schedule: seq<ScheduleItem>, day: int, now: int)
    ensures Startable(schedule, day, now, START_TOLERANCE) <==> exists i: nat :: OnTime(schedule, i, day, now)
  {
    FirstWritten(schedule, day, 0);
    if Startable(schedule, day, now, START_TOLERANCE) {
      var i: nat :| FirstOfDay(schedule, i, day);
      OccurrenceWritten(schedule, i, day);
      assert OnTime(schedule, i, day, now);
    }
    if i: nat :| OnTime(schedule, i, day, now) {
      OccurrenceWritten(schedule, i, day);
    }
  }

  lemma NothingOnTimeBefore(schedule: seq<ScheduleItem>, now: int, i: nat, day: int)
    requires ValidSchedule(schedule) && OnTime(schedule, i, day, now)
    ensures var found := FindStartOccurrence(schedule, now, START_TOLERANCE);
            found.Some? && found.value.workDate <= day
  {
    OnTimeWritten(schedule, day, now);
    ThreeDaysAreEnough(schedule, now, START_TOLERANCE);
  }

  lemma FoundIsOnTime(schedule: seq<ScheduleItem>, now: int) returns (i: nat)
    requires ValidSchedule(schedule) && FindStartOccurrence(schedule, now, START_TOLERANCE).Some?
    ensures var found := FindStartOccurrence(schedule, now, START_TOLERANCE).value;
            && OnTime(schedule, i, found.workDate, now)
            && found.startAt == Instant(Begin(schedule[i], found.workDate))
            && found.endAt == Instant(End(schedule[i], found.workDate))
  {
    var day := FindStartOccurrence(schedule, now, START_TOLERANCE).value.workDate;
    ThreeDaysAreEnough(schedule, now, START_TOLERANCE);
    OnTimeWritten(schedule, day, now);
    i :| OnTime(schedule, i, day, now);
    OccurrenceWritten(schedule, i, day);
  }

  /** What the search finds: the first item of the earliest day that is on time. */
  lemma RegularWritten(schedule: seq<ScheduleItem>, now: int)
    requires ValidSchedule(schedule)
    ensures var found := FindStartOccurrence(schedule, now, START_TOLERANCE);
            if found.None? then forall i: nat, day :: !OnTime(schedule, i, day, now)
            else exists i: nat ::
                && Regular(schedule, i, found.value.workDate, now)
                && found.value.startAt == Instant(Begin(schedule[i], found.value.workDate))
                && found.value.endAt == Instant(End(schedule[i], found.value.workDate))
  {
    var found := FindStartOccurrence(schedule, now, START_TOLERANCE);
    forall i: nat, day | OnTime(schedule, i, day, now)
      ensures found.Some? && found.value.workDate <= day
    {
      NothingOnTimeBefore(schedule, now, i, day);
    }
    if found.Some? {
      var i := FoundIsOnTime(schedule, now);
      assert Regular(schedule, i, found.value.workDate, now);
    }
  }

  lemma RegularIsUnique(schedule: seq<ScheduleItem>, i: nat, x: int, j: nat, y: int, now: int)
    requires Regular(schedule, i, x, now) && Regular(schedule, j, y, now)
    ensures i == j && x == y
  {
  }

  // ----- Starting -----

  predicate Granting(permits: seq<Permit>, p: nat, link: nat, now: int) {
    && p < |permits| && permits[p].link == link && permits[p].status == Granted
    && now <= permits[p].until && now < permits[p].endAt
  }

  /** The newest of the permits that may be used. */
  ghost predicate Newest(permits: seq<Permit>, p: nat, link: nat, now: int) {
    Granting(permits, p, link, now) && forall q: nat | q > p :: !Granting(permits, q, link, now)
  }

  /** A shift as an occurrence of the link on time opens it, on the link's terms. */
  ghost predicate OpensOnTime(r: Roster, link: nat, terms: Terms, now: int, s: Shift)
    requires link < |r.links|
  {
    var schedule := r.links[link].schedule;
    exists i: nat ::
      && Regular(schedule, i, s.workDate, now)
      && s == Shift(link, s.workDate, Instant(Begin(schedule[i], s.workDate)), Instant(End(schedule[i], s.workDate)),
                    now, terms, Active, None, None, None)
  }

  /** Without an occurrence on time, a shift as a permit opens it, on the permit's terms. */
  ghost predicate OpensByPermit(r: Roster, link: nat, p: nat, now: int, s: Shift)
    requires link < |r.links|
  {
    && (forall i: nat, day :: !OnTime(r.links[link].schedule, i, day, now))
    && Newest(r.permits, p, link, now)
    && s == Shift(link, r.permits[p].workDate, r.permits[p].startAt, r.permits[p].endAt, now, r.permits[p].terms,
                  Active, None, None, None)
  }

  predicate Expired(r: Roster, link: nat, now: int)
    requires link < |r.links|
  {
    r.links[link].expiresAt.Some? && r.links[link].expiresAt.value <= now
  }

  /** A link that has expired starts only by a permit. */
  ghost predicate Opens(r: Roster, link: nat, terms: Terms, now: int, s: Shift, used: Option<nat>)
    requires link < |r.links|
  {
    match used
    case None =>
      !Expired(r, link, now) && OpensOnTime(r, link, terms, now, s)
    case Some(p) => OpensByPermit(r, link, p, now, s)
  }

  predicate Linked(r: Roster, link: nat) {
    link < |r.links| && r.links[link].status == Confirmed
  }

  predicate MayTry(r: Roster, link: nat, near: bool, poolOrders: bool) {
    Linked(r, link) && |r.links[link].schedule| > 0 && near && !poolOrders
  }

  /** The two windows of neighbouring days share a moment. */
  predicate Crosses(prior: Shift, s: Shift) {
    s.workDate - 1 <= prior.workDate <= s.workDate + 1 && prior.startAt < s.endAt && s.startAt < prior.endAt
  }

  predicate SameDay(prior: Shift, s: Shift) {
    prior.link == s.link && prior.workDate == s.workDate
  }

  /** What the search comes to: the shift that it would insert and the permit that it would use. */
  function Searched(r: Roster, link: nat, terms: Terms, now: int): Option<(Shift, Option<nat>)>
    requires link < |r.links|
  {
    var regular := FindStartOccurrence(r.links[link].schedule, now, START_TOLERANCE);
    var permit := if regular.Some? then None else FindPermit(r.permits, link, now);
    if permit.Some? then
      var p := r.permits[permit.value];
      Some((Shift(link, p.workDate, p.startAt, p.endAt, now, p.terms, Active, None, None, None), permit))
    else if regular.Some? && !IsLinkExpired(r.links[link], now) then
      var o := regular.value;
      Some((Shift(link, o.workDate, o.startAt, o.endAt, now, terms, Active, None, None, None), None))
    else None
  }

  function Inserted(r: Roster, s: Shift, used: Option<nat>): Roster
    requires used.Some? ==> used.value < |r.permits|
  {
    r.(shifts := r.shifts + [s],
        permits := if used.None? then r.permits else r.permits[used.value := r.permits[used.value].(status := Used)])
  }

  predicate Clear(r: Roster, s: Shift) {
    forall i | 0 <= i < |r.shifts| ::
      r.shifts[i].status != Active && !SameDay(r.shifts[i], s) && !Crosses(r.shifts[i], s)
  }

  /** The first reason why a shift may not join the others. */
  ghost function Obstacle(r: Roster, s: Shift): ShiftError {
    if exists i | 0 <= i < |r.shifts| :: Crosses(r.shifts[i], s) then Overlapping
    else if exists i | 0 <= i < |r.shifts| :: SameDay(r.shifts[i], s) then AlreadyStartedThatDay
    else AlreadyActive
  }

  lemma Insertion(r: Roster, link: nat, near: bool, poolOrders: bool, terms: Terms, now: int, s: Shift,
                  used: Option<nat>)
    requires MayTry(r, link, near, poolOrders) && Searched(r, link, terms, now) == Some((s, used))
    ensures used.Some? ==> used.value < |r.permits|
    ensures var result := StartShift(r, link, near, poolOrders, terms, now);
            if Clear(r, s) then result == Ok(Inserted(r, s, used))
            else result == Err(Obstacle(r, s))
  {
  }

  /** The search opens what the calendar and the permits open. */
  lemma OpeningWritten(r: Roster, link: nat, terms: Terms, now: int, s: Shift, used: Option<nat>)
    requires LinksOk(r.links) && link < |r.links|
    ensures Opens(r, link, terms, now, s, used) <==> Searched(r, link, terms, now) == Some((s, used))
  {
    var schedule := r.links[link].schedule;
    assert r.links[link] in r.links;
    RegularWritten(schedule, now);
    var regular := FindStartOccurrence(schedule, now, START_TOLERANCE);
    if regular.Some? {
      var i: nat :| Regular(schedule, i, regular.value.workDate, now)
        && regular.value.startAt == Instant(Begin(schedule[i], regular.value.workDate))
        && regular.value.endAt == Instant(End(schedule[i], regular.value.workDate));
      forall j: nat, y | Regular(schedule, j, y, now) ensures j == i && y == regular.value.workDate {
        RegularIsUnique(schedule, i, regular.value.workDate, j, y, now);
      }
    } else {
      var permit := FindPermit(r.permits, link, now);
      if permit.Some? {
        assert Newest(r.permits, permit.value, link, now);
      }
    }
  }

  predicate Started(r: Roster, s: Shift, used: Option<nat>, next: Roster) {
    && next.links == r.links && next.dailies == r.dailies && next.shifts == r.shifts + [s]
    && |next.permits| == |r.permits|
    && forall p | 0 <= p < |r.permits| ::
         next.permits[p] == if used == Some(p) then r.permits[p].(status := Used) else r.permits[p]
  }

  /** What the search opens, if anything. */
  lemma Opening(r: Roster, link: nat, terms: Terms, now: int) returns (found: Option<(Shift, Option<nat>)>)
    requires LinksOk(r.links) && link < |r.links|
    ensures found.Some? ==> Opens(r, link, terms, now, found.value.0, found.value.1)
    ensures forall s, used | Opens(r, link, terms, now, s, used) :: found == Some((s, used))
    ensures found == Searched(r, link, terms, now)
  {
    found := Searched(r, link, terms, now);
    if found.Some? {
      OpeningWritten(r, link, terms, now, found.value.0, found.value.1);
    }
    forall s, used | Opens(r, link, terms, now, s, used) ensures found == Some((s, used)) {
      OpeningWritten(r, link, terms, now, s, used);
    }
  }

  /** A shift starts as its occurrence or permit opens it, nothing else changes, and the permit is used up. */
  lemma StartsExactly(r: Roster, link: nat, near: bool, poolOrders: bool, terms: Terms, now: int, next: Roster)
    requires LinksOk(r.links)
    ensures StartShift(r, link, near, poolOrders, terms, now) == Ok(next) <==>
            && MayTry(r, link, near, poolOrders)
            && exists s, used :: Opens(r, link, terms, now, s, used) && Clear(r, s) && Started(r, s, used, next)
  {
    if MayTry(r, link, near, poolOrders) {
      var found := Opening(r, link, terms, now);
      if found.Some? {
        var (s, used) := found.value;
        Insertion(r, link, near, poolOrders, terms, now, s, used);
        assert Started(r, s, used, next) <==> next == Inserted(r, s, used) by {
          if Started(r, s, used, next) {
            assert next.permits == Inserted(r, s, used).permits;
          }
        }
      }
    }
  }

  ghost predicate NothingOpens(r: Roster, link: nat, terms: Terms, now: int)
    requires link < |r.links|
  {
    forall s, used :: !Opens(r, link, terms, now, s, used)
  }

  /** Each guard refuses exactly when the ones before it have passed. */
  lemma StartRefusedExactly(r: Roster, link: nat, near: bool, poolOrders: bool, terms: Terms, now: int)
    requires LinksOk(r.links)
    ensures var result := StartShift(r, link, near, poolOrders, terms, now);
            && (result == Err(NoSuchLink) <==> !Linked(r, link))
            && (result == Err(NoSchedule) <==> Linked(r, link) && |r.links[link].schedule| == 0)
            && (result == Err(TooFar) <==> Linked(r, link) && |r.links[link].schedule| > 0 && !near)
            && (result == Err(PoolOrdersOpen) <==>
                  Linked(r, link) && |r.links[link].schedule| > 0 && near && poolOrders)
            && (result == Err(LinkExpired) <==>
                  MayTry(r, link, near, poolOrders) && Expired(r, link, now) && NothingOpens(r, link, terms, now))
            && (result == Err(OutsideStartWindow) <==>
                  MayTry(r, link, near, poolOrders) && !Expired(r, link, now) && NothingOpens(r, link, terms, now))
    ensures forall s, used | MayTry(r, link, near, poolOrders) && Opens(r, link, terms, now, s, used) && !Clear(r, s) ::
              StartShift(r, link, near, poolOrders, terms, now) == Err(Obstacle(r, s))
  {
    if MayTry(r, link, near, poolOrders) {
      var found := Opening(r, link, terms, now);
      if found.Some? {
        Insertion(r, link, near, poolOrders, terms, now, found.value.0, found.value.1);
      }
    }
  }

  // ----- After the start -----

  predicate NobodyWorks(shifts: seq<Shift>) {
    forall i | 0 <= i < |shifts| :: shifts[i].status != Active
  }

  predicate AwaitsTheStore(s: Shift) {
    s.status in {PendingDaily, ReopenAllowed}
  }

  function Settled(s: Shift, decision: Decision): Shift {
    Shift(s.link, s.workDate, s.startAt, s.endAt, s.startedAt, s.terms, Closed, Some(decision), None, None)
  }

  /** A shift that ends awaits the store's decision for 24 hours. */
  function Ended(s: Shift, now: int): Shift {
    Shift(s.link, s.workDate, s.startAt, s.endAt, s.startedAt, s.terms, PendingDaily, Some(Undecided),
          Some(now + 86_400_000), None)
  }

  /** The driver may resume within half an hour, and not after the window. */
  function Offered(s: Shift, now: int): Shift {
    s.(status := ReopenAllowed, reopenUntil := Some(if now + 1_800_000 < s.endAt then now + 1_800_000 else s.endAt))
  }

  /** A shift resumed in time is as it was when it started; one whose offer lapsed awaits the store again. */
  function Resumed(s: Shift, now: int, free: bool): Shift
    requires s.reopenUntil.Some?
  {
    if now > s.reopenUntil.value then s.(status := PendingDaily, reopenUntil := None)
    else if free then Shift(s.link, s.workDate, s.startAt, s.endAt, s.startedAt, s.terms, Active, None, None, None)
    else s
  }

  /** What each step makes of a shift that was started before. */
  function ShiftAfter(r: Roster, step: Shifts.Step, now: int, k: nat): Shift
    requires k < |r.shifts| && (forall s | s in r.shifts :: Consistent(s))
  {
    var s := r.shifts[k];
    assert s in r.shifts && Consistent(s);
    match step
    case ChangesTerms(j, terms) => if j == k && s.status == Active then s.(terms := terms) else s
    case Ends(j, unfinished) => if j == k && s.status == Active && !unfinished then Ended(s, now) else s
    case Releases(j, unfinished) => if j == k && s.status == Active && !unfinished then Settled(s, Approved) else s
    case Decides(j, approve, reasonGiven) =>
      if j != k || !AwaitsTheStore(s) then s
      else if approve then Settled(s, Approved)
      else if reasonGiven then Settled(s, Refused)
      else s
    case Reopens(j) =>
      if j == k && s.status == PendingDaily && Linked(r, s.link) && now < s.endAt then Offered(s, now) else s
    case Reactivates(j) =>
      if j == k && s.status == ReopenAllowed then Resumed(s, now, NobodyWorks(r.shifts)) else s
    case Sweeps => if AwaitsTheStore(s) && s.autoApproveAt.value <= now then Settled(s, Approved) else s
    case _ => s
  }

  lemma ShiftsChangeExactly(r: Roster, step: Shifts.Step, now: int, k: nat)
    requires k < |r.shifts| && (forall s | s in r.shifts :: Consistent(s))
    ensures k < |Shifts.Next(r, step, now).shifts| && Shifts.Next(r, step, now).shifts[k] == ShiftAfter(r, step, now, k)
  {
    assert r.shifts[k] in r.shifts && Consistent(r.shifts[k]);
    match step
    case Ends(_, _) =>
    case Releases(_, _) =>
    case Decides(_, _, _) =>
    case Reopens(_) =>
    case Reactivates(_) =>
    case _ =>
  }

  // ----- Refusals -----

  function ErrorOf<T>(result: Result<T, ShiftError>): Option<ShiftError> {
    if result.Err? then Some(result.error) else None
  }

  /** Why a step on a shift that was started is refused. */
  lemma StepsRefusedExactly(r: Roster, k: nat, unfinished: bool, approve: bool, reasonGiven: bool, terms: Terms,
                            now: int)
    requires forall s | s in r.shifts :: Consistent(s)
    ensures var s := if k < |r.shifts| then Some(r.shifts[k]) else None;
            var ending := if s.None? || s.value.status != Active then Some(NoSuchShift)
                          else if unfinished then Some(OrdersUnfinished) else None;
            && ErrorOf(EndShift(r, k, unfinished, now)) == ending
            && ErrorOf(ReleaseShift(r, k, unfinished)) == ending
            && ErrorOf(ChangeTerms(r, k, terms)) ==
                 (if s.None? || s.value.status != Active then Some(NoSuchShift) else None)
            && ErrorOf(DecideDaily(r, k, approve, reasonGiven)) ==
                 (if !(approve || reasonGiven) then Some(ReasonMissing)
                  else if s.None? || !AwaitsTheStore(s.value) then Some(NoSuchShift) else None)
            && ErrorOf(OfferReactivation(r, k, now)) ==
                 (if s.None? || s.value.status != PendingDaily then Some(NoSuchShift)
                  else if !Linked(r, s.value.link) then Some(LinkNotConfirmed)
                  else if s.value.endAt <= now then Some(WindowOver) else None)
            && Reactivate(r, k, now).1 ==
                 (if s.None? || s.value.status != ReopenAllowed then Some(NoSuchShift)
                  else if s.value.reopenUntil.Some? && s.value.reopenUntil.value < now then Some(ReopenLapsed)
                  else if !NobodyWorks(r.shifts) then Some(AlreadyActive) else None)
  {
    if k < |r.shifts| {
      assert r.shifts[k] in r.shifts && Consistent(r.shifts[k]);
    }
  }

  /** A transaction takes effect as a whole, or is refused and leaves everything as it was. */
  predicate TakesEffect(result: Result<Roster, ShiftError>, r: Roster, next: Roster) {
    match result
    case Ok(value) => next == value
    case Err(_) => next == r
  }

  lemma StartsTakeEffect(r: Roster, link: nat, near: bool, poolOrders: bool, terms: Terms, now: int)
    ensures TakesEffect(StartShift(r, link, near, poolOrders, terms, now), r,
                        Shifts.Next(r, Starts(link, near, poolOrders, terms), now))
  {
  }
}

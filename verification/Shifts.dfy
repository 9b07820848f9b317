/** One driver's shifts, the permits to start one late, and the daily payments that follow. */
module Shifts {
  import opened Agenda
  import opened Schedules
  import opened Wrappers

  const START_TOLERANCE := 30
  const REOPEN_MS := 30 * MINUTE_MS
  const AUTO_APPROVE_MS := 24 * 60 * MINUTE_MS

  datatype Terms = Terms(daily: nat, perDelivery: nat)

  datatype ShiftStatus = Active | PendingDaily | ReopenAllowed | Closed

  datatype Decision = Undecided | Approved | Refused

  datatype Shift = Shift(
    link: nat, workDate: int, startAt: int, endAt: int, startedAt: int, terms: Terms,
    status: ShiftStatus, decision: Option<Decision>, autoApproveAt: Option<int>, reopenUntil: Option<int>
  )

  datatype PermitStatus = Requested | Granted | Declined | Withdrawn | Used

  datatype Permit = Permit(
    link: nat, workDate: int, until: int, startAt: int, endAt: int, terms: Terms, status: PermitStatus
  )

  /** `dailies` holds what the ledger pays for a whole shift, by shift. */
  datatype Roster = Roster(links: seq<Link>, permits: seq<Permit>, shifts: seq<Shift>, dailies: map<nat, nat>)

  datatype ShiftError =
    | NoSuchLink
    | NoSchedule
    | TooFar
    | PoolOrdersOpen
    | LinkExpired
    | OutsideStartWindow
    | Overlapping
    | AlreadyStartedThatDay
    | AlreadyActive
    | NoSuchShift
    | OrdersUnfinished
    | ReasonMissing
    | LinkNotConfirmed
    | WindowOver
    | ReopenLapsed
    | NoOccurrence
    | PermitNotNeeded
    | LimitInThePast
    | LimitAfterTheEnd
    | LongerThanADay
    | PermitConflict
    | PermitAlreadyOpen
    | NoSuchPermit
    | PermitExpired

  // ----- Starting -----

  predicate Usable(p: Permit, link: nat, now: int) {
    p.link == link && p.status.Granted? && now <= p.until && now < p.endAt
  }

  /** The newest permit that may be used now. */
  function FindPermit(permits: seq<Permit>, link: nat, now: int): (r: Option<nat>)
    ensures r.Some? ==> r.value < |permits| && Usable(permits[r.value], link, now)
    ensures r.Some? ==> forall i | r.value < i < |permits| :: !Usable(permits[i], link, now)
    ensures r.None? ==> forall i | 0 <= i < |permits| :: !Usable(permits[i], link, now)
  {
    if |permits| == 0 then None
    else if Usable(permits[|permits| - 1], link, now) then Some(|permits| - 1)
    else FindPermit(permits[..|permits| - 1], link, now)
  }

  predicate Meets(s: Shift, startAt: int, endAt: int) {
    s.startAt < endAt && startAt < s.endAt
  }

  /** Only shifts of the neighbouring work dates are looked at. */
  predicate OverlapsPrior(shifts: seq<Shift>, workDate: int, startAt: int, endAt: int) {
    exists i | 0 <= i < |shifts| ::
      workDate - 1 <= shifts[i].workDate <= workDate + 1 && Meets(shifts[i], startAt, endAt)
  }

  function StartShift(r: Roster, link: nat, near: bool, poolOrders: bool, terms: Terms, now: int)
    : Result<Roster, ShiftError>
  {
    if link >= |r.links| || !r.links[link].status.Confirmed? then Err(NoSuchLink)
    else if |r.links[link].schedule| == 0 then Err(NoSchedule)
    else if !near then Err(TooFar)
    else if poolOrders then Err(PoolOrdersOpen)
    else
      var regular := FindStartOccurrence(r.links[link].schedule, now, START_TOLERANCE);
      var permit := if regular.Some? then None else FindPermit(r.permits, link, now);
      if IsLinkExpired(r.links[link], now) && permit.None? then Err(LinkExpired)
      else if regular.None? && permit.None? then Err(OutsideStartWindow)
      else
        var shift :=
          if permit.Some? then
            var p := r.permits[permit.value];
            Shift(link, p.workDate, p.startAt, p.endAt, now, p.terms, Active, None, None, None)
          else
            Shift(link, regular.value.workDate, regular.value.startAt, regular.value.endAt, now, terms, Active, None,
                None, None);
        if OverlapsPrior(r.shifts, shift.workDate, shift.startAt, shift.endAt) then Err(Overlapping)
        else if exists i | 0 <= i < |r.shifts| ::
            r.shifts[i].link == link && r.shifts[i].workDate == shift.workDate then
          Err(AlreadyStartedThatDay)
        else if exists i | 0 <= i < |r.shifts| :: r.shifts[i].status.Active? then Err(AlreadyActive)
        else
          var permits := if permit.None? then r.permits
                         else r.permits[permit.value := r.permits[permit.value].(status := Used)];
          Ok(r.(shifts := r.shifts + [shift], permits := permits))
  }

  // ----- Ending and paying -----

  /** The ledger refuses a second entry for the same shift. */
  function RecordDaily(dailies: map<nat, nat>, k: nat, rate: nat): map<nat, nat> {
    if rate == 0 || k in dailies then dailies else dailies[k := rate]
  }

  function Decided(s: Shift, decision: Decision): Shift {
    s.(status := Closed, decision := Some(decision), autoApproveAt := None, reopenUntil := None)
  }

  function Approve(r: Roster, k: nat): Roster
    requires k < |r.shifts|
  {
    r.(shifts := r.shifts[k := Decided(r.shifts[k], Approved)],
        dailies := RecordDaily(r.dailies, k, r.shifts[k].terms.daily))
  }

  predicate Awaiting(s: Shift) {
    (s.status.PendingDaily? || s.status.ReopenAllowed?) && s.decision == Some(Undecided)
  }

  function EndShift(r: Roster, k: nat, unfinished: bool, now: int): Result<Roster, ShiftError> {
    if k >= |r.shifts| || !r.shifts[k].status.Active? then Err(NoSuchShift)
    else if unfinished then Err(OrdersUnfinished)
    else Ok(r.(shifts := r.shifts[k := r.shifts[k].(status := PendingDaily, decision := Some(Undecided),
                                                    autoApproveAt := Some(now + AUTO_APPROVE_MS),
                                                    reopenUntil := None)]))
  }

  function ReleaseShift(r: Roster, k: nat, unfinished: bool): Result<Roster, ShiftError> {
    if k >= |r.shifts| || !r.shifts[k].status.Active? then Err(NoSuchShift)
    else if unfinished then Err(OrdersUnfinished)
    else Ok(Approve(r, k))
  }

  function DecideDaily(r: Roster, k: nat, approve: bool, reasonGiven: bool): Result<Roster, ShiftError> {
    if !approve && !reasonGiven then Err(ReasonMissing)
    else if k >= |r.shifts| || !Awaiting(r.shifts[k]) then Err(NoSuchShift)
    else if approve then Ok(Approve(r, k))
    else Ok(r.(shifts := r.shifts[k := Decided(r.shifts[k], Refused)]))
  }

  function OfferReactivation(r: Roster, k: nat, now: int): Result<Roster, ShiftError> {
    if k >= |r.shifts| || !r.shifts[k].status.PendingDaily? || r.shifts[k].decision != Some(Undecided) then
      Err(NoSuchShift)
    else if r.shifts[k].link >= |r.links| || !r.links[r.shifts[k].link].status.Confirmed? then Err(LinkNotConfirmed)
    else if now >= r.shifts[k].endAt then Err(WindowOver)
    else
      var reopenUntil := if now + REOPEN_MS <= r.shifts[k].endAt then now + REOPEN_MS else r.shifts[k].endAt;
      Ok(r.(shifts := r.shifts[k := r.shifts[k].(status := ReopenAllowed, reopenUntil := Some(reopenUntil))]))
  }

  /** A lapsed offer is taken back, which is committed although the driver is told that it failed. */
  function Reactivate(r: Roster, k: nat, now: int): (Roster, Option<ShiftError>) {
    if k >= |r.shifts| || !r.shifts[k].status.ReopenAllowed? || r.shifts[k].decision != Some(Undecided) then
      (r, Some(NoSuchShift))
    else if r.shifts[k].reopenUntil.None? || now > r.shifts[k].reopenUntil.value then
      (r.(shifts := r.shifts[k := r.shifts[k].(status := PendingDaily, reopenUntil := None)]), Some(ReopenLapsed))
    else if exists i | 0 <= i < |r.shifts| :: r.shifts[i].status.Active? then (r, Some(AlreadyActive))
    else
      (r.(shifts := r.shifts[k := r.shifts[k].(status := Active, decision := None, autoApproveAt := None,
          reopenUntil := None)]),
       None)
  }

  predicate Overdue(s: Shift, now: int) {
    Awaiting(s) && s.autoApproveAt.Some? && s.autoApproveAt.value <= now
  }

  function OverdueShifts(shifts: seq<Shift>, now: int): (ids: seq<nat>)
    ensures forall k | k in ids :: k < |shifts| && Overdue(shifts[k], now)
    ensures forall k | 0 <= k < |shifts| && Overdue(shifts[k], now) :: k in ids
    ensures forall i, j | 0 <= i < j < |ids| :: ids[i] < ids[j]
  {
    if |shifts| == 0 then []
    else
      var last := |shifts| - 1;
      var earlier := OverdueShifts(shifts[..last], now);
      assert forall i | 0 <= i < |earlier| :: earlier[i] in earlier;
      if Overdue(shifts[last], now) then earlier + [last] else earlier
  }

  predicate Within(ids: seq<nat>, count: nat) {
    forall k | k in ids :: k < count
  }

  function ApproveAll(r: Roster, ids: seq<nat>): (next: Roster)
    requires Within(ids, |r.shifts|)
    ensures |next.shifts| == |r.shifts|
    ensures forall k | 0 <= k < |r.shifts| ::
              next.shifts[k] == if k in ids then Decided(r.shifts[k], Approved) else r.shifts[k]
    ensures next.links == r.links && next.permits == r.permits
  {
    if |ids| == 0 then r
    else
      var init := ids[..|ids| - 1];
      assert forall k | k in init :: k in ids;
      assert ids[|ids| - 1] in ids;
      Approve(ApproveAll(r, init), ids[|ids| - 1])
  }

  function AutoApprove(r: Roster, now: int): Roster {
    ApproveAll(r, OverdueShifts(r.shifts, now))
  }

  /** A candidate is still overdue when its turn comes, and approving it is the next step of approving all. */
  lemma NextCandidate(r: Roster, now: int, ids: seq<nat>, i: nat)
    requires ids == OverdueShifts(r.shifts, now) && i < |ids|
    ensures Within(ids[..i], |r.shifts|) && Within(ids[..i + 1], |r.shifts|) && ids[i] < |r.shifts|
    ensures Overdue(ApproveAll(r, ids[..i]).shifts[ids[i]], now)
    ensures ApproveAll(r, ids[..i + 1]) == Approve(ApproveAll(r, ids[..i]), ids[i])
  {
    assert ids[i] in ids && ids[i] !in ids[..i];
    assert ids[..i + 1][..i] == ids[..i];
  }

  /** Accepted new terms of a running shift. */
  function ChangeTerms(r: Roster, k: nat, terms: Terms): Result<Roster, ShiftError> {
    if k >= |r.shifts| || !r.shifts[k].status.Active? then Err(NoSuchShift)
    else Ok(r.(shifts := r.shifts[k := r.shifts[k].(terms := terms)]))
  }

  // ----- Permits -----

  function EndFor(workDate: int, start: int, end: int): int {
    InstantOn(if end <= start then workDate + 1 else workDate, end)
  }

  /** The local time of day of an instant, in minutes. */
  function TimeOf(instant: int): int {
    (instant - UTC_OFFSET_MS) / MINUTE_MS % DAY
  }

  function PermitItem(p: Permit): ScheduleItem {
    Dated(p.workDate, TimeOf(p.startAt), TimeOf(p.endAt))
  }

  predicate Open(p: Permit) {
    p.status.Requested? || p.status.Granted?
  }

  function GrantedItems(permits: seq<Permit>, except: nat, now: int): seq<ScheduleItem> {
    if |permits| == 0 then []
    else
      var last := permits[|permits| - 1];
      GrantedItems(permits[..|permits| - 1], except, now)
      + if last.link != except && last.status.Granted? && last.until > now then [PermitItem(last)] else []
  }

  /** The link's other items: all but the first that occurs on the day. */
  function OtherItems(schedule: seq<ScheduleItem>, day: int): seq<ScheduleItem> {
    if |schedule| == 0 then []
    else if OccursOn(schedule[0], day) then schedule[1..]
    else [schedule[0]] + OtherItems(schedule[1..], day)
  }

  predicate PermitFits(r: Roster, link: nat, workDate: int, item: ScheduleItem, now: int)
    requires link < |r.links|
  {
    !SchedulesConflict(ActiveSchedule(r.links, now, Some(link)) + GrantedItems(r.permits, link, now)
                       + OtherItems(r.links[link].schedule, workDate), [item])
  }

  function LapsePermits(permits: seq<Permit>, link: nat, workDate: int, now: int): (next: seq<Permit>)
    ensures |next| == |permits|
    ensures forall i | 0 <= i < |permits| ::
              next[i] == if permits[i].link == link && permits[i].workDate == workDate && Open(permits[i])
                  && permits[i].until <= now
                         then permits[i].(status := Withdrawn) else permits[i]
  {
    seq(|permits|, i requires 0 <= i < |permits| =>
      if permits[i].link == link && permits[i].workDate == workDate && Open(permits[i]) && permits[i].until <= now
      then permits[i].(status := Withdrawn) else permits[i])
  }

  function CreatePermit(r: Roster, link: nat, workDate: int, until: int, newEnd: Option<int>, terms: Terms, now: int)
    : Result<Roster, ShiftError>
  {
    if link >= |r.links| || !r.links[link].status.Confirmed? then Err(NoSuchLink)
    else if IsLinkExpired(r.links[link], now) then Err(LinkExpired)
    else
      var occurrence := OccurrenceFor(r.links[link].schedule, workDate);
      if occurrence.None? then Err(NoOccurrence)
      else
        var o := occurrence.value;
        if now <= o.startAt + START_TOLERANCE * MINUTE_MS then Err(PermitNotNeeded)
        else
          var endAt := if newEnd.Some? then EndFor(workDate, o.item.start, newEnd.value) else o.endAt;
          if until <= now then Err(LimitInThePast)
          else if until >= endAt then Err(LimitAfterTheEnd)
          else if endAt - o.startAt > DAY_MS then Err(LongerThanADay)
          else if !PermitFits(r, link, workDate,
              Dated(workDate, o.item.start, if newEnd.Some? then newEnd.value else o.item.end), now) then
            Err(PermitConflict)
          else
            var permits := LapsePermits(r.permits, link, workDate, now);
            if exists i | 0 <= i < |permits| ::
                permits[i].link == link && permits[i].workDate == workDate && Open(permits[i]) then
              Err(PermitAlreadyOpen)
            else
              Ok(r.(permits := permits + [Permit(link, workDate, until, o.startAt, endAt, terms, Requested)]))
  }

  function DecidePermit(r: Roster, p: nat, accept: bool, now: int): Result<Roster, ShiftError> {
    if p >= |r.permits| || !r.permits[p].status.Requested? then Err(NoSuchPermit)
    else
      var permit := r.permits[p];
      if !accept then Ok(r.(permits := r.permits[p := permit.(status := Declined)]))
      else if now >= permit.until || now >= permit.endAt then Err(PermitExpired)
      else if permit.link >= |r.links| then Err(NoSuchLink)
      else if OccurrenceFor(r.links[permit.link].schedule, permit.workDate).None? then Err(NoOccurrence)
      else if !PermitFits(r, permit.link, permit.workDate, PermitItem(permit), now) then Err(PermitConflict)
      else
        var link := r.links[permit.link];
        var extended := if link.expiresAt.Some? && permit.endAt > link.expiresAt.value then
            link.(expiresAt := Some(permit.endAt))
                        else link;
        Ok(r.(links := r.links[permit.link := extended], permits := r.permits[p := permit.(status := Granted)]))
  }

  function LatestGranted(permits: seq<Permit>, link: nat, latest: int): int {
    if |permits| == 0 then latest
    else
      var p := permits[|permits| - 1];
      var rest := LatestGranted(permits[..|permits| - 1], link, latest);
      if p.link == link && p.status.Granted? && p.endAt > rest then p.endAt else rest
  }

  function CancelPermit(r: Roster, p: nat): Result<Roster, ShiftError> {
    if p >= |r.permits| || !Open(r.permits[p]) || r.permits[p].link >= |r.links| then Err(NoSuchPermit)
    else
      var link := r.permits[p].link;
      var permits := r.permits[p := r.permits[p].(status := Withdrawn)];
      var expiry := DatedExpiry(r.links[link].schedule);
      var expiresAt := if expiry.None? then None else Some(LatestGranted(permits, link, expiry.value));
      Ok(r.(links := r.links[link := r.links[link].(expiresAt := expiresAt)], permits := permits))
  }

  // ----- What holds of every roster -----

  /** A window opens on its work date, local time, and lasts at most a day. */
  predicate WindowOf(workDate: int, startAt: int, endAt: int) {
    InstantOn(workDate, 0) <= startAt < InstantOn(workDate + 1, 0) && startAt < endAt <= startAt + DAY_MS
  }

  predicate Covers(s: Shift, moment: int) {
    s.startAt <= moment < s.endAt
  }

  ghost predicate Disjoint(shifts: seq<Shift>) {
    forall i, j | 0 <= i < j < |shifts| :: !Meets(shifts[i], shifts[j].startAt, shifts[j].endAt)
  }

  ghost predicate OneActive(shifts: seq<Shift>) {
    forall i, j | 0 <= i < j < |shifts| :: !(shifts[i].status.Active? && shifts[j].status.Active?)
  }

  ghost predicate OncePerDay(shifts: seq<Shift>) {
    forall i, j | 0 <= i < j < |shifts| :: (shifts[i].link, shifts[i].workDate) != (shifts[j].link, shifts[j].workDate)
  }

  ghost predicate PermitOk(p: Permit, now: int) {
    WindowOf(p.workDate, p.startAt, p.endAt) && p.until < p.endAt && p.startAt + START_TOLERANCE * MINUTE_MS < now
  }

  ghost predicate PermitsOk(permits: seq<Permit>, now: int) {
    && (forall p | p in permits :: PermitOk(p, now))
    && (forall i, j | 0 <= i < j < |permits| && Open(permits[i]) && Open(permits[j]) ::
          (permits[i].link, permits[i].workDate) != (permits[j].link, permits[j].workDate))
  }

  /** How status, decision and deadlines of a shift go together. */
  predicate Consistent(s: Shift) {
    && WindowOf(s.workDate, s.startAt, s.endAt)
    && s.startAt - START_TOLERANCE * MINUTE_MS <= s.startedAt < s.endAt
    && match s.status
       case Active => s.decision.None? && s.autoApproveAt.None? && s.reopenUntil.None?
       case PendingDaily => s.decision == Some(Undecided) && s.autoApproveAt.Some? && s.reopenUntil.None?
       case ReopenAllowed =>
         s.decision == Some(Undecided) && s.autoApproveAt.Some? && s.reopenUntil.Some? && s.reopenUntil.value <= s.endAt
       case Closed =>
         (s.decision == Some(Approved) || s.decision == Some(Refused)) && s.autoApproveAt.None? && s.reopenUntil.None?
  }

  predicate EarnsDaily(s: Shift) {
    s.status.Closed? && s.decision == Some(Approved) && s.terms.daily > 0
  }

  /** The daily is paid for exactly the approved shifts, once, at the rate that the shift ended with. */
  ghost predicate DailiesMatch(shifts: seq<Shift>, dailies: map<nat, nat>) {
    && (forall k: nat :: k in dailies <==> k < |shifts| && EarnsDaily(shifts[k]))
    && (forall k | k in dailies :: dailies[k] == shifts[k].terms.daily)
  }

  ghost predicate LinksOk(links: seq<Link>) {
    forall l | l in links :: ValidSchedule(l.schedule)
  }

  ghost predicate Orderly(r: Roster, now: int) {
    && LinksOk(r.links)
    && PermitsOk(r.permits, now)
    && (forall s | s in r.shifts :: Consistent(s))
    && Disjoint(r.shifts)
    && OneActive(r.shifts)
    && OncePerDay(r.shifts)
    && DailiesMatch(r.shifts, r.dailies)
  }

  lemma OccurrenceWindow(schedule: seq<ScheduleItem>, workDate: int)
    requires ValidSchedule(schedule) && OccurrenceFor(schedule, workDate).Some?
    ensures var o := OccurrenceFor(schedule, workDate).value;
            o.workDate == workDate && WindowOf(workDate, o.startAt, o.endAt)
            && o.startAt == InstantOn(workDate, o.item.start) && ValidItem(o.item)
  {
  }

  /**
   * The limit of 24 hours on an extended occurrence can never be exceeded: whatever end is asked for lies within
   * it.
   */
  lemma NeverLongerThanADay(r: Roster, link: nat, workDate: int, until: int, newEnd: Option<int>, terms: Terms,
      now: int)
    requires LinksOk(r.links) && (newEnd.Some? ==> 0 <= newEnd.value < DAY)
    ensures CreatePermit(r, link, workDate, until, newEnd, terms, now) != Err(LongerThanADay)
  {
    if link < |r.links| {
      assert r.links[link] in r.links;
      if OccurrenceFor(r.links[link].schedule, workDate).Some? {
        OccurrenceWindow(r.links[link].schedule, workDate);
      }
    }
  }

  /** A permit written back as an agenda item covers exactly its window, to the minute. */
  lemma PermitItemRoundTrip(p: Permit)
    requires WindowOf(p.workDate, p.startAt, p.endAt)
    requires (p.startAt - UTC_OFFSET_MS) % MINUTE_MS == 0 && (p.endAt - UTC_OFFSET_MS) % MINUTE_MS == 0
    ensures ValidItem(PermitItem(p))
    ensures var w := WindowOn(p.workDate, PermitItem(p));
            p.startAt == w.from * MINUTE_MS + UTC_OFFSET_MS && p.endAt == w.to * MINUTE_MS + UTC_OFFSET_MS
  {
    var from, to := (p.startAt - UTC_OFFSET_MS) / MINUTE_MS, (p.endAt - UTC_OFFSET_MS) / MINUTE_MS;
    assert p.workDate * DAY <= from < (p.workDate + 1) * DAY && from < to <= from + DAY;
    MinuteOfDay(from, p.workDate);
    var days := if to < (p.workDate + 1) * DAY then 0 else if to < (p.workDate + 2) * DAY then 1 else 2;
    MinuteOfDay(to, p.workDate + days);
  }

  lemma MinuteOfDay(minute: int, day: int)
    requires day * DAY <= minute < (day + 1) * DAY
    ensures minute % DAY == minute - day * DAY
  {
  }

  /** Work dates two or more apart cannot share a moment, so the neighbours are all that must be read. */
  lemma FarShiftsNeverMeet(s: Shift, workDate: int, startAt: int, endAt: int)
    requires Consistent(s) && WindowOf(workDate, startAt, endAt)
    requires s.workDate < workDate - 1 || s.workDate > workDate + 1
    ensures !Meets(s, startAt, endAt)
  {
  }

  lemma StartedShiftIsDisjoint(shifts: seq<Shift>, s: Shift)
    requires Disjoint(shifts) && (forall x | x in shifts :: Consistent(x))
    requires WindowOf(s.workDate, s.startAt, s.endAt) && !OverlapsPrior(shifts, s.workDate, s.startAt, s.endAt)
    ensures Disjoint(shifts + [s])
  {
    forall i | 0 <= i < |shifts| ensures !Meets(shifts[i], s.startAt, s.endAt) {
      assert Consistent(shifts[i]);
      if shifts[i].workDate < s.workDate - 1 || shifts[i].workDate > s.workDate + 1 {
        FarShiftsNeverMeet(shifts[i], s.workDate, s.startAt, s.endAt);
      }
    }
  }

  /** A started shift takes its window from the agenda or from a permit. */
  lemma StartedShiftIsConsistent(r: Roster, link: nat, near: bool, poolOrders: bool, terms: Terms, now: int)
    requires LinksOk(r.links) && PermitsOk(r.permits, now) && StartShift(r, link, near, poolOrders, terms, now).Ok?
    ensures var next := StartShift(r, link, near, poolOrders, terms, now).value;
            Consistent(next.shifts[|r.shifts|]) && PermitsOk(next.permits, now)
  {
    var schedule := r.links[link].schedule;
    assert r.links[link] in r.links;
    var regular := FindStartOccurrence(schedule, now, START_TOLERANCE);
    if regular.Some? {
      OccurrenceWindow(schedule, regular.value.workDate);
      ThreeDaysAreEnough(schedule, now, START_TOLERANCE);
    } else {
      var permit := FindPermit(r.permits, link, now).value;
      assert r.permits[permit] in r.permits;
      assert PermitOk(r.permits[permit], now);
      PermitUpdate(r.permits, permit, Used, now);
    }
  }

  lemma AppendKeepsOrder(r: Roster, s: Shift, now: int)
    requires Orderly(r, now) && Consistent(s) && s.status.Active?
    requires !OverlapsPrior(r.shifts, s.workDate, s.startAt, s.endAt)
    requires forall i | 0 <= i < |r.shifts| :: r.shifts[i].link != s.link || r.shifts[i].workDate != s.workDate
    requires forall i | 0 <= i < |r.shifts| :: !r.shifts[i].status.Active?
    ensures Orderly(r.(shifts := r.shifts + [s]), now)
  {
    StartedShiftIsDisjoint(r.shifts, s);
  }

  lemma StartKeepsOrder(r: Roster, link: nat, near: bool, poolOrders: bool, terms: Terms, now: int)
    requires Orderly(r, now) && StartShift(r, link, near, poolOrders, terms, now).Ok?
    ensures Orderly(StartShift(r, link, near, poolOrders, terms, now).value, now)
  {
    var next := StartShift(r, link, near, poolOrders, terms, now).value;
    StartedShiftIsConsistent(r, link, near, poolOrders, terms, now);
    AppendKeepsOrder(r, next.shifts[|r.shifts|], now);
    PermitChangeKeepsOrder(r.(shifts := next.shifts), r.links, next.permits, now);
  }

  /** Changing one shift but not its identity, its window or the number of active ones. */
  lemma UpdateKeepsOrder(r: Roster, k: nat, s: Shift, dailies: map<nat, nat>, now: int)
    requires Orderly(r, now) && k < |r.shifts|
    requires s.link == r.shifts[k].link && s.workDate == r.shifts[k].workDate
    requires s.startAt == r.shifts[k].startAt && s.endAt == r.shifts[k].endAt && Consistent(s)
    requires s.status.Active? ==> forall i | 0 <= i < |r.shifts| && i != k :: !r.shifts[i].status.Active?
    requires DailiesMatch(r.shifts[k := s], dailies)
    ensures Orderly(r.(shifts := r.shifts[k := s], dailies := dailies), now)
  {
  }

  lemma ApproveKeepsOrder(r: Roster, k: nat, now: int)
    requires Orderly(r, now) && k < |r.shifts| && !r.shifts[k].status.Closed?
    ensures Orderly(Approve(r, k), now)
  {
    assert r.shifts[k] in r.shifts;
    UpdateKeepsOrder(r, k, Decided(r.shifts[k], Approved), RecordDaily(r.dailies, k, r.shifts[k].terms.daily), now);
  }

  lemma {:induction false} ApproveAllKeepsOrder(r: Roster, ids: seq<nat>, now: int)
    requires Orderly(r, now) && forall k | k in ids :: k < |r.shifts| && !r.shifts[k].status.Closed?
    requires forall i, j | 0 <= i < j < |ids| :: ids[i] != ids[j]
    ensures Orderly(ApproveAll(r, ids), now)
  {
    if |ids| > 0 {
      var init, last := ids[..|ids| - 1], ids[|ids| - 1];
      assert forall k | k in init :: k in ids;
      ApproveAllKeepsOrder(r, init, now);
      assert ids == init + [last];
      assert last in ids && last !in init;
      ApproveKeepsOrder(ApproveAll(r, init), last, now);
    }
  }

  lemma PermitChangeKeepsOrder(r: Roster, links: seq<Link>, permits: seq<Permit>, now: int)
    requires Orderly(r, now) && LinksOk(links) && PermitsOk(permits, now)
    ensures Orderly(r.(links := links, permits := permits), now)
  {
  }

  /** Closing an open permit keeps the rest. */
  lemma PermitUpdate(permits: seq<Permit>, p: nat, status: PermitStatus, now: int)
    requires PermitsOk(permits, now) && p < |permits|
    requires Open(permits[p].(status := status)) ==> Open(permits[p])
    ensures PermitsOk(permits[p := permits[p].(status := status)], now)
  {
    var next := permits[p := permits[p].(status := status)];
    forall x | x in next ensures PermitOk(x, now) {
      assert permits[p] in permits;
    }
  }

  lemma CreatedPermitKeepsOrder(r: Roster, link: nat, workDate: int, until: int, newEnd: Option<int>, terms: Terms,
      now: int)
    requires Orderly(r, now) && (newEnd.Some? ==> 0 <= newEnd.value < DAY)
    requires CreatePermit(r, link, workDate, until, newEnd, terms, now).Ok?
    ensures Orderly(CreatePermit(r, link, workDate, until, newEnd, terms, now).value, now)
  {
    assert r.links[link] in r.links;
    OccurrenceWindow(r.links[link].schedule, workDate);
    var lapsed := LapsePermits(r.permits, link, workDate, now);
    var next := CreatePermit(r, link, workDate, until, newEnd, terms, now).value;
    forall i | 0 <= i < |lapsed| ensures PermitOk(lapsed[i], now) {
      assert r.permits[i] in r.permits;
    }
    forall x | x in next.permits ensures PermitOk(x, now) {
      var i :| 0 <= i < |next.permits| && next.permits[i] == x;
      if i < |lapsed| {
        assert PermitOk(lapsed[i], now);
      }
    }
    PermitChangeKeepsOrder(r, r.links, next.permits, now);
  }

  // ----- Runs -----

  datatype Step =
    | ChangesLinks(links: seq<Link>)
    | AsksPermit(link: nat, workDate: int, until: int, newEnd: Option<int>, offered: Terms)
    | DecidesPermit(permit: nat, accept: bool)
    | CancelsPermit(permit: nat)
    | Starts(link: nat, near: bool, poolOrders: bool, linkTerms: Terms)
    | ChangesTerms(shift: nat, terms: Terms)
    | Ends(shift: nat, unfinished: bool)
    | Releases(shift: nat, unfinished: bool)
    | Decides(shift: nat, approve: bool, reasonGiven: bool)
    | Reopens(shift: nat)
    | Reactivates(shift: nat)
    | Sweeps

  function OrSame(result: Result<Roster, ShiftError>, r: Roster): Roster {
    if result.Ok? then result.value else r
  }

  function Next(r: Roster, step: Step, now: int): Roster {
    match step
    case ChangesLinks(links) => r.(links := links)
    case AsksPermit(link, workDate, until, newEnd, terms) =>
        OrSame(CreatePermit(r, link, workDate, until, newEnd, terms, now), r)
    case DecidesPermit(p, accept) => OrSame(DecidePermit(r, p, accept, now), r)
    case CancelsPermit(p) => OrSame(CancelPermit(r, p), r)
    case Starts(link, near, poolOrders, terms) => OrSame(StartShift(r, link, near, poolOrders, terms, now), r)
    case ChangesTerms(k, terms) => OrSame(ChangeTerms(r, k, terms), r)
    case Ends(k, unfinished) => OrSame(EndShift(r, k, unfinished, now), r)
    case Releases(k, unfinished) => OrSame(ReleaseShift(r, k, unfinished), r)
    case Decides(k, approve, reasonGiven) => OrSame(DecideDaily(r, k, approve, reasonGiven), r)
    case Reopens(k) => OrSame(OfferReactivation(r, k, now), r)
    case Reactivates(k) => Reactivate(r, k, now).0
    case Sweeps => AutoApprove(r, now)
  }

  /** Requests that the schemas refuse do not reach the services; the agenda may change in any way they accept. */
  ghost predicate Admissible(step: Step) {
    match step
    case ChangesLinks(links) => LinksOk(links)
    case AsksPermit(_, _, _, newEnd, _) => newEnd.Some? ==> 0 <= newEnd.value < DAY
    case _ => true
  }

  lemma TimePasses(r: Roster, now: int, later: int)
    requires Orderly(r, now) && now <= later
    ensures Orderly(r, later)
  {
    forall p | p in r.permits ensures PermitOk(p, later) {
      assert PermitOk(p, now);
    }
  }

  /** Every step on a shift other than an approval changes that row alone, and consistently. */
  lemma ShiftStepIsLocal(r: Roster, step: Step, now: int)
    requires forall s | s in r.shifts :: Consistent(s)
    requires step.ChangesTerms? || step.Ends? || step.Decides? || step.Reopens? || step.Reactivates?
    requires step.Decides? ==> !step.approve
    requires Next(r, step, now) != r
    ensures var k, next := step.shift, Next(r, step, now);
            && k < |r.shifts| && |next.shifts| == |r.shifts|
            && next == r.(shifts := r.shifts[k := next.shifts[k]])
            && Consistent(next.shifts[k]) && !r.shifts[k].status.Closed?
            && (next.shifts[k].status.Closed? ==> next.shifts[k].decision == Some(Refused))
  {
    assert r.shifts[step.shift] in r.shifts;
  }

  lemma ShiftStepKeepsOrder(r: Roster, step: Step, now: int)
    requires Orderly(r, now)
    requires step.ChangesTerms? || step.Ends? || step.Releases? || step.Decides? || step.Reopens? || step.Reactivates?
    ensures Orderly(Next(r, step, now), now)
  {
    var next := Next(r, step, now);
    if next != r {
      var k := step.shift;
      if step.Releases? || (step.Decides? && step.approve) {
        ApproveKeepsOrder(r, k, now);
      } else {
        ShiftStepIsLocal(r, step, now);
        UpdateKeepsOrder(r, k, next.shifts[k], r.dailies, now);
      }
    }
  }

  lemma PermitStepKeepsOrder(r: Roster, step: Step, now: int)
    requires Orderly(r, now) && (step.DecidesPermit? || step.CancelsPermit?)
    ensures Orderly(Next(r, step, now), now)
  {
    var next := Next(r, step, now);
    if next != r {
      var p := step.permit;
      PermitUpdate(r.permits, p, next.permits[p].status, now);
      forall l | l in next.links ensures ValidSchedule(l.schedule) {
        var i :| 0 <= i < |next.links| && next.links[i] == l;
        assert r.links[i] in r.links && l.schedule == r.links[i].schedule;
      }
      PermitChangeKeepsOrder(r, next.links, next.permits, now);
    }
  }

  lemma NextKeepsOrder(r: Roster, step: Step, now: int)
    requires Orderly(r, now) && Admissible(step)
    ensures Orderly(Next(r, step, now), now)
  {
    match step
    case ChangesLinks(links) => PermitChangeKeepsOrder(r, links, r.permits, now);
    case AsksPermit(link, workDate, until, newEnd, terms) =>
      if CreatePermit(r, link, workDate, until, newEnd, terms, now).Ok? {
        CreatedPermitKeepsOrder(r, link, workDate, until, newEnd, terms, now);
      }
    case DecidesPermit(_, _) => PermitStepKeepsOrder(r, step, now);
    case CancelsPermit(_) => PermitStepKeepsOrder(r, step, now);
    case Starts(link, near, poolOrders, terms) =>
      if StartShift(r, link, near, poolOrders, terms, now).Ok? {
        StartKeepsOrder(r, link, near, poolOrders, terms, now);
      }
    case Sweeps =>
      var ids := OverdueShifts(r.shifts, now);
      ApproveAllKeepsOrder(r, ids, now);
    case _ => ShiftStepKeepsOrder(r, step, now);
  }

  function Run(steps: seq<(Step, int)>): Roster {
    if |steps| == 0 then Roster([], [], [], map[])
    else Next(Run(steps[..|steps| - 1]), steps[|steps| - 1].0, steps[|steps| - 1].1)
  }

  ghost predicate Plausible(steps: seq<(Step, int)>) {
    && (forall s | s in steps :: Admissible(s.0))
    && (forall i, j | 0 <= i < j < |steps| :: steps[i].1 <= steps[j].1)
  }

  lemma {:induction false} RunsKeepOrder(steps: seq<(Step, int)>, now: int)
    requires Plausible(steps)
    requires |steps| > 0 ==> steps[|steps| - 1].1 <= now
    ensures Orderly(Run(steps), now)
  {
    if |steps| > 0 {
      var init, last := steps[..|steps| - 1], steps[|steps| - 1];
      assert forall s | s in init :: s in steps;
      assert last in steps;
      RunsKeepOrder(init, last.1);
      NextKeepsOrder(Run(init), last.0, last.1);
      TimePasses(Run(steps), last.1, now);
    }
  }

  /**
   * Over every run, however the agenda changes in between: no two shifts that the driver ever started share a moment,
   * at most one is active, and each began within its window or at most half an hour before it.
   */
  lemma StartedShiftsNeverOverlap(steps: seq<(Step, int)>)
    requires Plausible(steps)
    ensures var shifts := Run(steps).shifts;
            && (forall i, j, t | 0 <= i < j < |shifts| :: !(Covers(shifts[i], t) && Covers(shifts[j], t)))
            && (forall i, j | 0 <= i < j < |shifts| :: !(shifts[i].status.Active? && shifts[j].status.Active?))
            && (forall s | s in shifts :: s.startAt - START_TOLERANCE * MINUTE_MS <= s.startedAt < s.endAt)
  {
    RunsKeepOrder(steps, if |steps| > 0 then steps[|steps| - 1].1 else 0);
    var shifts := Run(steps).shifts;
    forall i, j, t | 0 <= i < j < |shifts| ensures !(Covers(shifts[i], t) && Covers(shifts[j], t)) {
      assert !Meets(shifts[i], shifts[j].startAt, shifts[j].endAt);
    }
  }

  /** Over every run: the daily of a shift is paid if and only if the shift was approved, and at its final rate. */
  lemma DailiesArePaidOnce(steps: seq<(Step, int)>, k: nat)
    requires Plausible(steps)
    ensures var r := Run(steps);
            && (k in r.dailies <==>
                  k < |r.shifts| && r.shifts[k].decision == Some(Approved) && r.shifts[k].terms.daily > 0)
            && (k in r.dailies ==> r.dailies[k] == r.shifts[k].terms.daily)
  {
    RunsKeepOrder(steps, if |steps| > 0 then steps[|steps| - 1].1 else 0);
    var r := Run(steps);
    if k < |r.shifts| {
      assert r.shifts[k] in r.shifts;
    }
  }

  /** The daily of an ended shift is approved by every sweep from 24 hours after its end on, and by none before. */
  lemma DailyIsApprovedAfterADay(r: Roster, k: nat, unfinished: bool, now: int, later: int)
    requires EndShift(r, k, unfinished, now).Ok?
    ensures var s := AutoApprove(EndShift(r, k, unfinished, now).value, later).shifts[k];
            (s.status.Closed? && s.decision == Some(Approved) <==> later >= now + 86_400_000)
            && (!s.status.Closed? ==> s.decision == Some(Undecided))
  {
    var ended := EndShift(r, k, unfinished, now).value;
    assert k in OverdueShifts(ended.shifts, later) <==> later >= now + AUTO_APPROVE_MS;
  }

  /**
   * An offered reactivation can be taken up for half an hour, never past the end of the window, and by nobody on
   * shift.
   */
  lemma ReactivationWindow(r: Roster, k: nat, now: int, later: int)
    requires OfferReactivation(r, k, now).Ok? && Consistent(r.shifts[k])
    ensures var (next, error) := Reactivate(OfferReactivation(r, k, now).value, k, later);
            && (next.shifts[k].status.Active? <==> error.None?)
            && (error.None? <==>
                  && later <= now + 1_800_000 && later <= r.shifts[k].endAt
                  && forall i | 0 <= i < |r.shifts| :: !r.shifts[i].status.Active?)
            && (later > now + 1_800_000 || later > r.shifts[k].endAt ==>
                  next == r && error == Some(ReopenLapsed))
  {
    var offered := OfferReactivation(r, k, now).value;
    assert forall i | 0 <= i < |r.shifts| && i != k :: offered.shifts[i] == r.shifts[i];
    var next := Reactivate(offered, k, later).0;
    if next.shifts[k].status.PendingDaily? {
      assert next.shifts[k] == r.shifts[k];
      assert next.shifts == r.shifts;
    }
  }
}

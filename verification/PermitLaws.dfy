/** When a permit to start late is taken down, granted or taken back, what it changes, and why it is refused. */
module PermitLaws {
  import opened Agenda
  import opened AgendaLaws
  import opened Schedules
  import opened ShiftLaws
  import opened Shifts
  import opened Wrappers

  // ----- What a permit must fit -----

  /** The item is already promised: at another link, by a permit granted there, or later at the link itself. */
  ghost predicate Promised(r: Roster, link: nat, workDate: int, now: int, item: ScheduleItem)
    requires link < |r.links|
  {
    || (exists i | 0 <= i < |r.links| ::
          i != link && Holds(r.links[i], now) && item in r.links[i].schedule && ToCome(item, now))
    || (exists p | 0 <= p < |r.permits| ::
          r.permits[p].link != link && r.permits[p].status == Granted && r.permits[p].until > now
          && item == PermitItem(r.permits[p]))
    || (exists j | 0 <= j < |r.links[link].schedule| ::
          item == r.links[link].schedule[j] && !FirstOfDay(r.links[link].schedule, j, workDate))
  }

  lemma {:induction false} GrantedWritten(permits: seq<Permit>, except: nat, now: int, item: ScheduleItem)
    ensures item in GrantedItems(permits, except, now) <==>
            exists p | 0 <= p < |permits| ::
              permits[p].link != except && permits[p].status == Granted && permits[p].until > now
              && item == PermitItem(permits[p])
  {
    if |permits| > 0 {
      GrantedWritten(permits[..|permits| - 1], except, now, item);
    }
  }

  lemma {:induction false} OthersWritten(schedule: seq<ScheduleItem>, day: int, item: ScheduleItem)
    ensures item in OtherItems(schedule, day) <==>
            exists j | 0 <= j < |schedule| :: item == schedule[j] && !FirstOfDay(schedule, j, day)
  {
    if |schedule| > 0 {
      var rest := schedule[1..];
      if OccursOn(schedule[0], day) {
        assert FirstOfDay(schedule, 0, day);
        assert forall j | 0 < j < |schedule| :: schedule[j] == rest[j - 1] && !FirstOfDay(schedule, j, day);
        assert forall j | 0 <= j < |rest| :: rest[j] == schedule[j + 1];
      } else {
        OthersWritten(rest, day, item);
        assert !FirstOfDay(schedule, 0, day);
        forall j | 0 <= j < |rest| ensures FirstOfDay(rest, j, day) <==> FirstOfDay(schedule, j + 1, day) {
          assert rest[j] == schedule[j + 1];
          if FirstOfDay(rest, j, day) {
            assert forall i | 0 < i < j + 1 :: schedule[i] == rest[i - 1];
          }
        }
        assert forall j | 0 < j < |schedule| :: schedule[j] == rest[j - 1];
      }
    }
  }

  lemma PromisesWritten(r: Roster, link: nat, workDate: int, now: int, item: ScheduleItem)
    requires link < |r.links|
    ensures item in ActiveSchedule(r.links, now, Some(link)) + GrantedItems(r.permits, link, now)
                    + OtherItems(r.links[link].schedule, workDate) <==>
            Promised(r, link, workDate, now, item)
  {
    if item.Dated? {
      DayNotOver(item.date, now);
    }
    GrantedWritten(r.permits, link, now, item);
    OthersWritten(r.links[link].schedule, workDate, item);
  }

  predicate AwaitingUse(p: Permit) {
    p.status in {Requested, Granted}
  }

  predicate SameOccurrence(p: Permit, link: nat, workDate: int) {
    p.link == link && p.workDate == workDate
  }

  ghost predicate Fitting(r: Roster, link: nat, workDate: int, now: int, item: ScheduleItem)
    requires link < |r.links|
  {
    forall other | Promised(r, link, workDate, now, other) :: !Schedules.Clash(other, item)
  }

  lemma FitWritten(r: Roster, link: nat, workDate: int, now: int, item: ScheduleItem)
    requires LinksOk(r.links) && link < |r.links| && ValidItem(item)
    ensures PermitFits(r, link, workDate, item, now) <==> Fitting(r, link, workDate, now, item)
  {
    var promised := ActiveSchedule(r.links, now, Some(link)) + GrantedItems(r.permits, link, now)
                    + OtherItems(r.links[link].schedule, workDate);
    forall other ensures other in promised <==> Promised(r, link, workDate, now, other) {
      PromisesWritten(r, link, workDate, now, other);
    }
    assert forall i | 0 <= i < |r.links| :: r.links[i] in r.links;
    forall other | other in promised ensures ValidItem(other) {
      assert Promised(r, link, workDate, now, other);
    }
    SchedulesConflictIsClash(promised, [item]);
    if Fitting(r, link, workDate, now, item) {
      forall a, b | a in promised && b in [item] ensures !Schedules.Clash(a, b) {
        assert Promised(r, link, workDate, now, a);
      }
    } else {
      var other :| Promised(r, link, workDate, now, other) && Schedules.Clash(other, item);
      assert other in promised && item in [item];
    }
  }

  /** The day's window that a late start asks for, with another end if one is given. */
  function Wanted(item: ScheduleItem, workDate: int, newEnd: Option<int>): ScheduleItem {
    Dated(workDate, item.start, if newEnd.Some? then newEnd.value else item.end)
  }

  /** A permit that could still be used stands in the way of another for the same occurrence. */
  predicate InTheWay(p: Permit, link: nat, workDate: int, now: int) {
    SameOccurrence(p, link, workDate) && AwaitingUse(p) && p.until > now
  }

  /** Later than half an hour after the start, for a limit before the end, and fitting what else is promised. */
  ghost predicate MayAsk(r: Roster, link: nat, workDate: int, until: int, item: ScheduleItem, now: int)
    requires link < |r.links|
  {
    && Instant(Begin(item, workDate)) + 1_800_000 < now < until < Instant(End(item, workDate))
    && Fitting(r, link, workDate, now, item)
    && forall p | p in r.permits :: !InTheWay(p, link, workDate, now)
  }

  /** The new permit joins the others, of which those for the same occurrence have lapsed. */
  predicate Asked(r: Roster, p: Permit, next: Roster) {
    && next.links == r.links && next.shifts == r.shifts && next.dailies == r.dailies
    && |next.permits| == |r.permits| + 1 && next.permits[|r.permits|] == p
    && forall i | 0 <= i < |r.permits| ::
         next.permits[i] == if SameOccurrence(r.permits[i], p.link, p.workDate) && AwaitingUse(r.permits[i])
                            then r.permits[i].(status := PermitStatus.Withdrawn) else r.permits[i]
  }

  ghost predicate Asking(r: Roster, link: nat, workDate: int, until: int, newEnd: Option<int>, terms: Terms, now: int,
                         i: nat, next: Roster)
    requires link < |r.links|
  {
    && FirstOfDay(r.links[link].schedule, i, workDate)
    && var item := Wanted(r.links[link].schedule[i], workDate, newEnd);
       && MayAsk(r, link, workDate, until, item, now)
       && Asked(r, Permit(link, workDate, until, Instant(Begin(item, workDate)), Instant(End(item, workDate)), terms,
                          Requested), next)
  }

  lemma LapsedWritten(permits: seq<Permit>, link: nat, workDate: int, now: int)
    ensures var lapsed := LapsePermits(permits, link, workDate, now);
            (exists i | 0 <= i < |lapsed| ::
               lapsed[i].link == link && lapsed[i].workDate == workDate && Open(lapsed[i])) <==>
            exists p | p in permits :: InTheWay(p, link, workDate, now)
  {
    var lapsed := LapsePermits(permits, link, workDate, now);
    forall i | 0 <= i < |permits|
      ensures (lapsed[i].link == link && lapsed[i].workDate == workDate && Open(lapsed[i])) <==>
              InTheWay(permits[i], link, workDate, now)
    {
    }
    if p :| p in permits && InTheWay(p, link, workDate, now) {
      var i :| 0 <= i < |permits| && permits[i] == p;
      assert Open(lapsed[i]);
    }
    if i :| 0 <= i < |lapsed| && lapsed[i].link == link && lapsed[i].workDate == workDate && Open(lapsed[i]) {
      assert permits[i] in permits;
    }
  }

  /** The guards of the service, in this order or any other, are those conditions. */
  predicate Passes(r: Roster, link: nat, workDate: int, until: int, item: ScheduleItem, now: int)
    requires link < |r.links|
  {
    && Instant(Begin(item, workDate)) + 1_800_000 < now < until < Instant(End(item, workDate))
    && PermitFits(r, link, workDate, item, now)
    && var lapsed := LapsePermits(r.permits, link, workDate, now);
       !(exists i | 0 <= i < |lapsed| ::
           lapsed[i].link == link && lapsed[i].workDate == workDate && Open(lapsed[i]))
  }

  lemma GuardsWritten(r: Roster, link: nat, workDate: int, until: int, item: ScheduleItem, now: int)
    requires LinksOk(r.links) && link < |r.links| && ValidItem(item)
    ensures MayAsk(r, link, workDate, until, item, now) <==> Passes(r, link, workDate, until, item, now)
  {
    LapsedWritten(r.permits, link, workDate, now);
    FitWritten(r, link, workDate, now, item);
  }

  lemma AskedValue(r: Roster, link: nat, workDate: int, until: int, newEnd: Option<int>, terms: Terms, now: int, i: nat)
    requires Linked(r, link) && FirstOfDay(r.links[link].schedule, i, workDate)
    requires CreatePermit(r, link, workDate, until, newEnd, terms, now).Ok?
    ensures var item := Wanted(r.links[link].schedule[i], workDate, newEnd);
            var p := Permit(link, workDate, until, Instant(Begin(item, workDate)), Instant(End(item, workDate)), terms,
                            Requested);
            CreatePermit(r, link, workDate, until, newEnd, terms, now).value ==
              r.(permits := LapsePermits(r.permits, link, workDate, now) + [p])
  {
    OccurrenceWritten(r.links[link].schedule, i, workDate);
  }

  lemma AskedWritten(r: Roster, link: nat, workDate: int, until: int, newEnd: Option<int>, terms: Terms, now: int,
                     i: nat, next: Roster)
    requires LinksOk(r.links) && (newEnd.Some? ==> 0 <= newEnd.value < DAY)
    requires Linked(r, link) && !Expired(r, link, now) && FirstOfDay(r.links[link].schedule, i, workDate)
    ensures CreatePermit(r, link, workDate, until, newEnd, terms, now) == Ok(next) <==>
            Asking(r, link, workDate, until, newEnd, terms, now, i, next)
  {
    var item := r.links[link].schedule[i];
    var wanted := Wanted(item, workDate, newEnd);
    assert r.links[link] in r.links && item in r.links[link].schedule && ValidItem(wanted);
    GuardsWritten(r, link, workDate, until, wanted, now);
    GuardsInOrder(r, link, workDate, until, newEnd, terms, now, i);
    if CreatePermit(r, link, workDate, until, newEnd, terms, now).Ok? {
      AskedValue(r, link, workDate, until, newEnd, terms, now, i);
    }
    if MayAsk(r, link, workDate, until, wanted, now) {
      LapsedAreWithdrawn(r, Permit(link, workDate, until, Instant(Begin(wanted, workDate)),
                                   Instant(End(wanted, workDate)), terms, Requested), now, next);
    }
  }

  lemma LapsedAreWithdrawn(r: Roster, p: Permit, now: int, next: Roster)
    requires forall other | other in r.permits :: !InTheWay(other, p.link, p.workDate, now)
    ensures Asked(r, p, next) <==> next == r.(permits := LapsePermits(r.permits, p.link, p.workDate, now) + [p])
  {
    var lapsed := LapsePermits(r.permits, p.link, p.workDate, now);
    assert forall i | 0 <= i < |r.permits| :: r.permits[i] in r.permits;
    if Asked(r, p, next) {
      assert next.permits == lapsed + [p];
    }
  }

  lemma PermitIsAskedExactly(r: Roster, link: nat, workDate: int, until: int, newEnd: Option<int>, terms: Terms,
                             now: int, next: Roster)
    requires LinksOk(r.links) && (newEnd.Some? ==> 0 <= newEnd.value < DAY)
    ensures CreatePermit(r, link, workDate, until, newEnd, terms, now) == Ok(next) <==>
            && Linked(r, link) && !Expired(r, link, now)
            && exists i: nat :: Asking(r, link, workDate, until, newEnd, terms, now, i, next)
  {
    if Linked(r, link) {
      var schedule := r.links[link].schedule;
      FirstWritten(schedule, workDate, 0);
      if FirstOn(schedule, workDate).Some? && !Expired(r, link, now) {
        var i: nat :| FirstOfDay(schedule, i, workDate);
        AskedWritten(r, link, workDate, until, newEnd, terms, now, i, next);
      }
      forall i: nat | FirstOfDay(schedule, i, workDate) ensures FirstOn(schedule, workDate).Some? {
        FirstWritten(schedule, workDate, i);
      }
    }
  }

  /** Only the link's expiry and the permit's status change. */
  predicate Rewritten(r: Roster, p: nat, status: PermitStatus, expiresAt: Option<int>, next: Roster)
    requires p < |r.permits| && r.permits[p].link < |r.links|
  {
    var link := r.permits[p].link;
    && next.shifts == r.shifts && next.dailies == r.dailies
    && next.permits == r.permits[p := r.permits[p].(status := status)]
    && next.links == r.links[link := r.links[link].(expiresAt := expiresAt)]
  }

  /** A permit is granted in time, for an occurrence that is still on the agenda, and the link lasts to its end. */
  lemma PermitIsGrantedExactly(r: Roster, p: nat, now: int, next: Roster)
    requires LinksOk(r.links) && p < |r.permits| && r.permits[p].link < |r.links|
    ensures var permit := r.permits[p];
            var expiry := r.links[permit.link].expiresAt;
            DecidePermit(r, p, true, now) == Ok(next) <==>
              && permit.status == Requested && now < permit.until && now < permit.endAt
              && (exists i: nat :: FirstOfDay(r.links[permit.link].schedule, i, permit.workDate))
              && Fitting(r, permit.link, permit.workDate, now, PermitItem(permit))
              && Rewritten(r, p, Granted, if expiry.Some? && expiry.value < permit.endAt then Some(permit.endAt)
                                          else expiry, next)
  {
    var permit := r.permits[p];
    var schedule := r.links[permit.link].schedule;
    FirstWritten(schedule, permit.workDate, 0);
    forall i: nat | FirstOfDay(schedule, i, permit.workDate) ensures FirstOn(schedule, permit.workDate).Some? {
      FirstWritten(schedule, permit.workDate, i);
    }
    FitWritten(r, permit.link, permit.workDate, now, PermitItem(permit));
    assert r.links[permit.link].(expiresAt := r.links[permit.link].expiresAt) == r.links[permit.link];
  }

  lemma PermitIsDeclinedExactly(r: Roster, p: nat, now: int)
    ensures DecidePermit(r, p, false, now) ==
            if p < |r.permits| && r.permits[p].status == Requested then
              Ok(r.(permits := r.permits[p := r.permits[p].(status := Declined)]))
            else Err(NoSuchPermit)
  {
  }

  /** The end of a dated window of the link, or of a permit granted there. */
  ghost predicate AnEnd(r: Roster, link: nat, except: nat, at: int)
    requires link < |r.links|
  {
    || (exists item | item in r.links[link].schedule :: item.Dated? && at == Instant(End(item, item.date)))
    || (exists q | 0 <= q < |r.permits| && q != except ::
          r.permits[q].link == link && r.permits[q].status == Granted && at == r.permits[q].endAt)
  }

  predicate Undated(schedule: seq<ScheduleItem>) {
    forall item | item in schedule :: item.Weekly?
  }

  ghost predicate LastEnd(r: Roster, link: nat, except: nat, at: int)
    requires link < |r.links|
  {
    AnEnd(r, link, except, at) && forall t | AnEnd(r, link, except, t) :: t <= at
  }

  lemma {:induction false} LatestWritten(permits: seq<Permit>, link: nat, latest: int)
    ensures var at := LatestGranted(permits, link, latest);
            && at >= latest
            && (forall q | 0 <= q < |permits| && permits[q].link == link && permits[q].status == Granted ::
                  permits[q].endAt <= at)
            && (at == latest || exists q | 0 <= q < |permits| ::
                  permits[q].link == link && permits[q].status == Granted && permits[q].endAt == at)
  {
    if |permits| > 0 {
      LatestWritten(permits[..|permits| - 1], link, latest);
    }
  }

  /** A permit taken back leaves the link with the last end that is left, if it has dated windows at all. */
  lemma PermitIsTakenBackExactly(r: Roster, p: nat)
    ensures var result := CancelPermit(r, p);
            if p < |r.permits| && AwaitingUse(r.permits[p]) && r.permits[p].link < |r.links| then
              var link := r.permits[p].link;
              && result.Ok?
              && if Undated(r.links[link].schedule) then Rewritten(r, p, PermitStatus.Withdrawn, None, result.value)
                 else exists at | LastEnd(r, link, p, at) ::
                     Rewritten(r, p, PermitStatus.Withdrawn, Some(at), result.value)
            else result == Err(NoSuchPermit)
  {
    if p < |r.permits| && AwaitingUse(r.permits[p]) && r.permits[p].link < |r.links| {
      var link := r.permits[p].link;
      var schedule := r.links[link].schedule;
      var permits := r.permits[p := r.permits[p].(status := PermitStatus.Withdrawn)];
      ExpiryIsTheLastEnd(schedule);
      if !Undated(schedule) {
        var expiry := DatedExpiry(schedule).value;
        var at := LatestGranted(permits, link, expiry);
        LatestWritten(permits, link, expiry);
        LatestIsLastEnd(r, p, expiry, at);
      }
    }
  }

  lemma LatestIsLastEnd(r: Roster, p: nat, expiry: int, at: int)
    requires p < |r.permits| && r.permits[p].link < |r.links|
    requires var link := r.permits[p].link;
             DatedExpiry(r.links[link].schedule) == Some(expiry)
             && at == LatestGranted(r.permits[p := r.permits[p].(status := PermitStatus.Withdrawn)], link, expiry)
    ensures LastEnd(r, r.permits[p].link, p, at)
  {
    var link := r.permits[p].link;
    var schedule := r.links[link].schedule;
    var permits := r.permits[p := r.permits[p].(status := PermitStatus.Withdrawn)];
    ExpiryIsTheLastEnd(schedule);
    LatestWritten(permits, link, expiry);
    forall item | item in schedule && item.Dated? ensures Instant(End(item, item.date)) <= expiry {
      EndWritten(item);
    }
    if at == expiry {
      var item :| item in schedule && item.Dated? && OccurrenceFor([item], item.date).Some?
        && OccurrenceFor([item], item.date).value.endAt == expiry;
      EndWritten(item);
    } else {
      var q :| 0 <= q < |permits| && permits[q].link == link && permits[q].status == Granted && permits[q].endAt == at;
      assert q != p && r.permits[q] == permits[q];
    }
    forall q | 0 <= q < |r.permits| && q != p && r.permits[q].link == link && r.permits[q].status == Granted
      ensures r.permits[q].endAt <= at
    {
      assert permits[q] == r.permits[q];
    }
  }

  // ----- Refusals -----

  /** Why a permit for the occurrence of a day is not taken down. */
  ghost function AskError(r: Roster, link: nat, workDate: int, until: int, item: ScheduleItem, now: int)
    : Option<ShiftError>
    requires link < |r.links|
  {
    var inTheWay := exists p | p in r.permits :: InTheWay(p, link, workDate, now);
    FirstError(workDate, until, item, now, Fitting(r, link, workDate, now, item), inTheWay)
  }

  function FirstError(workDate: int, until: int, item: ScheduleItem, now: int, fits: bool, inTheWay: bool)
    : Option<ShiftError>
  {
    if now <= Instant(Begin(item, workDate)) + 1_800_000 then Some(PermitNotNeeded)
    else if until <= now then Some(LimitInThePast)
    else if Instant(End(item, workDate)) <= until then Some(LimitAfterTheEnd)
    else if !fits then Some(PermitConflict)
    else if inTheWay then Some(PermitAlreadyOpen)
    else None
  }

  lemma GuardsInOrder(r: Roster, link: nat, workDate: int, until: int, newEnd: Option<int>, terms: Terms, now: int,
                      i: nat)
    requires LinksOk(r.links) && (newEnd.Some? ==> 0 <= newEnd.value < DAY)
    requires Linked(r, link) && !Expired(r, link, now) && FirstOfDay(r.links[link].schedule, i, workDate)
    ensures var item := Wanted(r.links[link].schedule[i], workDate, newEnd);
            var lapsed := LapsePermits(r.permits, link, workDate, now);
            var inTheWay := exists k | 0 <= k < |lapsed| ::
                lapsed[k].link == link && lapsed[k].workDate == workDate && Open(lapsed[k]);
            ErrorOf(CreatePermit(r, link, workDate, until, newEnd, terms, now)) ==
              FirstError(workDate, until, item, now, PermitFits(r, link, workDate, item, now), inTheWay)
  {
    OccurrenceWritten(r.links[link].schedule, i, workDate);
    NeverLongerThanADay(r, link, workDate, until, newEnd, terms, now);
  }

  lemma AskRefused(r: Roster, link: nat, workDate: int, until: int, newEnd: Option<int>, terms: Terms, now: int, i: nat)
    requires LinksOk(r.links) && (newEnd.Some? ==> 0 <= newEnd.value < DAY)
    requires Linked(r, link) && !Expired(r, link, now) && FirstOfDay(r.links[link].schedule, i, workDate)
    ensures ErrorOf(CreatePermit(r, link, workDate, until, newEnd, terms, now)) ==
            AskError(r, link, workDate, until, Wanted(r.links[link].schedule[i], workDate, newEnd), now)
  {
    var item := Wanted(r.links[link].schedule[i], workDate, newEnd);
    assert r.links[link] in r.links && r.links[link].schedule[i] in r.links[link].schedule && ValidItem(item);
    GuardsInOrder(r, link, workDate, until, newEnd, terms, now, i);
    FitWritten(r, link, workDate, now, item);
    LapsedWritten(r.permits, link, workDate, now);
  }

  /** A permit is refused for the first of these reasons. */
  lemma PermitRefusedExactly(r: Roster, link: nat, workDate: int, until: int, newEnd: Option<int>, terms: Terms,
                             now: int)
    requires LinksOk(r.links) && (newEnd.Some? ==> 0 <= newEnd.value < DAY)
    ensures var error := ErrorOf(CreatePermit(r, link, workDate, until, newEnd, terms, now));
            && (error == Some(NoSuchLink) <==> !Linked(r, link))
            && (error == Some(LinkExpired) <==> Linked(r, link) && Expired(r, link, now))
            && (error == Some(NoOccurrence) <==>
                  && Linked(r, link) && !Expired(r, link, now)
                  && forall item | item in r.links[link].schedule :: !FallsOn(item, workDate))
            && forall i: nat | Linked(r, link) && !Expired(r, link, now)
                               && FirstOfDay(r.links[link].schedule, i, workDate) ::
                 error == AskError(r, link, workDate, until, Wanted(r.links[link].schedule[i], workDate, newEnd), now)
  {
    if Linked(r, link) && !Expired(r, link, now) {
      var schedule := r.links[link].schedule;
      forall i: nat | FirstOfDay(schedule, i, workDate)
        ensures ErrorOf(CreatePermit(r, link, workDate, until, newEnd, terms, now)) ==
                AskError(r, link, workDate, until, Wanted(schedule[i], workDate, newEnd), now)
        ensures schedule[i] in schedule && FallsOn(schedule[i], workDate)
      {
        AskRefused(r, link, workDate, until, newEnd, terms, now, i);
      }
      FirstWritten(schedule, workDate, 0);
      assert FirstOn(schedule, workDate).None? <==> forall item | item in schedule :: !OccursOn(item, workDate);
    }
  }

  /** A request is not granted for the first of these reasons. */
  lemma GrantRefusedExactly(r: Roster, p: nat, now: int)
    requires LinksOk(r.links) && p < |r.permits| && r.permits[p].link < |r.links|
    ensures var permit := r.permits[p];
            ErrorOf(DecidePermit(r, p, true, now)) ==
              if permit.status != Requested then Some(NoSuchPermit)
              else if permit.until <= now || permit.endAt <= now then Some(PermitExpired)
              else if forall item | item in r.links[permit.link].schedule :: !FallsOn(item, permit.workDate) then
                Some(NoOccurrence)
              else if !Fitting(r, permit.link, permit.workDate, now, PermitItem(permit)) then Some(PermitConflict)
              else None
  {
    FitWritten(r, r.permits[p].link, r.permits[p].workDate, now, PermitItem(r.permits[p]));
  }

  lemma PermitStepsTakeEffect(r: Roster, link: nat, workDate: int, until: int, newEnd: Option<int>, terms: Terms,
                              p: nat, accept: bool, now: int)
    ensures ShiftLaws.TakesEffect(CreatePermit(r, link, workDate, until, newEnd, terms, now), r,
                        Shifts.Next(r, AsksPermit(link, workDate, until, newEnd, terms), now))
    ensures ShiftLaws.TakesEffect(DecidePermit(r, p, accept, now), r, Shifts.Next(r, DecidesPermit(p, accept), now))
    ensures ShiftLaws.TakesEffect(CancelPermit(r, p), r, Shifts.Next(r, CancelsPermit(p), now))
  {
  }
}

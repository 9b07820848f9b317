/** The shift services as they run: transactions that insert and update the rows of one driver. */
module ShiftBooks {
  import opened Agenda
  import opened Schedules
  import opened Shifts
  import opened Wrappers

  ghost predicate Served(spec: Result<Roster, ShiftError>, was: Roster, state: Roster, error: Option<ShiftError>) {
    match spec
    case Ok(next) => error.None? && state == next
    case Err(e) => error == Some(e) && state == was
  }

  class ShiftBook {
    var links: seq<Link>
    var permits: seq<Permit>
    var shifts: seq<Shift>
    var dailies: map<nat, nat>

    constructor (links: seq<Link>)
      ensures State() == Roster(links, [], [], map[])
    {
      this.links, permits, shifts, dailies := links, [], [], map[];
    }

    function State(): Roster
      reads this
    {
      Roster(links, permits, shifts, dailies)
    }

    method StartShift(link: nat, near: bool, poolOrders: bool, terms: Terms, now: int)
      returns (error: Option<ShiftError>)
      modifies this
      ensures Served(Shifts.StartShift(old(State()), link, near, poolOrders, terms, now), old(State()), State(), error)
    {
      if link >= |links| || links[link].status != Confirmed {
        return Some(NoSuchLink);
      }
      if links[link].schedule == [] {
        return Some(NoSchedule);
      }
      if !near {
        return Some(TooFar);
      }
      if poolOrders {
        return Some(PoolOrdersOpen);
      }
      var regular := FindStartOccurrence(links[link].schedule, now, START_TOLERANCE);
      var permit := None;
      if regular.None? {
        permit := FindPermit(permits, link, now);
      }
      if IsLinkExpired(links[link], now) && permit.None? {
        return Some(LinkExpired);
      }
      var workDate, startAt, endAt, rates;
      if regular.Some? {
        workDate, startAt, endAt, rates := regular.value.workDate, regular.value.startAt, regular.value.endAt, terms;
      } else if permit.Some? {
        var p := permits[permit.value];
        workDate, startAt, endAt, rates := p.workDate, p.startAt, p.endAt, p.terms;
      } else {
        return Some(OutsideStartWindow);
      }
      for i := 0 to |shifts|
        invariant forall j | 0 <= j < i ::
                    !(workDate - 1 <= shifts[j].workDate <= workDate + 1 && Meets(shifts[j], startAt, endAt))
      {
        if workDate - 1 <= shifts[i].workDate <= workDate + 1 && Meets(shifts[i], startAt, endAt) {
          return Some(Overlapping);
        }
      }
      error := UniquenessError(link, workDate);
      if error.None? {
        shifts := shifts + [Shift(link, workDate, startAt, endAt, now, rates, Active, None, None, None)];
        if permit.Some? {
          permits := permits[permit.value := permits[permit.value].(status := Used)];
        }
      }
    }

    /** The two unique indexes of the table, as the insertion of an active shift meets them. */
    method UniquenessError(link: nat, workDate: int) returns (error: Option<ShiftError>)
      ensures error ==
        if exists i | 0 <= i < |shifts| :: shifts[i].link == link && shifts[i].workDate == workDate then
          Some(AlreadyStartedThatDay)
        else if exists i | 0 <= i < |shifts| :: shifts[i].status.Active? then Some(AlreadyActive)
        else None
    {
      var active := false;
      for i := 0 to |shifts|
        invariant forall j | 0 <= j < i :: !(shifts[j].link == link && shifts[j].workDate == workDate)
        invariant active <==> exists j | 0 <= j < i :: shifts[j].status.Active?
      {
        if shifts[i].link == link && shifts[i].workDate == workDate {
          return Some(AlreadyStartedThatDay);
        }
        active := active || shifts[i].status.Active?;
      }
      return if active then Some(AlreadyActive) else None;
    }

    method RecordShiftDaily(k: nat)
      requires k < |shifts|
      modifies this`dailies
      ensures dailies == RecordDaily(old(dailies), k, shifts[k].terms.daily)
    {
      if shifts[k].terms.daily <= 0 {
        return;
      }
      if k !in dailies {
        dailies := dailies[k := shifts[k].terms.daily];
      }
    }

    method EndShift(k: nat, unfinished: bool, now: int) returns (error: Option<ShiftError>)
      modifies this
      ensures Served(Shifts.EndShift(old(State()), k, unfinished, now), old(State()), State(), error)
    {
      if k >= |shifts| || shifts[k].status != Active {
        return Some(NoSuchShift);
      }
      if unfinished {
        return Some(OrdersUnfinished);
      }
      shifts := shifts[k := shifts[k].(status := PendingDaily, decision := Some(Undecided),
                                       autoApproveAt := Some(now + AUTO_APPROVE_MS), reopenUntil := None)];
      return None;
    }

    /** The store's own release closes and approves at once. */
    method ReleaseShift(k: nat, unfinished: bool) returns (error: Option<ShiftError>)
      modifies this
      ensures Served(Shifts.ReleaseShift(old(State()), k, unfinished), old(State()), State(), error)
    {
      if k >= |shifts| || shifts[k].status != Active {
        return Some(NoSuchShift);
      }
      if unfinished {
        return Some(OrdersUnfinished);
      }
      shifts := shifts[k := shifts[k].(status := Closed, decision := Some(Approved), autoApproveAt := None,
          reopenUntil := None)];
      RecordShiftDaily(k);
      return None;
    }

    method DecideShiftDaily(k: nat, approve: bool, reasonGiven: bool) returns (error: Option<ShiftError>)
      modifies this
      ensures Served(DecideDaily(old(State()), k, approve, reasonGiven), old(State()), State(), error)
    {
      if !approve && !reasonGiven {
        return Some(ReasonMissing);
      }
      if k >= |shifts| || !Awaiting(shifts[k]) {
        return Some(NoSuchShift);
      }
      shifts := shifts[k := shifts[k].(status := Closed, decision := Some(if approve then Approved else Refused),
                                       autoApproveAt := None, reopenUntil := None)];
      if approve {
        RecordShiftDaily(k);
      }
      return None;
    }

    method OfferShiftReactivation(k: nat, now: int) returns (error: Option<ShiftError>)
      modifies this
      ensures Served(OfferReactivation(old(State()), k, now), old(State()), State(), error)
    {
      if k >= |shifts| || shifts[k].status != PendingDaily || shifts[k].decision != Some(Undecided) {
        return Some(NoSuchShift);
      }
      if shifts[k].link >= |links| || links[shifts[k].link].status != Confirmed {
        return Some(LinkNotConfirmed);
      }
      if now >= shifts[k].endAt {
        return Some(WindowOver);
      }
      var reopenUntil := now + REOPEN_MS;
      if shifts[k].endAt < reopenUntil {
        reopenUntil := shifts[k].endAt;
      }
      shifts := shifts[k := shifts[k].(status := ReopenAllowed, reopenUntil := Some(reopenUntil))];
      return None;
    }

    method ReactivateShift(k: nat, now: int) returns (error: Option<ShiftError>)
      modifies this
      ensures (State(), error) == Reactivate(old(State()), k, now)
    {
      if k >= |shifts| || shifts[k].status != ReopenAllowed || shifts[k].decision != Some(Undecided) {
        return Some(NoSuchShift);
      }
      if shifts[k].reopenUntil.None? || now > shifts[k].reopenUntil.value {
        shifts := shifts[k := shifts[k].(status := PendingDaily, reopenUntil := None)];
        return Some(ReopenLapsed);
      }
      for i := 0 to |shifts|
        invariant forall j | 0 <= j < i :: !shifts[j].status.Active?
      {
        if shifts[i].status == Active {
          return Some(AlreadyActive);
        }
      }
      shifts := shifts[k := shifts[k].(status := Active, decision := None, autoApproveAt := None, reopenUntil := None)];
      return None;
    }

    /** One transaction of the sweep: the shift may have been decided since it was selected. */
    method AutoApproveShiftDaily(k: nat, now: int) returns (changed: bool)
      requires k < |shifts|
      modifies this
      ensures changed == Overdue(old(shifts)[k], now)
      ensures State() == if changed then Approve(old(State()), k) else old(State())
    {
      if !Overdue(shifts[k], now) {
        return false;
      }
      shifts := shifts[k := shifts[k].(status := Closed, decision := Some(Approved), autoApproveAt := None,
          reopenUntil := None)];
      RecordShiftDaily(k);
      return true;
    }

    /** Candidates are selected first and checked again one by one, each in its own transaction. */
    method AutoApproveStaleShiftDailies(now: int) returns (approved: nat)
      modifies this
      ensures State() == AutoApprove(old(State()), now)
      ensures approved == |OverdueShifts(old(shifts), now)|
    {
      approved := 0;
      var candidates := OverdueShifts(shifts, now);
      ghost var was := State();
      for i := 0 to |candidates|
        invariant approved == i
        invariant Within(candidates[..i], |was.shifts|)
        invariant State() == ApproveAll(was, candidates[..i])
      {
        NextCandidate(was, now, candidates, i);
        var changed := AutoApproveShiftDaily(candidates[i], now);
        if changed {
          approved := approved + 1;
        }
      }
      assert candidates[..|candidates|] == candidates;
    }

    /** A store permits a late start of an occurrence whose regular start has passed. */
    method CreateShiftAuthorization(link: nat, workDate: int, until: int, newEnd: Option<int>, terms: Terms, now: int)
      returns (error: Option<ShiftError>)
      modifies this
      ensures Served(CreatePermit(old(State()), link, workDate, until, newEnd, terms, now), old(State()), State(),
                error)
    {
      if link >= |links| || links[link].status != Confirmed {
        return Some(NoSuchLink);
      }
      if IsLinkExpired(links[link], now) {
        return Some(LinkExpired);
      }
      var occurrence := OccurrenceFor(links[link].schedule, workDate);
      if occurrence.None? {
        return Some(NoOccurrence);
      }
      var startAt, endAt, item := occurrence.value.startAt, occurrence.value.endAt, occurrence.value.item;
      if now <= startAt + START_TOLERANCE * MINUTE_MS {
        return Some(PermitNotNeeded);
      }
      var end := item.end;
      if newEnd.Some? {
        endAt, end := EndFor(workDate, item.start, newEnd.value), newEnd.value;
      }
      if until <= now {
        return Some(LimitInThePast);
      }
      if until >= endAt {
        return Some(LimitAfterTheEnd);
      }
      if endAt - startAt > DAY_MS {
        return Some(LongerThanADay);
      }
      if !PermitFits(State(), link, workDate, Dated(workDate, item.start, end), now) {
        return Some(PermitConflict);
      }
      var lapsed := LapsePermits(permits, link, workDate, now);
      for i := 0 to |lapsed|
        invariant forall j | 0 <= j < i ::
                  !(lapsed[j].link == link && lapsed[j].workDate == workDate && Open(lapsed[j]))
      {
        if lapsed[i].link == link && lapsed[i].workDate == workDate && Open(lapsed[i]) {
          return Some(PermitAlreadyOpen);
        }
      }
      permits := lapsed + [Permit(link, workDate, until, startAt, endAt, terms, Requested)];
      return None;
    }

    method CancelShiftAuthorization(p: nat) returns (error: Option<ShiftError>)
      modifies this
      ensures Served(CancelPermit(old(State()), p), old(State()), State(), error)
    {
      if p >= |permits| || !Open(permits[p]) || permits[p].link >= |links| {
        return Some(NoSuchPermit);
      }
      var link := permits[p].link;
      permits := permits[p := permits[p].(status := Withdrawn)];
      var expiresAt := DatedExpiry(links[link].schedule);
      if expiresAt.Some? {
        var latest := expiresAt.value;
        for i := 0 to |permits|
          invariant latest == LatestGranted(permits[..i], link, expiresAt.value)
        {
          assert permits[..i + 1][..i] == permits[..i];
          if permits[i].link == link && permits[i].status == Granted && permits[i].endAt > latest {
            latest := permits[i].endAt;
          }
        }
        assert permits[..|permits|] == permits;
        expiresAt := Some(latest);
      }
      links := links[link := links[link].(expiresAt := expiresAt)];
      return None;
    }

    /** A driver's answer to a permit, which may push the expiry of the link out. */
    method DecideShiftAuthorization(p: nat, accept: bool, now: int) returns (error: Option<ShiftError>)
      modifies this
      ensures Served(DecidePermit(old(State()), p, accept, now), old(State()), State(), error)
    {
      if p >= |permits| || permits[p].status != Requested {
        return Some(NoSuchPermit);
      }
      var permit := permits[p];
      if accept {
        if now >= permit.until || now >= permit.endAt {
          return Some(PermitExpired);
        }
        if permit.link >= |links| {
          return Some(NoSuchLink);
        }
        var link := links[permit.link];
        if OccurrenceFor(link.schedule, permit.workDate).None? {
          return Some(NoOccurrence);
        }
        if !PermitFits(State(), permit.link, permit.workDate, PermitItem(permit), now) {
          return Some(PermitConflict);
        }
        if link.expiresAt.Some? && permit.endAt > link.expiresAt.value {
          links := links[permit.link := link.(expiresAt := Some(permit.endAt))];
        }
      }
      permits := permits[p := permit.(status := if accept then Granted else Declined)];
      return None;
    }
  }
}

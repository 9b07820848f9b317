/** The store-driver and offer services as they run: each transaction updates the rows of one driver in place. */
module DriverAgendas {
  import opened Agenda
  import opened Schedules
  import opened Wrappers

  /** A transaction either ends in the state that its specification gives, or fails and changes nothing. */
  ghost predicate Served(spec: Result<Book, AgendaError>, was: Book, state: Book, error: Option<AgendaError>) {
    match spec
    case Ok(next) => error.None? && state == next
    case Err(e) => error == Some(e) && state == was
  }

  class DriverAgenda {
    var links: seq<Link>
    var offers: seq<Offer>

    constructor ()
      ensures State() == Book([], [])
    {
      links, offers := [], [];
    }

    function State(): Book
      reads this
    {
      Book(links, offers)
    }

    /** The items of the permits that can still be used, which are rows of another table. */
    method GrantedSchedule(grants: seq<Grant>, now: int, except: Option<nat>) returns (items: seq<ScheduleItem>)
      ensures items == GrantItems(grants, now, except)
    {
      items := [];
      for i := 0 to |grants|
        invariant items == GrantItems(grants[..i], now, except)
      {
        assert grants[..i + 1][..i] == grants[..i];
        if Some(grants[i].link) != except && grants[i].until > now {
          items := items + [grants[i].item];
        }
      }
      assert grants[..|grants|] == grants;
    }

    /** Collects the commitments as the service does: rows, then their items, then a filter by date, then permits. */
    method DriverActiveSchedule(grants: seq<Grant>, now: int, except: Option<nat>) returns (items: seq<ScheduleItem>)
      ensures items == ActiveSchedule(links, now, except) + GrantItems(grants, now, except)
    {
      items := [];
      for i := 0 to |links|
        invariant items == ActiveSchedule(links[..i], now, except)
      {
        assert links[..i + 1][..i] == links[..i];
        if except != Some(i) && !(links[i].status != Confirmed || IsLinkExpired(links[i], now)) {
          items := items + Future(links[i].schedule, now);
        }
      }
      assert links[..|links|] == links;
      var exceptions := GrantedSchedule(grants, now, except);
      items := items + exceptions;
    }

    method AssertNoScheduleConflict(grants: seq<Grant>, candidate: seq<ScheduleItem>, except: Option<nat>, now: int)
      returns (error: Option<AgendaError>)
      ensures error == if Fits(links, grants, candidate, except, now) then None else Some(ScheduleConflict)
    {
      var existing := DriverActiveSchedule(grants, now, except);
      error := if SchedulesConflict(existing, Future(candidate, now)) then Some(ScheduleConflict) else None;
    }

    method InviteDriver(grants: seq<Grant>, schedule: seq<ScheduleItem>, now: int) returns (error: Option<AgendaError>)
      modifies this
      ensures Served(Invite(old(State()), grants, schedule, now), old(State()), State(), error)
    {
      error := AssertNoScheduleConflict(grants, schedule, None, now);
      if error.None? {
        links := links + [Link(Invited, schedule, None, DatedExpiry(schedule))];
      }
    }

    method ConfirmLink(grants: seq<Grant>, i: nat, now: int) returns (error: Option<AgendaError>)
      modifies this
      ensures Served(Agenda.ConfirmLink(old(State()), grants, i, now), old(State()), State(), error)
    {
      if i >= |links| || links[i].status != Invited {
        return Some(NotFound);
      }
      error := AssertNoScheduleConflict(grants, links[i].schedule, Some(i), now);
      if error.None? {
        links := links[i := links[i].(status := Confirmed)];
      }
    }

    method RemoveLink(i: nat, onShift: bool) returns (error: Option<AgendaError>)
      modifies this
      ensures Served(Agenda.RemoveLink(old(State()), i, onShift), old(State()), State(), error)
    {
      if i >= |links| {
        return Some(NotFound);
      }
      if onShift {
        return Some(ActiveShift);
      }
      links := links[i := links[i].(status := Removed, pending := None)];
      return None;
    }

    method ProposeLinkTerms(grants: seq<Grant>, i: nat, schedule: Option<seq<ScheduleItem>>, now: int)
      returns (error: Option<AgendaError>)
      modifies this
      ensures Served(ProposeTerms(old(State()), grants, i, schedule, now), old(State()), State(), error)
    {
      if i >= |links| || links[i].status != Confirmed {
        return Some(NotFound);
      }
      var wanted := if schedule.Some? then schedule.value else links[i].schedule;
      error := AssertNoScheduleConflict(grants, wanted, Some(i), now);
      if error.None? {
        links := links[i := links[i].(pending := Some(wanted))];
      }
    }

    method ConfirmLinkTermsChange(grants: seq<Grant>, i: nat, onShift: bool, now: int)
      returns (error: Option<AgendaError>)
      modifies this
      ensures Served(ConfirmTerms(old(State()), grants, i, onShift, now), old(State()), State(), error)
    {
      if i >= |links| || links[i].status != Confirmed {
        return Some(NotFound);
      }
      var link := links[i];
      if link.pending.None? {
        return Some(NoPendingChange);
      }
      var changed := link.pending.value != link.schedule;
      if changed && onShift {
        return Some(ActiveShift);
      }
      error := AssertNoScheduleConflict(grants, link.pending.value, Some(i), now);
      if error.None? {
        link := link.(schedule := link.pending.value, pending := None);
        if changed {
          link := link.(expiresAt := DatedExpiry(link.schedule));
        }
        links := links[i := link];
      }
    }

    method RejectLinkTermsChange(i: nat) returns (error: Option<AgendaError>)
      modifies this
      ensures Served(RejectTerms(old(State()), i), old(State()), State(), error)
    {
      if i >= |links| || links[i].status != Confirmed {
        return Some(NotFound);
      }
      if links[i].pending.None? {
        return Some(NoPendingChange);
      }
      links := links[i := links[i].(pending := None)];
      return None;
    }

    method AcceptOffer(grants: seq<Grant>, k: nat, now: int) returns (error: Option<AgendaError>)
      modifies this
      ensures Served(Agenda.AcceptOffer(old(State()), grants, k, now), old(State()), State(), error)
    {
      if k >= |offers| {
        return Some(NotFound);
      }
      var offer := offers[k];
      if offer.accepted >= offer.slots {
        return Some(SlotsExhausted);
      }
      if !offer.open {
        return Some(OfferClosed);
      }
      if offer.answered {
        return Some(AlreadyAnswered);
      }
      var effective := Effective(offer.recurrence, now);
      if effective.Dates? && |effective.dates| == 0 {
        return Some(OfferExpired);
      }
      error := AssertNoScheduleConflict(grants, OfferItems(effective, offer.start, offer.end), None, now);
      if error.Some? {
        return;
      }
      offers := offers[k := offer.(accepted := offer.accepted + 1, open := offer.accepted + 1 < offer.slots,
                                   answered := true)];
      var schedule := OfferItems(offer.recurrence, offer.start, offer.end);
      var expiresAt := if offer.recurrence.Dates? then DatedExpiry(schedule) else None;
      links := links + [Link(Confirmed, schedule, None, expiresAt)];
    }
  }
}

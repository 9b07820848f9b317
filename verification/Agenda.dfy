/** The links of one driver with stores, and the offers the driver may accept. */
module Agenda {
  import opened Schedules
  import opened Wrappers

  datatype LinkStatus = Invited | Confirmed | Removed

  datatype Link = Link(
    status: LinkStatus,
    schedule: seq<ScheduleItem>,
    pending: Option<seq<ScheduleItem>>,
    expiresAt: Option<int>
  )

  /** `answered` tells whether this driver has accepted or dismissed the offer. */
  datatype Offer = Offer(open: bool, slots: nat, accepted: nat, recurrence: Recurrence, start: int, end: int,
                         answered: bool)

  datatype Book = Book(links: seq<Link>, offers: seq<Offer>)

  datatype AgendaError =
    | NotFound
    | ScheduleConflict
    | ActiveShift
    | NoPendingChange
    | SlotsExhausted
    | OfferClosed
    | AlreadyAnswered
    | OfferExpired

  predicate IsLinkExpired(link: Link, now: int) {
    link.expiresAt.Some? && link.expiresAt.value <= now
  }

  predicate IsLive(link: Link, now: int) {
    link.status.Confirmed? && !IsLinkExpired(link, now)
  }

  /** Weekly items, and dated ones that are not over by date. */
  predicate Current(item: ScheduleItem, now: int) {
    item.Weekly? || item.date >= LocalDay(now)
  }

  function Future(schedule: seq<ScheduleItem>, now: int): (r: seq<ScheduleItem>)
    ensures forall item :: item in r <==> item in schedule && Current(item, now)
  {
    if |schedule| == 0 then []
    else if Current(schedule[0], now) then [schedule[0]] + Future(schedule[1..], now)
    else Future(schedule[1..], now)
  }

  /** Everything the driver is committed to, leaving one link out. */
  function ActiveSchedule(links: seq<Link>, now: int, except: Option<nat>): (r: seq<ScheduleItem>)
    ensures forall item :: item in r <==>
              exists i | 0 <= i < |links| ::
                Some(i) != except && IsLive(links[i], now) && item in links[i].schedule && Current(item, now)
  {
    if |links| == 0 then []
    else
      var last := |links| - 1;
      ActiveSchedule(links[..last], now, except)
      + if except != Some(last) && IsLive(links[last], now) then Future(links[last].schedule, now) else []
  }

  /** A permit to start late that the driver was granted at one of the links, for a dated item. */
  datatype Grant = Grant(link: nat, item: ScheduleItem, until: int)

  /** The items of permits that can still be used, leaving one link out. */
  function GrantItems(grants: seq<Grant>, now: int, except: Option<nat>): (r: seq<ScheduleItem>)
    ensures forall item :: item in r <==>
              exists i | 0 <= i < |grants| ::
                Some(grants[i].link) != except && grants[i].until > now && item == grants[i].item
  {
    if |grants| == 0 then []
    else
      var last := grants[|grants| - 1];
      GrantItems(grants[..|grants| - 1], now, except)
      + if Some(last.link) != except && last.until > now then [last.item] else []
  }

  /** The candidate collides neither with the schedules of other links nor with permits granted there. */
  predicate Fits(links: seq<Link>, grants: seq<Grant>, candidate: seq<ScheduleItem>, except: Option<nat>, now: int) {
    !SchedulesConflict(ActiveSchedule(links, now, except) + GrantItems(grants, now, except), Future(candidate, now))
  }

  // ----- Transactions -----

  function Invite(b: Book, grants: seq<Grant>, schedule: seq<ScheduleItem>, now: int): Result<Book, AgendaError> {
    if !Fits(b.links, grants, schedule, None, now) then Err(ScheduleConflict)
    else Ok(b.(links := b.links + [Link(Invited, schedule, None, DatedExpiry(schedule))]))
  }

  function ConfirmLink(b: Book, grants: seq<Grant>, i: nat, now: int): Result<Book, AgendaError> {
    if i >= |b.links| || !b.links[i].status.Invited? then Err(NotFound)
    else if !Fits(b.links, grants, b.links[i].schedule, Some(i), now) then Err(ScheduleConflict)
    else Ok(b.(links := b.links[i := b.links[i].(status := Confirmed)]))
  }

  function RemoveLink(b: Book, i: nat, onShift: bool): Result<Book, AgendaError> {
    if i >= |b.links| then Err(NotFound)
    else if onShift then Err(ActiveShift)
    else Ok(b.(links := b.links[i := b.links[i].(status := Removed, pending := None)]))
  }

  function ProposeTerms(b: Book, grants: seq<Grant>, i: nat, schedule: Option<seq<ScheduleItem>>, now: int)
    : Result<Book, AgendaError>
  {
    if i >= |b.links| || !b.links[i].status.Confirmed? then Err(NotFound)
    else
      var wanted := if schedule.Some? then schedule.value else b.links[i].schedule;
      if !Fits(b.links, grants, wanted, Some(i), now) then Err(ScheduleConflict)
      else Ok(b.(links := b.links[i := b.links[i].(pending := Some(wanted))]))
  }

  function ConfirmTerms(b: Book, grants: seq<Grant>, i: nat, onShift: bool, now: int): Result<Book, AgendaError> {
    if i >= |b.links| || !b.links[i].status.Confirmed? then Err(NotFound)
    else
      var link := b.links[i];
      if link.pending.None? then Err(NoPendingChange)
      else
        var changed := link.pending.value != link.schedule;
        if changed && onShift then Err(ActiveShift)
        else if !Fits(b.links, grants, link.pending.value, Some(i), now) then Err(ScheduleConflict)
        else
          var expiresAt := if changed then DatedExpiry(link.pending.value) else link.expiresAt;
          Ok(b.(links := b.links[i := Link(Confirmed, link.pending.value, None, expiresAt)]))
  }

  function RejectTerms(b: Book, i: nat): Result<Book, AgendaError> {
    if i >= |b.links| || !b.links[i].status.Confirmed? then Err(NotFound)
    else if b.links[i].pending.None? then Err(NoPendingChange)
    else Ok(b.(links := b.links[i := b.links[i].(pending := None)]))
  }

  function NotPast(dates: seq<int>, now: int): (r: seq<int>)
    ensures forall d :: d in r <==> d in dates && d >= LocalDay(now)
  {
    if |dates| == 0 then []
    else if dates[0] >= LocalDay(now) then [dates[0]] + NotPast(dates[1..], now)
    else NotPast(dates[1..], now)
  }

  function Effective(r: Recurrence, now: int): Recurrence {
    if r.Dates? then Dates(NotPast(r.dates, now)) else r
  }

  function AcceptOffer(b: Book, grants: seq<Grant>, k: nat, now: int): Result<Book, AgendaError> {
    if k >= |b.offers| then Err(NotFound)
    else
      var o := b.offers[k];
      if o.accepted >= o.slots then Err(SlotsExhausted)
      else if !o.open then Err(OfferClosed)
      else if o.answered then Err(AlreadyAnswered)
      else
        var effective := Effective(o.recurrence, now);
        if effective.Dates? && |effective.dates| == 0 then Err(OfferExpired)
        else if !Fits(b.links, grants, OfferItems(effective, o.start, o.end), None, now) then Err(ScheduleConflict)
        else
          var schedule := OfferItems(o.recurrence, o.start, o.end);
          var expiresAt := if o.recurrence.Dates? then DatedExpiry(schedule) else None;
          var taken := o.(accepted := o.accepted + 1, open := o.accepted + 1 < o.slots, answered := true);
          Ok(Book(b.links + [Link(Confirmed, schedule, None, expiresAt)], b.offers[k := taken]))
  }

  /** Another driver takes a slot of the same offer. */
  function OtherAccepts(b: Book, k: nat): Result<Book, AgendaError> {
    if k >= |b.offers| then Err(NotFound)
    else
      var o := b.offers[k];
      if o.accepted >= o.slots then Err(SlotsExhausted)
      else if !o.open then Err(OfferClosed)
      else Ok(b.(offers := b.offers[k := o.(accepted := o.accepted + 1, open := o.accepted + 1 < o.slots)]))
  }

  // ----- The invariant -----

  /** What the schemas let through: valid times and days, and no collision inside one schedule. */
  predicate Acceptable(schedule: seq<ScheduleItem>) {
    ValidSchedule(schedule) && !HasInternalConflict(schedule)
  }

  ghost predicate AcceptableOffer(o: Offer) {
    && 0 <= o.start < DAY && 0 <= o.end < DAY
    && match o.recurrence
       case Dates(dates) => Distinct(dates)
       case OnDays(days) => Distinct(days) && forall d | d in days :: 0 <= d < 7
  }

  ghost predicate WellFormed(b: Book) {
    && (forall i | 0 <= i < |b.links| :: Acceptable(b.links[i].schedule))
    && (forall i | 0 <= i < |b.links| && b.links[i].pending.Some? :: Acceptable(b.links[i].pending.value))
    && (forall k | 0 <= k < |b.offers| :: AcceptableOffer(b.offers[k]))
    && (forall k | 0 <= k < |b.offers| ::
          b.offers[k].accepted <= b.offers[k].slots && (b.offers[k].open ==> b.offers[k].accepted < b.offers[k].slots))
  }

  /** An item of a link that commits the driver at this moment. */
  predicate Binding(links: seq<Link>, i: int, k: int, now: int) {
    && 0 <= i < |links| && IsLive(links[i], now)
    && 0 <= k < |links[i].schedule| && Current(links[i].schedule[k], now)
  }

  /** No two commitments ever meet, on any days of all time. */
  ghost predicate NoDoubleBooking(links: seq<Link>, now: int) {
    forall i, j, k, m | Binding(links, i, k, now) && Binding(links, j, m, now) && (i, k) != (j, m) ::
      !Clash(links[i].schedule[k], links[j].schedule[m])
  }

  /** As time goes by, commitments only disappear. */
  lemma TimeOnlyFrees(links: seq<Link>, now: int, later: int)
    requires NoDoubleBooking(links, now) && now <= later
    ensures NoDoubleBooking(links, later)
  {
    assert LocalDay(now) <= LocalDay(later);
    forall i, k | Binding(links, i, k, later) ensures Binding(links, i, k, now) {
    }
  }

  lemma NoInternalClash(schedule: seq<ScheduleItem>, k: nat, m: nat)
    requires Acceptable(schedule) && k < |schedule| && m < |schedule| && k != m
    ensures !Clash(schedule[k], schedule[m])
  {
    ConflictIsClash(schedule[k], schedule[m]);
    ConflictIsClash(schedule[m], schedule[k]);
    ClashIsSymmetric(schedule[k], schedule[m]);
    assert k < m ==> !ItemsConflict(schedule[k], schedule[m]);
    assert m < k ==> !ItemsConflict(schedule[m], schedule[k]);
  }

  lemma FitsMeansNoClash(links: seq<Link>, grants: seq<Grant>, candidate: seq<ScheduleItem>, except: Option<nat>,
                         now: int, j: nat, m: nat, item: ScheduleItem)
    requires Fits(links, grants, candidate, except, now) && ValidSchedule(candidate)
    requires forall l | l in links :: ValidSchedule(l.schedule)
    requires Some(j) != except && Binding(links, j, m, now) && item in candidate && Current(item, now)
    ensures !Clash(links[j].schedule[m], item)
    ensures !Clash(item, links[j].schedule[m])
  {
    var existing := ActiveSchedule(links, now, except);
    assert links[j].schedule[m] in existing;
    forall x | x in existing ensures ValidItem(x) {
      var i :| 0 <= i < |links| && Some(i) != except && IsLive(links[i], now) && x in links[i].schedule
          && Current(x, now);
      assert links[i] in links;
    }
    forall x | x in existing ensures x in existing + GrantItems(grants, now, except) {
    }
    SchedulesConflictIsClash(existing, Future(candidate, now));
    ClashIsSymmetric(item, links[j].schedule[m]);
  }

  /** A link whose current items were checked against all others may become live. */
  lemma CheckedLinkMayBind(links: seq<Link>, grants: seq<Grant>, i: nat, link: Link, checked: seq<ScheduleItem>,
                           now: int)
    requires i <= |links| && NoDoubleBooking(links, now)
    requires forall l | l in links :: ValidSchedule(l.schedule)
    requires Acceptable(link.schedule) && ValidSchedule(checked)
    requires Fits(links, grants, checked, if i == |links| then None else Some(i), now)
    requires forall item | item in link.schedule && Current(item, now) :: item in checked
    ensures NoDoubleBooking(if i == |links| then links + [link] else links[i := link], now)
  {
    var next := if i == |links| then links + [link] else links[i := link];
    var except := if i == |links| then None else Some(i);
    forall a, b, k, m | Binding(next, a, k, now) && Binding(next, b, m, now) && (a, k) != (b, m)
      ensures !Clash(next[a].schedule[k], next[b].schedule[m])
    {
      if a != i && b != i {
        assert Binding(links, a, k, now) && Binding(links, b, m, now);
      } else if a == i && b == i {
        NoInternalClash(link.schedule, k, m);
      } else if a == i {
        assert Binding(links, b, m, now);
        assert link.schedule[k] in link.schedule;
        FitsMeansNoClash(links, grants, checked, except, now, b, m, link.schedule[k]);
      } else {
        assert Binding(links, a, k, now);
        assert link.schedule[m] in link.schedule;
        FitsMeansNoClash(links, grants, checked, except, now, a, k, link.schedule[m]);
      }
    }
  }

  /** A link that commits to nothing new needs no check. */
  lemma LesserLinkMayReplace(links: seq<Link>, i: nat, link: Link, now: int)
    requires i < |links| && NoDoubleBooking(links, now)
    requires IsLive(link, now) ==> IsLive(links[i], now) && link.schedule == links[i].schedule
    ensures NoDoubleBooking(links[i := link], now)
  {
    var next := links[i := link];
    forall a, k | Binding(next, a, k, now)
        ensures Binding(links, a, k, now) && next[a].schedule[k] == links[a].schedule[k] {
    }
  }

  lemma UnboundLinkMayJoin(links: seq<Link>, link: Link, now: int)
    requires NoDoubleBooking(links, now) && !IsLive(link, now)
    ensures NoDoubleBooking(links + [link], now)
  {
    var next := links + [link];
    forall a, k | Binding(next, a, k, now) ensures Binding(links, a, k, now) && next[a] == links[a] {
    }
  }

  // ----- Runs -----

  datatype Step =
    | Invites(grants: seq<Grant>, schedule: seq<ScheduleItem>)
    | Confirms(grants: seq<Grant>, link: nat)
    | Removes(link: nat, onShift: bool)
    | ProposesTerms(grants: seq<Grant>, link: nat, wanted: Option<seq<ScheduleItem>>)
    | ConfirmsTerms(grants: seq<Grant>, link: nat, onShift: bool)
    | RejectsTerms(link: nat)
    | Publishes(slots: nat, recurrence: Recurrence, start: int, end: int)
    | Closes(offer: nat)
    | Accepts(grants: seq<Grant>, offer: nat)
    | Dismisses(offer: nat)
    | OthersAccept(offer: nat)

  function OrSame(r: Result<Book, AgendaError>, b: Book): Book {
    if r.Ok? then r.value else b
  }

  /** Requests that the schemas refuse do not reach the services. */
  ghost predicate Admissible(step: Step) {
    match step
    case Invites(_, schedule) => Acceptable(schedule)
    case ProposesTerms(_, _, wanted) => wanted.Some? ==> Acceptable(wanted.value)
    case Publishes(slots, r, start, end) => slots > 0 && AcceptableOffer(Offer(true, slots, 0, r, start, end, false))
    case _ => true
  }

  function Next(b: Book, step: Step, now: int): Book {
    match step
    case Invites(grants, schedule) => OrSame(Invite(b, grants, schedule, now), b)
    case Confirms(grants, i) => OrSame(ConfirmLink(b, grants, i, now), b)
    case Removes(i, onShift) => OrSame(RemoveLink(b, i, onShift), b)
    case ProposesTerms(grants, i, wanted) => OrSame(ProposeTerms(b, grants, i, wanted, now), b)
    case ConfirmsTerms(grants, i, onShift) => OrSame(ConfirmTerms(b, grants, i, onShift, now), b)
    case RejectsTerms(i) => OrSame(RejectTerms(b, i), b)
    case Publishes(slots, r, start, end) => b.(offers := b.offers + [Offer(true, slots, 0, r, start, end, false)])
    case Closes(k) => if k < |b.offers| then b.(offers := b.offers[k := b.offers[k].(open := false)]) else b
    case Accepts(grants, k) => OrSame(AcceptOffer(b, grants, k, now), b)
    case Dismisses(k) =>
      if k < |b.offers| && b.offers[k].open && !b.offers[k].answered then
        b.(offers := b.offers[k := b.offers[k].(answered := true)])
      else b
    case OthersAccept(k) => OrSame(OtherAccepts(b, k), b)
  }

  lemma OfferItemsAcceptable(o: Offer)
    requires AcceptableOffer(o)
    ensures Acceptable(OfferItems(o.recurrence, o.start, o.end))
  {
    OfferHasNoInternalConflict(o.recurrence, o.start, o.end);
    var items := OfferItems(o.recurrence, o.start, o.end);
    forall item | item in items ensures ValidItem(item) {
      var i :| 0 <= i < |items| && items[i] == item;
      if o.recurrence.OnDays? {
        assert o.recurrence.days[i] in o.recurrence.days;
      }
    }
  }

  /** What is still to come of an offer was all part of the check. */
  lemma EffectiveCoversCurrent(o: Offer, now: int)
    requires AcceptableOffer(o)
    ensures ValidSchedule(OfferItems(Effective(o.recurrence, now), o.start, o.end))
    ensures forall item | item in OfferItems(o.recurrence, o.start, o.end) && Current(item, now) ::
              item in OfferItems(Effective(o.recurrence, now), o.start, o.end)
  {
    OfferItemsAcceptable(o);
    if o.recurrence.Dates? {
      var all, kept := OfferItems(o.recurrence, o.start, o.end),
          OfferItems(Effective(o.recurrence, now), o.start, o.end);
      var dates := NotPast(o.recurrence.dates, now);
      forall item | item in all && Current(item, now) ensures item in kept {
        var i :| 0 <= i < |all| && all[i] == item;
        assert o.recurrence.dates[i] in dates;
        var j :| 0 <= j < |dates| && dates[j] == o.recurrence.dates[i];
        assert kept[j] == item;
      }
      forall item | item in kept ensures ValidItem(item) {
      }
    }
  }

  lemma OfferStepKeepsWellFormed(b: Book, step: Step, now: int)
    requires WellFormed(b) && Admissible(step)
    requires step.Publishes? || step.Closes? || step.Accepts? || step.Dismisses? || step.OthersAccept?
    ensures WellFormed(Next(b, step, now))
  {
    if step.Accepts? && step.offer < |b.offers| {
      OfferItemsAcceptable(b.offers[step.offer]);
    }
  }

  lemma NextKeepsWellFormed(b: Book, step: Step, now: int)
    requires WellFormed(b) && Admissible(step)
    ensures WellFormed(Next(b, step, now))
  {
    if step.Publishes? || step.Closes? || step.Accepts? || step.Dismisses? || step.OthersAccept? {
      OfferStepKeepsWellFormed(b, step, now);
    }
  }

  lemma NextKeepsBookings(b: Book, step: Step, now: int)
    requires WellFormed(b) && Admissible(step) && NoDoubleBooking(b.links, now)
    ensures NoDoubleBooking(Next(b, step, now).links, now)
  {
    forall l | l in b.links ensures ValidSchedule(l.schedule) {
      var i :| 0 <= i < |b.links| && b.links[i] == l;
      assert Acceptable(b.links[i].schedule);
    }
    if Next(b, step, now) != b {
      match step
      case Invites(_, schedule) =>
        UnboundLinkMayJoin(b.links, Link(Invited, schedule, None, DatedExpiry(schedule)), now);
      case Confirms(_, i) =>
        CheckedLinkMayBind(b.links, step.grants, i, b.links[i].(status := Confirmed), b.links[i].schedule, now);
      case Removes(i, _) => LesserLinkMayReplace(b.links, i, Next(b, step, now).links[i], now);
      case ProposesTerms(_, i, _) => LesserLinkMayReplace(b.links, i, Next(b, step, now).links[i], now);
      case ConfirmsTerms(_, i, _) =>
        CheckedLinkMayBind(b.links, step.grants, i, Next(b, step, now).links[i], b.links[i].pending.value, now);
      case RejectsTerms(i) => LesserLinkMayReplace(b.links, i, Next(b, step, now).links[i], now);
      case Accepts(_, k) =>
        var o := b.offers[k];
        OfferItemsAcceptable(o);
        EffectiveCoversCurrent(o, now);
        var schedule := OfferItems(o.recurrence, o.start, o.end);
        var expiresAt := if o.recurrence.Dates? then DatedExpiry(schedule) else None;
        CheckedLinkMayBind(b.links, step.grants, |b.links|, Link(Confirmed, schedule, None, expiresAt),
                           OfferItems(Effective(o.recurrence, now), o.start, o.end), now);
      case _ =>
    }
  }

  function Run(steps: seq<(Step, int)>): Book {
    if |steps| == 0 then Book([], [])
    else Next(Run(steps[..|steps| - 1]), steps[|steps| - 1].0, steps[|steps| - 1].1)
  }

  ghost predicate Plausible(steps: seq<(Step, int)>) {
    && (forall s | s in steps :: Admissible(s.0))
    && (forall i, j | 0 <= i < j < |steps| :: steps[i].1 <= steps[j].1)
  }

  /** Over every run, and at every later moment, no driver is ever booked twice for the same time. */
  lemma {:induction false} NeverDoubleBooked(steps: seq<(Step, int)>, now: int)
    requires Plausible(steps)
    requires |steps| > 0 ==> steps[|steps| - 1].1 <= now
    ensures WellFormed(Run(steps))
    ensures NoDoubleBooking(Run(steps).links, now)
  {
    if |steps| > 0 {
      var init, last := steps[..|steps| - 1], steps[|steps| - 1];
      assert forall s | s in init :: s in steps;
      assert last in steps;
      NeverDoubleBooked(init, last.1);
      NextKeepsWellFormed(Run(init), last.0, last.1);
      NextKeepsBookings(Run(init), last.0, last.1);
      TimeOnlyFrees(Run(steps).links, last.1, now);
    }
  }
}

/** No driver is booked twice, and no fitting schedule is refused, stated in minutes of the calendar. */
module AgendaLaws {
  import opened Agenda
  import opened Schedules
  import opened Wrappers

  // ----- The calendar, from its beginning -----

  /** 1 January 1970, day 0, was a Thursday, the fourth day after Sunday. */
  predicate FallsOn(item: ScheduleItem, day: int) {
    match item
    case Weekly(dow, _, _) => (day + 4) % 7 == dow
    case Dated(date, _, _) => day == date
  }

  function Begin(item: ScheduleItem, day: int): int {
    day * 1440 + item.start
  }

  /** A window that would not end after it begins ends on the next day. */
  function End(item: ScheduleItem, day: int): int {
    day * 1440 + item.end + if item.end <= item.start then 1440 else 0
  }

  /** The instant of a local minute, where the clocks are three hours behind UTC. */
  function Instant(minute: int): int {
    minute * 60_000 + 10_800_000
  }

  predicate Meet(a: ScheduleItem, x: int, b: ScheduleItem, y: int) {
    Begin(a, x) < End(b, y) && Begin(b, y) < End(a, x)
  }

  /** The day has not ended yet where the clocks are three hours behind UTC. */
  predicate NotOver(day: int, now: int) {
    now < (day + 1) * 86_400_000 + 10_800_000
  }

  lemma DayNotOver(day: int, now: int)
    ensures NotOver(day, now) <==> day >= LocalDay(now)
  {
    var local := now - 10_800_000;
    assert local == LocalDay(now) * 86_400_000 + local % 86_400_000;
  }

  /** A link counts from its confirmation until it expires. */
  predicate Holds(link: Link, now: int) {
    link.status == Confirmed && (link.expiresAt == None || link.expiresAt.value > now)
  }

  // ----- No double booking -----

  lemma ClashWritten(a: ScheduleItem, b: ScheduleItem)
    ensures Clash(a, b) <==> exists x, y :: FallsOn(a, x) && FallsOn(b, y) && Meet(a, x, b, y)
  {
    forall x, y ensures ClashOn(a, b, x, y) <==> FallsOn(a, x) && FallsOn(b, y) && Meet(a, x, b, y) {
    }
    if Clash(a, b) {
      var x, y :| ClashOn(a, b, x, y);
      assert FallsOn(a, x) && FallsOn(b, y) && Meet(a, x, b, y);
    }
    if exists x, y :: FallsOn(a, x) && FallsOn(b, y) && Meet(a, x, b, y) {
      var x, y :| FallsOn(a, x) && FallsOn(b, y) && Meet(a, x, b, y);
      assert ClashOn(a, b, x, y);
    }
  }

  /** The item of a link that counts falls on a day that is not over. */
  predicate Booked(links: seq<Link>, i: nat, k: nat, day: int, now: int) {
    && i < |links| && Holds(links[i], now) && k < |links[i].schedule|
    && FallsOn(links[i].schedule[k], day) && NotOver(day, now)
  }

  /**
   * Over every run, and at every later moment: two different items of links that count never meet, on any days that are
   * not over.
   */
  lemma NoTwoBookingsMeet(steps: seq<(Step, int)>, now: int, i: nat, k: nat, x: int, j: nat, m: nat, y: int)
    requires Plausible(steps) && (|steps| > 0 ==> steps[|steps| - 1].1 <= now)
    ensures var links := Run(steps).links;
            Booked(links, i, k, x, now) && Booked(links, j, m, y, now) && (i, k) != (j, m) ==>
              !Meet(links[i].schedule[k], x, links[j].schedule[m], y)
  {
    var links := Run(steps).links;
    NeverDoubleBooked(steps, now);
    if Booked(links, i, k, x, now) && Booked(links, j, m, y, now) && (i, k) != (j, m) {
      DayNotOver(x, now);
      DayNotOver(y, now);
      assert Binding(links, i, k, now) && Binding(links, j, m, now);
      ClashWritten(links[i].schedule[k], links[j].schedule[m]);
    }
  }

  // ----- What the check refuses -----

  /** An item that still has days to come. */
  predicate ToCome(item: ScheduleItem, now: int) {
    item.Weekly? || NotOver(item.date, now)
  }

  /** The item is among the driver's commitments, at another link or by a permit granted there. */
  ghost predicate Committed(links: seq<Link>, grants: seq<Grant>, except: Option<nat>, now: int, item: ScheduleItem) {
    || (exists i | 0 <= i < |links| ::
          Some(i) != except && Holds(links[i], now) && item in links[i].schedule && ToCome(item, now))
    || (exists i | 0 <= i < |grants| ::
          Some(grants[i].link) != except && grants[i].until > now && item == grants[i].item)
  }

  lemma CommitmentsWritten(links: seq<Link>, grants: seq<Grant>, except: Option<nat>, now: int, item: ScheduleItem)
    ensures item in ActiveSchedule(links, now, except) + GrantItems(grants, now, except) <==>
            Committed(links, grants, except, now, item)
  {
    if item.Dated? {
      DayNotOver(item.date, now);
    }
  }

  /** A candidate is refused if and only if one of its items that is to come meets a commitment, on any two days. */
  lemma RefusedExactly(links: seq<Link>, grants: seq<Grant>, candidate: seq<ScheduleItem>, except: Option<nat>,
                       now: int)
    requires ValidSchedule(candidate) && (forall l | l in links :: ValidSchedule(l.schedule))
    requires forall g | g in grants :: ValidItem(g.item)
    ensures !Fits(links, grants, candidate, except, now) <==>
            exists a, b :: Committed(links, grants, except, now, a) && b in candidate && ToCome(b, now) && Clash(a, b)
  {
    var existing := ActiveSchedule(links, now, except) + GrantItems(grants, now, except);
    forall item ensures item in existing <==> Committed(links, grants, except, now, item) {
      CommitmentsWritten(links, grants, except, now, item);
    }
    forall item ensures item in Future(candidate, now) <==> item in candidate && ToCome(item, now) {
      if item.Dated? {
        DayNotOver(item.date, now);
      }
    }
    CommitmentsAreValid(links, grants, except, now);
    SchedulesConflictIsClash(existing, Future(candidate, now));
  }

  lemma CommitmentsAreValid(links: seq<Link>, grants: seq<Grant>, except: Option<nat>, now: int)
    requires forall l | l in links :: ValidSchedule(l.schedule)
    requires forall g | g in grants :: ValidItem(g.item)
    ensures ValidSchedule(ActiveSchedule(links, now, except) + GrantItems(grants, now, except))
  {
    forall item | item in ActiveSchedule(links, now, except) + GrantItems(grants, now, except)
      ensures ValidItem(item)
    {
      CommitmentsWritten(links, grants, except, now, item);
    }
  }

  // ----- When links expire -----

  lemma EndWritten(item: ScheduleItem)
    requires item.Dated?
    ensures OccurrenceFor([item], item.date).Some?
    ensures OccurrenceFor([item], item.date).value.endAt == Instant(End(item, item.date))
  {
    assert FirstOn([item], item.date) == Some(item);
  }

  /** With the end of the last dated window, and never without any. */
  ghost predicate ExpiresWith(schedule: seq<ScheduleItem>, at: Option<int>) {
    match at
    case None => forall item | item in schedule :: item.Weekly?
    case Some(t) =>
      && (forall item | item in schedule && item.Dated? :: Instant(End(item, item.date)) <= t)
      && exists item | item in schedule :: item.Dated? && Instant(End(item, item.date)) == t
  }

  lemma ExpiryWritten(schedule: seq<ScheduleItem>)
    ensures ExpiresWith(schedule, DatedExpiry(schedule))
    ensures forall t | ExpiresWith(schedule, Some(t)) :: DatedExpiry(schedule) == Some(t)
  {
    ExpiryIsTheLastEnd(schedule);
    forall item | item in schedule && item.Dated?
      ensures OccurrenceFor([item], item.date).Some?
      ensures OccurrenceFor([item], item.date).value.endAt == Instant(End(item, item.date))
    {
      EndWritten(item);
    }
  }

  // ----- Transactions -----

  /** No item that is to come meets a commitment on any days. */
  ghost predicate Unhindered(b: Book, grants: seq<Grant>, candidate: seq<ScheduleItem>, except: Option<nat>, now: int) {
    forall a, item | Committed(b.links, grants, except, now, a) && item in candidate && ToCome(item, now) ::
      !Clash(a, item)
  }

  ghost predicate Checked(b: Book, grants: seq<Grant>) {
    WellFormed(b) && forall g | g in grants :: ValidItem(g.item)
  }

  lemma FitsWritten(b: Book, grants: seq<Grant>, candidate: seq<ScheduleItem>, except: Option<nat>, now: int)
    requires Checked(b, grants) && ValidSchedule(candidate)
    ensures Fits(b.links, grants, candidate, except, now) <==> Unhindered(b, grants, candidate, except, now)
  {
    forall l | l in b.links ensures ValidSchedule(l.schedule) {
      var i :| 0 <= i < |b.links| && b.links[i] == l;
      assert Acceptable(b.links[i].schedule);
    }
    RefusedExactly(b.links, grants, candidate, except, now);
  }

  /** An invitation is refused if the schedule meets a commitment, and else waits for the driver's answer. */
  lemma InvitesExactly(b: Book, grants: seq<Grant>, schedule: seq<ScheduleItem>, now: int)
    requires Checked(b, grants) && Acceptable(schedule)
    ensures var r := Invite(b, grants, schedule, now);
            if !Unhindered(b, grants, schedule, None, now) then r == Err(ScheduleConflict)
            else exists at | ExpiresWith(schedule, at) ::
                r == Ok(Book(b.links + [Link(Invited, schedule, None, at)], b.offers))
  {
    FitsWritten(b, grants, schedule, None, now);
    ExpiryWritten(schedule);
  }

  lemma ConfirmsExactly(b: Book, grants: seq<Grant>, i: nat, now: int)
    requires Checked(b, grants)
    ensures var r := ConfirmLink(b, grants, i, now);
            if i >= |b.links| || b.links[i].status != Invited then r == Err(NotFound)
            else if !Unhindered(b, grants, b.links[i].schedule, Some(i), now) then r == Err(ScheduleConflict)
            else r == Ok(b.(links := b.links[i := b.links[i].(status := Confirmed)]))
  {
    if i < |b.links| {
      assert Acceptable(b.links[i].schedule);
      FitsWritten(b, grants, b.links[i].schedule, Some(i), now);
    }
  }

  /** Removing a link drops its pending change with it, and waits for the end of a shift. */
  lemma RemovesExactly(b: Book, i: nat, onShift: bool)
    ensures RemoveLink(b, i, onShift) ==
            if i >= |b.links| then Err(NotFound)
            else if onShift then Err(ActiveShift)
            else Ok(b.(links := b.links[i := Link(Removed, b.links[i].schedule, None, b.links[i].expiresAt)]))
  {
  }

  /** The store proposes another schedule, or the same one with other terms. */
  lemma ProposesTermsExactly(b: Book, grants: seq<Grant>, i: nat, wanted: Option<seq<ScheduleItem>>, now: int)
    requires Checked(b, grants) && (wanted.Some? ==> Acceptable(wanted.value))
    ensures var r := ProposeTerms(b, grants, i, wanted, now);
            if i >= |b.links| || b.links[i].status != Confirmed then r == Err(NotFound)
            else
              var schedule := if wanted == None then b.links[i].schedule else wanted.value;
              if Unhindered(b, grants, schedule, Some(i), now) then
                r == Ok(b.(links := b.links[i := b.links[i].(pending := Some(schedule))]))
              else r == Err(ScheduleConflict)
  {
    if i < |b.links| {
      assert Acceptable(b.links[i].schedule);
      FitsWritten(b, grants, if wanted == None then b.links[i].schedule else wanted.value, Some(i), now);
    }
  }

  /** The driver takes on the pending schedule if it fits now; another one not during a shift, and with a new expiry. */
  lemma ConfirmsTermsExactly(b: Book, grants: seq<Grant>, i: nat, onShift: bool, now: int)
    requires Checked(b, grants)
    ensures var r := ConfirmTerms(b, grants, i, onShift, now);
            if i >= |b.links| || b.links[i].status != Confirmed then r == Err(NotFound)
            else if b.links[i].pending == None then r == Err(NoPendingChange)
            else
              var was, schedule := b.links[i].schedule, b.links[i].pending.value;
              if onShift && schedule != was then r == Err(ActiveShift)
              else if !Unhindered(b, grants, schedule, Some(i), now) then r == Err(ScheduleConflict)
              else exists at | (if schedule == was then at == b.links[i].expiresAt else ExpiresWith(schedule, at)) ::
                  r == Ok(b.(links := b.links[i := Link(Confirmed, schedule, None, at)]))
  {
    if i < |b.links| && b.links[i].pending.Some? {
      assert Acceptable(b.links[i].pending.value);
      FitsWritten(b, grants, b.links[i].pending.value, Some(i), now);
      ExpiryWritten(b.links[i].pending.value);
    }
  }

  lemma RejectsTermsExactly(b: Book, i: nat)
    ensures RejectTerms(b, i) ==
            if i >= |b.links| || b.links[i].status != Confirmed then Err(NotFound)
            else if b.links[i].pending == None then Err(NoPendingChange)
            else Ok(b.(links := b.links[i := Link(Confirmed, b.links[i].schedule, None, b.links[i].expiresAt)]))
  {
  }

  // ----- Offers -----

  predicate OfferHas(o: Offer, item: ScheduleItem) {
    match o.recurrence
    case Dates(dates) => item.Dated? && item.date in dates && item == Dated(item.date, o.start, o.end)
    case OnDays(days) => item.Weekly? && item.dow in days && item == Weekly(item.dow, o.start, o.end)
  }

  lemma ItemsWritten(r: Recurrence, start: int, end: int, item: ScheduleItem)
    ensures item in OfferItems(r, start, end) <==> OfferHas(Offer(true, 1, 0, r, start, end, false), item)
  {
    var items := OfferItems(r, start, end);
    if r.Dates? && item.Dated? && item.date in r.dates {
      var i :| 0 <= i < |r.dates| && r.dates[i] == item.date;
      assert items[i] == Dated(item.date, start, end);
    }
    if r.OnDays? && item.Weekly? && item.dow in r.days {
      var i :| 0 <= i < |r.days| && r.days[i] == item.dow;
      assert items[i] == Weekly(item.dow, start, end);
    }
  }

  /** All dates of the offer are over. */
  predicate AllOver(o: Offer, now: int) {
    o.recurrence.Dates? && forall d | d in o.recurrence.dates :: !NotOver(d, now)
  }

  /** No item of the offer that is to come meets a commitment. */
  ghost predicate OfferUnhindered(b: Book, grants: seq<Grant>, o: Offer, now: int) {
    forall a, item | Committed(b.links, grants, None, now, a) && OfferHas(o, item) && ToCome(item, now) ::
      !Clash(a, item)
  }

  lemma EffectiveWritten(o: Offer, now: int, item: ScheduleItem)
    ensures item in OfferItems(Effective(o.recurrence, now), o.start, o.end) <==>
            OfferHas(o, item) && ToCome(item, now)
  {
    ItemsWritten(Effective(o.recurrence, now), o.start, o.end, item);
    if item.Dated? {
      DayNotOver(item.date, now);
    }
  }

  lemma OfferFitsWritten(b: Book, grants: seq<Grant>, o: Offer, now: int)
    requires Checked(b, grants) && AcceptableOffer(o)
    ensures Fits(b.links, grants, OfferItems(Effective(o.recurrence, now), o.start, o.end), None, now) <==>
            OfferUnhindered(b, grants, o, now)
  {
    var items := OfferItems(Effective(o.recurrence, now), o.start, o.end);
    EffectiveCoversCurrent(o, now);
    FitsWritten(b, grants, items, None, now);
    forall item ensures item in items <==> OfferHas(o, item) && ToCome(item, now) {
      EffectiveWritten(o, now, item);
    }
  }

  lemma OverWritten(o: Offer, now: int)
    ensures var effective := Effective(o.recurrence, now);
            (effective.Dates? && |effective.dates| == 0) <==> AllOver(o, now)
  {
    if o.recurrence.Dates? {
      var kept := NotPast(o.recurrence.dates, now);
      forall d | d in o.recurrence.dates ensures d in kept <==> NotOver(d, now) {
        DayNotOver(d, now);
      }
      if |kept| > 0 {
        assert kept[0] in kept;
      }
    }
  }

  /** One more slot is taken, and the last one closes the offer. */
  predicate SlotTaken(o: Offer, next: Offer, mine: bool) {
    && next.slots == o.slots && next.recurrence == o.recurrence && next.start == o.start && next.end == o.end
    && next.accepted == o.accepted + 1 && (next.open <==> next.accepted < o.slots)
    && (next.answered <==> mine || o.answered)
  }

  /** The offer as a link of the driver, to last until its last date, if it has dates. */
  ghost predicate LinkOf(o: Offer, l: Link) {
    && l.status == Confirmed && l.pending == None && (forall item :: item in l.schedule <==> OfferHas(o, item))
    && (if o.recurrence.Dates? then ExpiresWith(l.schedule, l.expiresAt) else l.expiresAt == None)
  }

  ghost predicate Taken(b: Book, k: nat, next: Book)
    requires k < |b.offers|
  {
    && |next.links| == |b.links| + 1 && next.links[..|b.links|] == b.links
    && LinkOf(b.offers[k], next.links[|b.links|])
    && |next.offers| == |b.offers| && SlotTaken(b.offers[k], next.offers[k], true)
    && forall j | 0 <= j < |b.offers| && j != k :: next.offers[j] == b.offers[j]
  }

  /** An offer becomes a link while it has slots, is open, unanswered and not over, and fits the driver's agenda. */
  lemma AcceptsExactly(b: Book, grants: seq<Grant>, k: nat, now: int)
    requires Checked(b, grants)
    ensures var r := AcceptOffer(b, grants, k, now);
            if k >= |b.offers| then r == Err(NotFound)
            else
              var o := b.offers[k];
              if o.accepted >= o.slots then r == Err(SlotsExhausted)
              else if !o.open then r == Err(OfferClosed)
              else if o.answered then r == Err(AlreadyAnswered)
              else if AllOver(o, now) then r == Err(OfferExpired)
              else if !OfferUnhindered(b, grants, o, now) then r == Err(ScheduleConflict)
              else r.Ok? && Taken(b, k, r.value)
  {
    if k < |b.offers| {
      var o := b.offers[k];
      OverWritten(o, now);
      OfferFitsWritten(b, grants, o, now);
      var schedule := OfferItems(o.recurrence, o.start, o.end);
      ExpiryWritten(schedule);
      forall item ensures item in schedule <==> OfferHas(o, item) {
        ItemsWritten(o.recurrence, o.start, o.end, item);
      }
    }
  }

  lemma OthersAcceptExactly(b: Book, k: nat)
    ensures var r := OtherAccepts(b, k);
            if k >= |b.offers| then r == Err(NotFound)
            else
              var o := b.offers[k];
              if o.accepted >= o.slots then r == Err(SlotsExhausted)
              else if !o.open then r == Err(OfferClosed)
              else
                && r.Ok? && r.value.links == b.links && |r.value.offers| == |b.offers|
                && SlotTaken(o, r.value.offers[k], false)
                && forall j | 0 <= j < |b.offers| && j != k :: r.value.offers[j] == b.offers[j]
  {
  }

  // ----- Steps of a run -----

  /** A transaction takes effect as a whole, or is refused and leaves everything as it was. */
  predicate TakesEffect(r: Result<Book, AgendaError>, b: Book, next: Book) {
    match r
    case Ok(value) => next == value
    case Err(_) => next == b
  }

  lemma LinkStepsTakeEffect(b: Book, grants: seq<Grant>, schedule: seq<ScheduleItem>, i: nat, onShift: bool, now: int)
    ensures TakesEffect(Invite(b, grants, schedule, now), b, Next(b, Invites(grants, schedule), now))
    ensures TakesEffect(ConfirmLink(b, grants, i, now), b, Next(b, Confirms(grants, i), now))
    ensures TakesEffect(RemoveLink(b, i, onShift), b, Next(b, Removes(i, onShift), now))
  {
  }

  lemma TermStepsTakeEffect(b: Book, grants: seq<Grant>, wanted: Option<seq<ScheduleItem>>, i: nat, now: int)
    ensures TakesEffect(ProposeTerms(b, grants, i, wanted, now), b, Next(b, ProposesTerms(grants, i, wanted), now))
    ensures TakesEffect(RejectTerms(b, i), b, Next(b, RejectsTerms(i), now))
  {
  }

  lemma ConfirmationTakesEffect(b: Book, grants: seq<Grant>, i: nat, onShift: bool, now: int)
    ensures TakesEffect(ConfirmTerms(b, grants, i, onShift, now), b, Next(b, ConfirmsTerms(grants, i, onShift), now))
  {
  }

  /** An open offer can be dismissed once; a dismissed or accepted one is answered for good. */
  lemma OfferStepsTakeEffect(b: Book, grants: seq<Grant>, slots: nat, r: Recurrence, start: int, end: int, k: nat,
                             now: int)
    ensures Next(b, Publishes(slots, r, start, end), now) ==
            Book(b.links, b.offers + [Offer(true, slots, 0, r, start, end, false)])
    ensures TakesEffect(AcceptOffer(b, grants, k, now), b, Next(b, Accepts(grants, k), now))
    ensures TakesEffect(OtherAccepts(b, k), b, Next(b, OthersAccept(k), now))
    ensures var closed, dismissed := Next(b, Closes(k), now), Next(b, Dismisses(k), now);
            if k >= |b.offers| then closed == b && dismissed == b
            else
              var o := b.offers[k];
              && closed == Book(b.links, b.offers[k := o.(open := false)])
              && dismissed == if o.open then Book(b.links, b.offers[k := o.(answered := true)]) else b
  {
    if k < |b.offers| {
      assert b.offers[k := b.offers[k]] == b.offers;
      assert b.offers[k].answered ==> b.offers[k].(answered := true) == b.offers[k];
    }
  }

  /** Over every run: no offer is accepted more often than it has slots, and one without free slots is closed. */
  lemma SlotsAreNeverExceeded(steps: seq<(Step, int)>, k: nat)
    requires Plausible(steps) && k < |Run(steps).offers|
    ensures var o := Run(steps).offers[k]; o.accepted <= o.slots && (o.accepted == o.slots ==> !o.open)
  {
    NeverDoubleBooked(steps, if |steps| > 0 then steps[|steps| - 1].1 else 0);
  }
}

/**
 * Weekly and dated work schedules. Days are numbered from 1 January 1970, times are minutes of a day,
 * instants are milliseconds; local time is three hours behind UTC.
 */
module Schedules {
  import opened Wrappers

  const DAY := 1440
  const MINUTE_MS := 60_000
  const DAY_MS := 86_400_000
  const UTC_OFFSET_MS := 3 * 60 * 60_000

  datatype ScheduleItem =
    | Weekly(dow: int, start: int, end: int)
    | Dated(date: int, start: int, end: int)

  datatype Recurrence = Dates(dates: seq<int>) | OnDays(days: seq<int>)

  datatype Interval = Interval(from: int, to: int)

  /** What the request schemas accept: a day of the week and two times of a day. */
  predicate ValidItem(item: ScheduleItem) {
    0 <= item.start < DAY && 0 <= item.end < DAY && (item.Weekly? ==> 0 <= item.dow < 7)
  }

  predicate ValidSchedule(schedule: seq<ScheduleItem>) {
    forall item | item in schedule :: ValidItem(item)
  }

  function DayOfWeek(day: int): (dow: int)
    ensures 0 <= dow < 7
  {
    (day + 4) % 7
  }

  /** The window that starts on `day`; one that does not end later the same day ends on the next. */
  function WindowOn(day: int, item: ScheduleItem): Interval {
    var end := day * DAY + item.end;
    var start := day * DAY + item.start;
    Interval(start, if end <= start then end + DAY else end)
  }

  predicate Overlaps(a: Interval, b: Interval) {
    a.from < b.to && b.from < a.to
  }

  // ----- The bounded search of the program -----

  const WEEKS: seq<int> := [-7, 0, 7]

  function WeekOffsets(item: ScheduleItem, base: int): seq<Interval> {
    seq(3, i requires 0 <= i < 3 => WindowOn(base + WEEKS[i], item))
  }

  function ItemIntervals(item: ScheduleItem, anchor: Option<int>): seq<Interval> {
    match item
    case Dated(date, _, _) => [WindowOn(date, item)]
    case Weekly(dow, _, _) =>
      if anchor.None? then WeekOffsets(item, dow)
      else WeekOffsets(item, anchor.value - DayOfWeek(anchor.value) + dow)
  }

  function AnchorOf(a: ScheduleItem, b: ScheduleItem): Option<int> {
    if a.Dated? then Some(a.date) else if b.Dated? then Some(b.date) else None
  }

  predicate ItemsConflict(a: ScheduleItem, b: ScheduleItem) {
    var anchor := AnchorOf(a, b);
    exists left, right | left in ItemIntervals(a, anchor) && right in ItemIntervals(b, anchor) :: Overlaps(left, right)
  }

  predicate SchedulesConflict(a: seq<ScheduleItem>, b: seq<ScheduleItem>) {
    exists left, right | left in a && right in b :: ItemsConflict(left, right)
  }

  // ----- The infinite calendar -----

  predicate OccursOn(item: ScheduleItem, day: int) {
    match item
    case Weekly(dow, _, _) => DayOfWeek(day) == dow
    case Dated(date, _, _) => day == date
  }

  /** Some occurrence of one item meets some occurrence of the other, on any two days of all time. */
  ghost predicate Clash(a: ScheduleItem, b: ScheduleItem) {
    exists d, e :: ClashOn(a, b, d, e)
  }

  ghost predicate ClashOn(a: ScheduleItem, b: ScheduleItem, d: int, e: int) {
    OccursOn(a, d) && OccursOn(b, e) && Overlaps(WindowOn(d, a), WindowOn(e, b))
  }

  /** Windows last at most a day, so those that overlap start on the same or on neighbouring days. */
  lemma OverlapIsNear(a: ScheduleItem, b: ScheduleItem, d: int, e: int)
    requires ValidItem(a) && ValidItem(b) && Overlaps(WindowOn(d, a), WindowOn(e, b))
    ensures -1 <= d - e <= 1
  {
  }

  /** Moving both windows by the same number of days changes nothing. */
  lemma ShiftOverlap(a: ScheduleItem, b: ScheduleItem, d: int, e: int, shift: int)
    ensures Overlaps(WindowOn(d, a), WindowOn(e, b)) <==> Overlaps(WindowOn(d + shift, a), WindowOn(e + shift, b))
  {
  }

  lemma SameWeekday(day: int, dow: int, k: int)
    requires 0 <= dow < 7
    ensures DayOfWeek(day - DayOfWeek(day) + dow + 7 * k) == dow
  {
  }

  /** Two days of the same weekday differ by whole weeks. */
  lemma WholeWeeks(d: int, e: int) returns (k: int)
    requires DayOfWeek(d) == DayOfWeek(e)
    ensures d == e + 7 * k
  {
    k := (d + 4) / 7 - (e + 4) / 7;
  }

  lemma OffsetIn(item: ScheduleItem, base: int, i: nat)
    requires i < 3
    ensures WindowOn(base + WEEKS[i], item) in WeekOffsets(item, base)
  {
    assert WeekOffsets(item, base)[i] == WindowOn(base + WEEKS[i], item);
  }

  lemma WeeklyClashIsFound(a: ScheduleItem, b: ScheduleItem, d: int, e: int)
    requires ValidItem(a) && ValidItem(b) && a.Weekly? && b.Weekly? && ClashOn(a, b, d, e)
    ensures ItemsConflict(a, b)
  {
    OverlapIsNear(a, b, d, e);
    // move the pair so that the first day is the weekday number itself
    var shift := a.dow - d;
    ShiftOverlap(a, b, d, e, shift);
    SameWeekday(d, b.dow, 0);
    var k := WholeWeeks(e, d - a.dow + b.dow);
    assert e + shift == b.dow + 7 * k;
    assert -1 <= k <= 1;
    OffsetIn(a, a.dow, 1);
    OffsetIn(b, b.dow, k + 1);
    assert WEEKS[k + 1] == 7 * k;
  }

  lemma DatedClashIsFound(a: ScheduleItem, b: ScheduleItem, d: int, e: int)
    requires ValidItem(a) && ValidItem(b) && a.Dated? && ClashOn(a, b, d, e)
    ensures ItemsConflict(a, b)
  {
    OverlapIsNear(a, b, d, e);
    assert WindowOn(a.date, a) in ItemIntervals(a, Some(a.date));
    if b.Dated? {
      assert WindowOn(b.date, b) in ItemIntervals(b, Some(a.date));
    } else {
      NearWeekdayIsListed(b, a.date, e);
    }
  }

  /** The occurrence of a weekly item nearest to an anchor day is one of the three listed. */
  lemma NearWeekdayIsListed(b: ScheduleItem, anchor: int, e: int)
    requires ValidItem(b) && b.Weekly? && OccursOn(b, e) && -1 <= e - anchor <= 1
    ensures WindowOn(e, b) in ItemIntervals(b, Some(anchor))
  {
    var base := anchor - DayOfWeek(anchor) + b.dow;
    SameWeekday(anchor, b.dow, 0);
    var k := WholeWeeks(e, base);
    assert -1 <= k <= 1;
    OffsetIn(b, base, k + 1);
    assert WEEKS[k + 1] == 7 * k;
  }

  lemma ClashIsSymmetric(a: ScheduleItem, b: ScheduleItem)
    ensures Clash(a, b) <==> Clash(b, a)
  {
    if d, e :| ClashOn(a, b, d, e) {
      assert ClashOn(b, a, e, d);
    }
    if d, e :| ClashOn(b, a, d, e) {
      assert ClashOn(a, b, e, d);
    }
  }

  /** The same search with the roles exchanged, for a weekly item against a dated one. */
  lemma MixedClashIsFound(a: ScheduleItem, b: ScheduleItem, d: int, e: int)
    requires ValidItem(a) && ValidItem(b) && a.Weekly? && b.Dated? && ClashOn(a, b, d, e)
    ensures ItemsConflict(a, b)
  {
    OverlapIsNear(a, b, d, e);
    NearWeekdayIsListed(a, b.date, d);
    assert WindowOn(b.date, b) in ItemIntervals(b, Some(b.date));
  }

  /** Each window that the program builds is some week of its item. */
  lemma ListedIsAnOccurrence(item: ScheduleItem, anchor: Option<int>, window: Interval) returns (day: int, k: int)
    requires ValidItem(item) && window in ItemIntervals(item, anchor)
    ensures window == WindowOn(day, item)
    ensures anchor.Some? ==> OccursOn(item, day)
    ensures anchor.None? && item.Weekly? ==> day == item.dow + 7 * k
  {
    if item.Dated? {
      day, k := item.date, 0;
    } else {
      var base := if anchor.None? then item.dow else anchor.value - DayOfWeek(anchor.value) + item.dow;
      var i :| 0 <= i < 3 && WeekOffsets(item, base)[i] == window;
      day, k := base + WEEKS[i], i - 1;
      assert day == base + 7 * k;
      if anchor.Some? {
        SameWeekday(anchor.value, item.dow, k);
      }
    }
  }

  /** Day 3 is a Sunday: moving by three days turns weekday numbers into days of that weekday. */
  lemma WeekdayNumbersClash(a: ScheduleItem, b: ScheduleItem, k: int, m: int)
    requires ValidItem(a) && ValidItem(b) && a.Weekly? && b.Weekly?
    requires Overlaps(WindowOn(a.dow + 7 * k, a), WindowOn(b.dow + 7 * m, b))
    ensures Clash(a, b)
  {
    ShiftOverlap(a, b, a.dow + 7 * k, b.dow + 7 * m, 3);
    SameWeekday(3, a.dow, k);
    SameWeekday(3, b.dow, m);
    assert ClashOn(a, b, a.dow + 7 * k + 3, b.dow + 7 * m + 3);
  }

  lemma FoundIsAClash(a: ScheduleItem, b: ScheduleItem)
    requires ValidItem(a) && ValidItem(b) && ItemsConflict(a, b)
    ensures Clash(a, b)
  {
    var anchor := AnchorOf(a, b);
    var left, right :| left in ItemIntervals(a, anchor) && right in ItemIntervals(b, anchor) && Overlaps(left, right);
    var d, k := ListedIsAnOccurrence(a, anchor, left);
    var e, m := ListedIsAnOccurrence(b, anchor, right);
    if anchor.Some? {
      assert ClashOn(a, b, d, e);
    } else {
      WeekdayNumbersClash(a, b, k, m);
    }
  }

  /** The bounded search finds a conflict exactly when the infinite calendar has one. */
  lemma ConflictIsClash(a: ScheduleItem, b: ScheduleItem)
    requires ValidItem(a) && ValidItem(b)
    ensures ItemsConflict(a, b) <==> Clash(a, b)
  {
    if ItemsConflict(a, b) {
      FoundIsAClash(a, b);
    }
    if d, e :| ClashOn(a, b, d, e) {
      if a.Dated? {
        DatedClashIsFound(a, b, d, e);
      } else if b.Dated? {
        MixedClashIsFound(a, b, d, e);
      } else {
        WeeklyClashIsFound(a, b, d, e);
      }
    }
  }

  lemma ConflictIsSymmetric(a: ScheduleItem, b: ScheduleItem)
    requires ValidItem(a) && ValidItem(b)
    ensures ItemsConflict(a, b) <==> ItemsConflict(b, a)
  {
    ConflictIsClash(a, b);
    ConflictIsClash(b, a);
    ClashIsSymmetric(a, b);
  }

  ghost predicate SchedulesClash(a: seq<ScheduleItem>, b: seq<ScheduleItem>) {
    exists left, right | left in a && right in b :: Clash(left, right)
  }

  lemma SchedulesConflictIsClash(a: seq<ScheduleItem>, b: seq<ScheduleItem>)
    requires ValidSchedule(a) && ValidSchedule(b)
    ensures SchedulesConflict(a, b) <==> SchedulesClash(a, b)
  {
    forall left, right | left in a && right in b ensures ItemsConflict(left, right) <==> Clash(left, right) {
      ConflictIsClash(left, right);
    }
  }

  // ----- Offers -----

  function OfferItems(r: Recurrence, start: int, end: int): (items: seq<ScheduleItem>) {
    match r
    case Dates(dates) => seq(|dates|, i requires 0 <= i < |dates| => Dated(dates[i], start, end))
    case OnDays(days) => seq(|days|, i requires 0 <= i < |days| => Weekly(days[i], start, end))
  }

  ghost predicate Distinct(xs: seq<int>) {
    forall i, j | 0 <= i < j < |xs| :: xs[i] != xs[j]
  }

  predicate HasInternalConflict(schedule: seq<ScheduleItem>) {
    exists i, j | 0 <= i < j < |schedule| :: ItemsConflict(schedule[i], schedule[j])
  }

  /** An offer that names no day twice never collides with itself, even when each window lasts into the next day. */
  lemma OfferHasNoInternalConflict(r: Recurrence, start: int, end: int)
    requires 0 <= start < DAY && 0 <= end < DAY
    requires match r case Dates(dates) => Distinct(dates)
                     case OnDays(days) => Distinct(days) && forall d | d in days :: 0 <= d < 7
    ensures !HasInternalConflict(OfferItems(r, start, end))
  {
    var items := OfferItems(r, start, end);
    forall i, j | 0 <= i < j < |items| ensures !ItemsConflict(items[i], items[j]) {
      if r.OnDays? {
        assert r.days[i] in r.days && r.days[j] in r.days;
      }
      ConflictIsClash(items[i], items[j]);
      if d, e :| ClashOn(items[i], items[j], d, e) {
        SameWindowOnOtherDay(items[i], items[j], d, e);
        assert false;
      }
    }
  }

  lemma SameWindowOnOtherDay(a: ScheduleItem, b: ScheduleItem, d: int, e: int)
    requires ValidItem(a) && ValidItem(b) && a.start == b.start && a.end == b.end
    requires Overlaps(WindowOn(d, a), WindowOn(e, b))
    ensures d == e
  {
    OverlapIsNear(a, b, d, e);
  }

  // ----- Occurrences as instants -----

  datatype Occurrence = Occurrence(workDate: int, item: ScheduleItem, startAt: int, endAt: int)

  function InstantOn(day: int, minute: int): int {
    day * DAY_MS + minute * MINUTE_MS + UTC_OFFSET_MS
  }

  function LocalDay(now: int): int {
    (now - UTC_OFFSET_MS) / DAY_MS
  }

  function FirstOn(schedule: seq<ScheduleItem>, day: int): (r: Option<ScheduleItem>)
    ensures r.Some? ==> r.value in schedule && OccursOn(r.value, day)
    ensures r.None? <==> forall item | item in schedule :: !OccursOn(item, day)
  {
    if |schedule| == 0 then None
    else if OccursOn(schedule[0], day) then Some(schedule[0])
    else FirstOn(schedule[1..], day)
  }

  function OccurrenceFor(schedule: seq<ScheduleItem>, workDate: int): Option<Occurrence> {
    var item := FirstOn(schedule, workDate);
    if item.None? then None
    else
      var endDay := if item.value.end <= item.value.start then workDate + 1 else workDate;
      Some(Occurrence(workDate, item.value, InstantOn(workDate, item.value.start), InstantOn(endDay, item.value.end)))
  }

  /**
   * The instants of an occurrence are its calendar window, which begins and ends at the item's times of day and
   * lasts more than nothing and at most a day.
   */
  lemma OccurrenceIsItsWindow(schedule: seq<ScheduleItem>, workDate: int)
    requires ValidSchedule(schedule) && OccurrenceFor(schedule, workDate).Some?
    ensures var o := OccurrenceFor(schedule, workDate).value;
            var w := WindowOn(workDate, o.item);
            && OccursOn(o.item, workDate)
            && o.startAt == w.from * MINUTE_MS + UTC_OFFSET_MS && o.endAt == w.to * MINUTE_MS + UTC_OFFSET_MS
            && w.from % DAY == o.item.start && w.to % DAY == o.item.end && 0 < w.to - w.from <= DAY
  {
    var item := OccurrenceFor(schedule, workDate).value.item;
    var nextDay := if item.end <= item.start then 1 else 0;
    TimeOfDay(workDate, item.start);
    TimeOfDay(workDate + nextDay, item.end);
  }

  lemma TimeOfDay(day: int, minute: int)
    requires 0 <= minute < DAY
    ensures (day * DAY + minute) % DAY == minute
  {
  }

  predicate Startable(schedule: seq<ScheduleItem>, workDate: int, now: int, tolerance: int) {
    var o := OccurrenceFor(schedule, workDate);
    && o.Some?
    && o.value.startAt - tolerance * MINUTE_MS <= now <= o.value.startAt + tolerance * MINUTE_MS
    && now < o.value.endAt
  }

  /** Only yesterday, today and tomorrow are looked at, in this order. */
  function FindStartOccurrence(schedule: seq<ScheduleItem>, now: int, tolerance: int): (r: Option<Occurrence>) {
    var today := LocalDay(now);
    if Startable(schedule, today - 1, now, tolerance) then OccurrenceFor(schedule, today - 1)
    else if Startable(schedule, today, now, tolerance) then OccurrenceFor(schedule, today)
    else if Startable(schedule, today + 1, now, tolerance) then OccurrenceFor(schedule, today + 1)
    else None
  }

  lemma StartableIsNear(schedule: seq<ScheduleItem>, day: int, now: int, tolerance: int)
    requires ValidSchedule(schedule) && tolerance <= DAY && Startable(schedule, day, now, tolerance)
    ensures LocalDay(now) - 1 <= day <= LocalDay(now) + 1
  {
  }

  /** With a tolerance of up to a day, three days are enough: the result is the first startable day of all time. */
  lemma ThreeDaysAreEnough(schedule: seq<ScheduleItem>, now: int, tolerance: int)
    requires ValidSchedule(schedule) && tolerance <= DAY
    ensures FindStartOccurrence(schedule, now, tolerance).Some? <==> exists d :: Startable(schedule, d, now, tolerance)
    ensures var r := FindStartOccurrence(schedule, now, tolerance);
            r.Some? ==>
              && Startable(schedule, r.value.workDate, now, tolerance)
              && (forall d | Startable(schedule, d, now, tolerance) :: r.value.workDate <= d)
  {
    forall d | Startable(schedule, d, now, tolerance)
      ensures LocalDay(now) - 1 <= d <= LocalDay(now) + 1
    {
      StartableIsNear(schedule, d, now, tolerance);
    }
  }

  /** With any tolerance of more than a day the search misses a startable day. */
  lemma LargerToleranceMissesADay(tolerance: int)
    requires tolerance > DAY
    ensures var schedule, now := [Dated(2, 0, 1)], InstantOn(0, DAY - 1);
            && ValidSchedule(schedule)
            && Startable(schedule, 2, now, tolerance)
            && FindStartOccurrence(schedule, now, tolerance).None?
  {
    var schedule, now := [Dated(2, 0, 1)], InstantOn(0, DAY - 1);
    assert FirstOn(schedule, 2) == Some(schedule[0]);
    assert LocalDay(now) == 0;
    assert FirstOn(schedule, -1) == None && FirstOn(schedule, 0) == None && FirstOn(schedule, 1) == None;
  }

  /** The search finds an occurrence whenever there is one to start. */
  ghost predicate MissesNothing(tolerance: int) {
    forall schedule, now | ValidSchedule(schedule) && (exists d :: Startable(schedule, d, now, tolerance)) ::
      FindStartOccurrence(schedule, now, tolerance).Some?
  }

  /** The tolerances for which three days are enough are exactly those of up to a day. */
  lemma ThreeDaysAreEnoughExactly(tolerance: int)
    ensures MissesNothing(tolerance) <==> tolerance <= DAY
  {
    if tolerance <= DAY {
      forall schedule, now | ValidSchedule(schedule) && (exists d :: Startable(schedule, d, now, tolerance))
        ensures FindStartOccurrence(schedule, now, tolerance).Some?
      {
        ThreeDaysAreEnough(schedule, now, tolerance);
      }
    } else {
      LargerToleranceMissesADay(tolerance);
    }
  }

  /** The end of the last dated window; `None` for a schedule without dates. */
  function DatedExpiry(schedule: seq<ScheduleItem>): Option<int> {
    if |schedule| == 0 then None
    else
      var rest := DatedExpiry(schedule[1..]);
      if !schedule[0].Dated? then rest
      else
        var end := OccurrenceFor([schedule[0]], schedule[0].date).value.endAt;
        if rest.Some? && rest.value > end then rest else Some(end)
  }

  /** No dated window of the schedule ends after its expiry, and one ends exactly then. */
  lemma {:induction false} ExpiryIsTheLastEnd(schedule: seq<ScheduleItem>)
    ensures DatedExpiry(schedule).None? <==> forall item | item in schedule :: item.Weekly?
    ensures forall item | item in schedule && item.Dated? ::
              DatedExpiry(schedule).Some?
              && OccurrenceFor([item], item.date).Some?
              && OccurrenceFor([item], item.date).value.endAt <= DatedExpiry(schedule).value
    ensures DatedExpiry(schedule).Some? ==>
              exists item | item in schedule && item.Dated? ::
                OccurrenceFor([item], item.date).Some?
                && OccurrenceFor([item], item.date).value.endAt == DatedExpiry(schedule).value
  {
    if |schedule| > 0 {
      ExpiryIsTheLastEnd(schedule[1..]);
      assert schedule[0] in schedule;
      assert forall item | item in schedule :: item == schedule[0] || item in schedule[1..];
      assert forall item | item in schedule[1..] :: item in schedule;
    }
  }
}

/**
 * The calendar screen's state holder: the selected date and the events listed for it. Each
 * listing keeps, in their stored order, the events whose start time falls in a half-open
 * window: the selected day, the week holding a date, or the month holding a date.
 */
module CalendarViewModel {
  import opened Text
  import opened Clock
  import opened CalendarEvents

  /** The events of `events` that start in `[from, until)`, in their order in `events`. */
  function StartingIn(events: seq<Event>, from: int, until: int): (r: seq<Event>)
    ensures |r| <= |events|
    ensures forall e :: e in r <==> e in events && from <= e.startTime < until
    ensures multiset(r) <= multiset(events)
  {
    if events == [] then []
    else
      var rest := StartingIn(events[1..], from, until);
      assert events == [events[0]] + events[1..];
      if from <= events[0].startTime < until then [events[0]] + rest else rest
  }

  /** The filter looks at the first event and then filters the rest. */
  lemma StartingInCons(x: Event, s: seq<Event>, from: int, until: int)
    ensures StartingIn([x] + s, from, until)
         == (if from <= x.startTime < until then [x] else []) + StartingIn(s, from, until)
  {
    assert ([x] + s)[1..] == s;
  }

  /** Filtering a concatenation filters each part and keeps them in order: the filter never reorders. */
  lemma {:induction false} StartingInAppend(a: seq<Event>, b: seq<Event>, from: int, until: int)
    ensures StartingIn(a + b, from, until) == StartingIn(a, from, until) + StartingIn(b, from, until)
  {
    if a != [] {
      var x, t := a[0], a[1..];
      assert a == [x] + t && a + b == [x] + (t + b);
      StartingInAppend(t, b, from, until);
      StartingInCons(x, t + b, from, until);
      StartingInCons(x, t, from, until);
    } else {
      assert a + b == b;
    }
  }

  /** Filtering by a window inside another window keeps a part of what the larger window keeps. */
  lemma {:induction false} NarrowerWindow(events: seq<Event>, from: int, until: int, from': int, until': int)
    requires from' <= from && until <= until'
    ensures StartingIn(events, from, until) == StartingIn(StartingIn(events, from', until'), from, until)
  {
    if events != [] {
      NarrowerWindow(events[1..], from, until, from', until');
    }
  }

  /** `allEvents.value?.filter { … } ?: emptyList()`: nothing is listed before the events are loaded. */
  function Listed(allEvents: Option<seq<Event>>, from: int, until: int): (r: seq<Event>)
    ensures allEvents.None? ==> r == []
    ensures allEvents.Some? ==> r == StartingIn(allEvents.value, from, until)
  {
    match allEvents
    case None => []
    case Some(events) => StartingIn(events, from, until)
  }

  datatype Window = Window(from: int, until: int)

  /** The local day holding `date`. */
  function DayWindow(date: int, zone: int): (w: Window)
    ensures IsMidnight(w.from, zone) && w.until == w.from + DAY
    ensures w.from <= date < w.until
  {
    var start := StartOfDay(date, zone);
    Window(start, start + DAY)
  }

  /** The week holding `date`, starting on `firstDayOfWeek` (1 = Sunday ... 7 = Saturday). */
  function WeekWindow(date: int, zone: int, firstDayOfWeek: int): (w: Window)
    requires 1 <= firstDayOfWeek <= 7
    ensures IsMidnight(w.from, zone) && w.until == w.from + WEEK
    ensures w.from <= date < w.until
  {
    var start := StartOfWeek(date, zone, firstDayOfWeek);
    Window(start, start + WEEK)
  }

  /**
   * The month holding `date`, which is day `dayOfMonth` of a month of `daysInMonth` days:
   * from midnight of the first to midnight of the first of the next month.
   */
  function MonthWindow(date: int, zone: int, dayOfMonth: int, daysInMonth: int): (w: Window)
    requires 1 <= dayOfMonth <= daysInMonth
    ensures IsMidnight(w.from, zone) && w.until == w.from + daysInMonth * DAY
    ensures w.from <= date < w.until
  {
    var start := StartOfDay(date, zone) - (dayOfMonth - 1) * DAY;
    assert IsMidnight(start, zone) by {
      var d := (date + zone) / DAY;
      assert StartOfDay(date, zone) + zone == d * DAY;
      assert start + zone == (d - (dayOfMonth - 1)) * DAY;
    }
    Window(start, start + daysInMonth * DAY)
  }

  /** The day of a date lies inside the week of that date. */
  lemma DayInsideWeek(date: int, zone: int, firstDayOfWeek: int)
    requires 1 <= firstDayOfWeek <= 7
    ensures WeekWindow(date, zone, firstDayOfWeek).from <= DayWindow(date, zone).from
    ensures DayWindow(date, zone).until <= WeekWindow(date, zone, firstDayOfWeek).until
  {
    var d := (date + zone) / DAY;
    var w := WeekWindow(date, zone, firstDayOfWeek);
    assert DayWindow(date, zone).from + zone == d * DAY;
    var k := (w.from + zone) / DAY;
    assert w.from + zone == k * DAY;
  }

  /** The day of a date lies inside the month of that date. */
  lemma DayInsideMonth(date: int, zone: int, dayOfMonth: int, daysInMonth: int)
    requires 1 <= dayOfMonth <= daysInMonth
    ensures MonthWindow(date, zone, dayOfMonth, daysInMonth).from <= DayWindow(date, zone).from
    ensures DayWindow(date, zone).until <= MonthWindow(date, zone, dayOfMonth, daysInMonth).until
  {
  }

  /** So the day listing of a date is exactly the week listing of that date narrowed to the day. */
  lemma DayListingNarrowsWeekListing(events: seq<Event>, date: int, zone: int, firstDayOfWeek: int)
    requires 1 <= firstDayOfWeek <= 7
    ensures var d := DayWindow(date, zone);
            var w := WeekWindow(date, zone, firstDayOfWeek);
            StartingIn(events, d.from, d.until) == StartingIn(StartingIn(events, w.from, w.until), d.from, d.until)
  {
    DayInsideWeek(date, zone, firstDayOfWeek);
    var d := DayWindow(date, zone);
    var w := WeekWindow(date, zone, firstDayOfWeek);
    NarrowerWindow(events, d.from, d.until, w.from, w.until);
  }

  class CalendarViewModel {
    const zone: int
    /** The stored events, once loaded. */
    var allEvents: Option<seq<Event>>
    var selectedDate: int
    var selectedDateEvents: seq<Event>

    /** Selects `now` and lists its day, as the observer on the selected date does at once. */
    constructor (zone: int, now: int, allEvents: Option<seq<Event>>)
      ensures this.zone == zone && this.allEvents == allEvents && selectedDate == now
      ensures selectedDateEvents == Listed(allEvents, DayWindow(now, zone).from, DayWindow(now, zone).until)
    {
      this.zone := zone;
      this.allEvents := allEvents;
      selectedDate := now;
      var w := DayWindow(now, zone);
      selectedDateEvents := Listed(allEvents, w.from, w.until);
    }

    /** The events finish loading; the listing is not refreshed by this. */
    method EventsLoaded(events: seq<Event>)
      modifies this
      ensures allEvents == Some(events)
      ensures selectedDate == old(selectedDate) && selectedDateEvents == old(selectedDateEvents)
    {
      allEvents := Some(events);
    }

    /** Selecting a date reloads the listing for that date's day. */
    method SetSelectedDate(date: int)
      modifies this
      ensures selectedDate == date && allEvents == old(allEvents)
      ensures selectedDateEvents == Listed(allEvents, DayWindow(date, zone).from, DayWindow(date, zone).until)
    {
      selectedDate := date;
      LoadEventsForDate(date);
    }

    method LoadEventsForDate(date: int)
      modifies this
      ensures selectedDateEvents == Listed(allEvents, DayWindow(date, zone).from, DayWindow(date, zone).until)
      ensures selectedDate == old(selectedDate) && allEvents == old(allEvents)
    {
      var w := DayWindow(date, zone);
      selectedDateEvents := Listed(allEvents, w.from, w.until);
    }

    method LoadEventsForWeek(dateInWeek: int, firstDayOfWeek: int)
      requires 1 <= firstDayOfWeek <= 7
      modifies this
      ensures var w := WeekWindow(dateInWeek, zone, firstDayOfWeek);
              selectedDateEvents == Listed(allEvents, w.from, w.until)
      ensures selectedDate == old(selectedDate) && allEvents == old(allEvents)
    {
      var w := WeekWindow(dateInWeek, zone, firstDayOfWeek);
      selectedDateEvents := Listed(allEvents, w.from, w.until);
    }

    method LoadEventsForMonth(dateInMonth: int, dayOfMonth: int, daysInMonth: int)
      requires 1 <= dayOfMonth <= daysInMonth
      modifies this
      ensures var w := MonthWindow(dateInMonth, zone, dayOfMonth, daysInMonth);
              selectedDateEvents == Listed(allEvents, w.from, w.until)
      ensures selectedDate == old(selectedDate) && allEvents == old(allEvents)
    {
      var w := MonthWindow(dateInMonth, zone, dayOfMonth, daysInMonth);
      selectedDateEvents := Listed(allEvents, w.from, w.until);
    }
  }
}

/**
 * The month grid: six weeks of seven days, starting with the tail of the previous month so
 * that the first of the month falls in its weekday column, then the month itself, then the
 * head of the next month. A day cell shows an event marker when an event starts on that day.
 */
module CalendarAdapter {
  import opened Text
  import opened Clock
  import opened CalendarEvents
  import CalendarViewModel

  const GRID_CELLS: int := 42

  /**
   * What the grid needs to know about the displayed month: local midnight of its first day,
   * the weekday of that day counted from 0 (Sunday) to 6, its length and the previous month's length.
   */
  datatype MonthShape = MonthShape(firstMidnight: int, firstDayOfWeek: int, daysInMonth: int, daysInPrevMonth: int)

  predicate ValidShape(m: MonthShape) {
    && 0 <= m.firstDayOfWeek <= 6
    && 28 <= m.daysInMonth <= 31
    && 28 <= m.daysInPrevMonth <= 31
  }

  /** A cell: a day of the previous (-1), displayed (0) or next (1) month. */
  datatype CalendarDay = CalendarDay(monthOffset: int, dayOfMonth: int, isCurrentMonth: bool)

  function Leading(m: MonthShape): seq<CalendarDay>
    requires ValidShape(m)
  {
    seq(m.firstDayOfWeek, i requires 0 <= i < m.firstDayOfWeek =>
      CalendarDay(-1, m.daysInPrevMonth - m.firstDayOfWeek + i + 1, false))
  }

  function Current(m: MonthShape): seq<CalendarDay>
    requires ValidShape(m)
  {
    seq(m.daysInMonth, i requires 0 <= i < m.daysInMonth => CalendarDay(0, i + 1, true))
  }

  function Trailing(m: MonthShape): seq<CalendarDay>
    requires ValidShape(m)
  {
    var n := GRID_CELLS - m.firstDayOfWeek - m.daysInMonth;
    seq(if n > 0 then n else 0, i requires 0 <= i => CalendarDay(1, i + 1, false))
  }

  function MonthGrid(m: MonthShape): seq<CalendarDay>
    requires ValidShape(m)
  {
    Leading(m) + Current(m) + Trailing(m)
  }

  /** Local midnight starting the day a cell stands for. */
  function CellStart(m: MonthShape, c: CalendarDay): int {
    if c.monthOffset < 0 then m.firstMidnight - (m.daysInPrevMonth - c.dayOfMonth + 1) * DAY
    else if c.monthOffset == 0 then m.firstMidnight + (c.dayOfMonth - 1) * DAY
    else m.firstMidnight + (m.daysInMonth + c.dayOfMonth - 1) * DAY
  }

  /**
   * The grid has 42 cells; the displayed month's days 1 to daysInMonth sit, in order, right after
   * the `firstDayOfWeek` leading cells and are the only current-month cells; the leading cells
   * are the previous month's last days and the trailing cells the next month's first days.
   */
  lemma GridLayout(m: MonthShape)
    requires ValidShape(m)
    ensures |MonthGrid(m)| == GRID_CELLS
    ensures forall i :: 0 <= i < GRID_CELLS ==>
              (MonthGrid(m)[i].isCurrentMonth <==> m.firstDayOfWeek <= i < m.firstDayOfWeek + m.daysInMonth)
    ensures forall i :: 0 <= i < GRID_CELLS && i < m.firstDayOfWeek ==>
              MonthGrid(m)[i] == CalendarDay(-1, m.daysInPrevMonth - m.firstDayOfWeek + i + 1, false)
    ensures forall d :: 1 <= d <= m.daysInMonth ==> MonthGrid(m)[m.firstDayOfWeek + d - 1] == CalendarDay(0, d, true)
    ensures forall i :: m.firstDayOfWeek + m.daysInMonth <= i < GRID_CELLS ==>
              MonthGrid(m)[i] == CalendarDay(1, i - m.firstDayOfWeek - m.daysInMonth + 1, false)
  {
  }

  /** The 42 cells are 42 consecutive days, the first of the month in column `firstDayOfWeek`. */
  lemma CellsAreConsecutiveDays(m: MonthShape, i: int)
    requires ValidShape(m) && 0 <= i < GRID_CELLS
    ensures CellStart(m, MonthGrid(m)[i]) == m.firstMidnight + (i - m.firstDayOfWeek) * DAY
  {
    GridLayout(m);
  }

  /** Whether some event starts between the day's first and last millisecond, both included. */
  function HasEvents(events: seq<Event>, dayStart: int): (r: bool)
    ensures r <==> exists e :: e in events && dayStart <= e.startTime <= dayStart + DAY - 1
  {
    if events == [] then false
    else
      assert events == [events[0]] + events[1..];
      (dayStart <= events[0].startTime <= dayStart + DAY - 1) || HasEvents(events[1..], dayStart)
  }

  /** A day's marker shows exactly when the day's listing in the calendar screen would not be empty. */
  lemma MarkerAgreesWithDayListing(events: seq<Event>, dayStart: int)
    ensures HasEvents(events, dayStart) <==> CalendarViewModel.StartingIn(events, dayStart, dayStart + DAY) != []
  {
    var listed := CalendarViewModel.StartingIn(events, dayStart, dayStart + DAY);
    if HasEvents(events, dayStart) {
      var e :| e in events && dayStart <= e.startTime <= dayStart + DAY - 1;
      assert e in listed;
    }
  }

  class CalendarAdapter {
    var month: MonthShape
    var events: seq<Event>
    var selectedDate: Option<int>
    var days: seq<CalendarDay>

    ghost predicate Valid()
      reads this
    {
      ValidShape(month) && days == MonthGrid(month)
    }

    constructor (month: MonthShape, events: seq<Event>)
      requires ValidShape(month)
      ensures Valid() && this.month == month && this.events == events && selectedDate.None?
    {
      this.month := month;
      this.events := events;
      selectedDate := None;
      days := [];
      new;
      CalculateDays();
    }

    /** Empties the cell list and refills it: leading days, the month, then trailing days up to 42 cells. */
    method CalculateDays()
      requires ValidShape(month)
      modifies this
      ensures Valid()
      ensures month == old(month) && events == old(events) && selectedDate == old(selectedDate)
    {
      var cells := [];
      var firstDayOfWeek := month.firstDayOfWeek;
      var daysInPrevMonth := month.daysInPrevMonth;
      for i := 0 to firstDayOfWeek
        invariant cells == Leading(month)[..i]
      {
        cells := cells + [CalendarDay(-1, daysInPrevMonth - firstDayOfWeek + i + 1, false)];
      }
      assert Leading(month)[..firstDayOfWeek] == Leading(month);
      var daysInMonth := month.daysInMonth;
      for i := 1 to daysInMonth + 1
        invariant cells == Leading(month) + Current(month)[..i - 1]
      {
        cells := cells + [CalendarDay(0, i, true)];
      }
      assert Current(month)[..daysInMonth] == Current(month);
      var remainingCells := GRID_CELLS - |cells|;
      for i := 1 to remainingCells + 1
        invariant cells == Leading(month) + Current(month) + Trailing(month)[..i - 1]
      {
        cells := cells + [CalendarDay(1, i, false)];
      }
      assert Trailing(month)[..remainingCells] == Trailing(month);
      days := cells;
    }

    method UpdateMonth(month: MonthShape)
      requires ValidShape(month)
      modifies this
      ensures Valid() && this.month == month && events == old(events) && selectedDate == old(selectedDate)
    {
      this.month := month;
      CalculateDays();
    }

    method UpdateEvents(newEvents: seq<Event>)
      modifies this
      ensures events == newEvents && month == old(month) && days == old(days) && selectedDate == old(selectedDate)
    {
      events := newEvents;
    }

    method SetSelectedDate(date: int)
      modifies this
      ensures selectedDate == Some(date) && month == old(month) && days == old(days) && events == old(events)
    {
      selectedDate := Some(date);
    }

    /** The number of cells, which is always six weeks' worth. */
    function ItemCount(): (n: int)
      requires Valid()
      reads this
      ensures n == GRID_CELLS
    {
      GridLayout(month);
      |days|
    }

    /** Whether the cell at `position` shows the event marker. */
    method EventIndicator(position: int) returns (visible: bool)
      requires Valid() && 0 <= position < GRID_CELLS
      ensures visible <==> exists e :: e in events && CellStart(month, days[position]) <= e.startTime
                                                   && e.startTime < CellStart(month, days[position]) + DAY
    {
      GridLayout(month);
      visible := HasEvents(events, CellStart(month, days[position]));
    }
  }
}

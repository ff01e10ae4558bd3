/**
 * The Gantt chart: events sorted by start time, one row per event labelled with its title and
 * carrying its start and end, and a time axis from the earliest start to a day past the latest end.
 */
module Gantt {
  import opened Clock
  import opened Sorting
  import opened CalendarEvents

  const LONG_MAX: int := 0x7FFF_FFFF_FFFF_FFFF
  const LONG_MIN: int := -0x8000_0000_0000_0000

  function StartKey(e: Event): int {
    e.startTime
  }

  /** A bar: the row index and the time range it spans. */
  datatype BarEntry = BarEntry(row: int, from: int, to: int)

  function Min(a: int, b: int): int {
    if a <= b then a else b
  }

  function Max(a: int, b: int): int {
    if a >= b then a else b
  }

  /** The running minimum of the starts, from `Long.MAX_VALUE`. */
  function MinStart(s: seq<Event>): int
  {
    if s == [] then LONG_MAX
    else
      var init := s[..|s| - 1];
      assert s == init + [s[|s| - 1]];
      Min(MinStart(init), s[|s| - 1].startTime)
  }

  /** The running maximum of the ends, from `Long.MIN_VALUE`. */
  function MaxEnd(s: seq<Event>): int
  {
    if s == [] then LONG_MIN
    else
      var init := s[..|s| - 1];
      assert s == init + [s[|s| - 1]];
      Max(MaxEnd(init), s[|s| - 1].endTime)
  }

  /** The running minimum is at most every start, and `Long.MAX_VALUE` for no events. */
  lemma {:induction false} MinStartBelow(s: seq<Event>)
    ensures forall e :: e in s ==> MinStart(s) <= e.startTime
    ensures s == [] ==> MinStart(s) == LONG_MAX
  {
    if s != [] {
      var init := s[..|s| - 1];
      assert s == init + [s[|s| - 1]];
      MinStartBelow(init);
    }
  }

  /** The running maximum is at least every end, and `Long.MIN_VALUE` for no events. */
  lemma {:induction false} MaxEndAbove(s: seq<Event>)
    ensures forall e :: e in s ==> e.endTime <= MaxEnd(s)
    ensures s == [] ==> MaxEnd(s) == LONG_MIN
  {
    if s != [] {
      var init := s[..|s| - 1];
      assert s == init + [s[|s| - 1]];
      MaxEndAbove(init);
    }
  }

  /** Over `Long` times, the running minimum of a non-empty list is one of its starts. */
  lemma {:induction false} MinStartAttained(s: seq<Event>)
    requires s != [] && InLongRange(s)
    ensures exists e :: e in s && MinStart(s) == e.startTime
  {
    var init, last := s[..|s| - 1], s[|s| - 1];
    assert s == init + [last];
    assert MinStart(s) == Min(MinStart(init), last.startTime);
    assert last in s;
    if init != [] {
      MinStartAttained(init);
      var e :| e in init && MinStart(init) == e.startTime;
      assert e in s;
    } else {
      assert MinStart(init) == LONG_MAX;
    }
  }

  /** Over `Long` times, the running maximum of a non-empty list is one of its ends. */
  lemma {:induction false} MaxEndAttained(s: seq<Event>)
    requires s != [] && InLongRange(s)
    ensures exists e :: e in s && MaxEnd(s) == e.endTime
  {
    var init, last := s[..|s| - 1], s[|s| - 1];
    assert s == init + [last];
    assert MaxEnd(s) == Max(MaxEnd(init), last.endTime);
    assert last in s;
    if init != [] {
      MaxEndAttained(init);
      var e :| e in init && MaxEnd(init) == e.endTime;
      assert e in s;
    } else {
      assert MaxEnd(init) == LONG_MIN;
    }
  }

  /** Times are `Long` values. */
  predicate InLongRange(events: seq<Event>) {
    forall e :: e in events ==> LONG_MIN <= e.startTime <= LONG_MAX && LONG_MIN <= e.endTime <= LONG_MAX
  }

  /** Reordering keeps every time a `Long`. */
  lemma InLongRangeOfPermutation(s: seq<Event>, t: seq<Event>)
    requires multiset(s) == multiset(t) && InLongRange(t)
    ensures InLongRange(s)
  {
    forall e | e in s ensures e in t {
      assert e in multiset(s);
    }
  }

  /** The earliest start is the same however the events are ordered. */
  lemma MinStartIgnoresOrder(s: seq<Event>, t: seq<Event>)
    requires multiset(s) == multiset(t) && InLongRange(s)
    ensures MinStart(s) == MinStart(t)
  {
    if s != [] {
      assert t != [] by { assert |t| == |multiset(t)| == |multiset(s)| == |s|; }
      MinStartAttained(s);
      InLongRangeOfPermutation(t, s);
      MinStartAttained(t);
    }
    MinStartBelow(s);
    MinStartBelow(t);
    assert forall e :: e in s <==> e in t by {
      forall e ensures e in s <==> e in t {
        assert e in s <==> e in multiset(s);
        assert e in t <==> e in multiset(t);
      }
    }
  }

  /** The latest end is the same however the events are ordered. */
  lemma MaxEndIgnoresOrder(s: seq<Event>, t: seq<Event>)
    requires multiset(s) == multiset(t) && InLongRange(s)
    ensures MaxEnd(s) == MaxEnd(t)
  {
    if s != [] {
      assert t != [] by { assert |t| == |multiset(t)| == |multiset(s)| == |s|; }
      MaxEndAttained(s);
      InLongRangeOfPermutation(t, s);
      MaxEndAttained(t);
    }
    MaxEndAbove(s);
    MaxEndAbove(t);
    assert forall e :: e in s <==> e in t by {
      forall e ensures e in s <==> e in t {
        assert e in s <==> e in multiset(s);
        assert e in t <==> e in multiset(t);
      }
    }
  }

  /** In a list sorted by start, the earliest start is the first one. */
  lemma MinStartOfSorted(s: seq<Event>)
    requires s != [] && SortedBy(s, StartKey) && InLongRange(s)
    ensures MinStart(s) == s[0].startTime
  {
    MinStartAttained(s);
    MinStartBelow(s);
    assert s[0] in s;
    assert forall e :: e in s ==> s[0].startTime <= e.startTime by {
      forall e | e in s ensures s[0].startTime <= e.startTime {
        var k :| 0 <= k < |s| && s[k] == e;
        assert StartKey(s[0]) <= StartKey(s[k]) || k == 0;
      }
    }
  }

  /** One more event moves the running minimum and maximum by that event alone. */
  lemma RunningStep(s: seq<Event>, index: int)
    requires 0 <= index < |s|
    ensures MinStart(s[..index + 1]) == Min(MinStart(s[..index]), s[index].startTime)
    ensures MaxEnd(s[..index + 1]) == Max(MaxEnd(s[..index]), s[index].endTime)
  {
    var seen := s[..index + 1];
    assert seen[..|seen| - 1] == s[..index];
  }

  /**
   * The `forEachIndexed` pass over the sorted events: one label and one bar per event, and the
   * running minimum start and maximum end.
   */
  method PlotRows(sortedEvents: seq<Event>)
    returns (labels: seq<string>, bars: seq<BarEntry>, minStartTime: int, maxEndTime: int)
    ensures |labels| == |bars| == |sortedEvents|
    ensures forall i :: 0 <= i < |sortedEvents| ==> labels[i] == sortedEvents[i].title
    ensures forall i :: 0 <= i < |sortedEvents| ==> bars[i] == BarEntry(i, sortedEvents[i].startTime, sortedEvents[i].endTime)
    ensures minStartTime == MinStart(sortedEvents) && maxEndTime == MaxEnd(sortedEvents)
  {
    labels := [];
    bars := [];
    minStartTime := LONG_MAX;
    maxEndTime := LONG_MIN;
    for index := 0 to |sortedEvents|
      invariant |labels| == |bars| == index
      invariant forall i :: 0 <= i < index ==> labels[i] == sortedEvents[i].title
      invariant forall i :: 0 <= i < index ==> bars[i] == BarEntry(i, sortedEvents[i].startTime, sortedEvents[i].endTime)
      invariant minStartTime == MinStart(sortedEvents[..index])
      invariant maxEndTime == MaxEnd(sortedEvents[..index])
    {
      var event := sortedEvents[index];
      labels := labels + [event.title];
      RunningStep(sortedEvents, index);
      if event.startTime < minStartTime {
        minStartTime := event.startTime;
      }
      if event.endTime > maxEndTime {
        maxEndTime := event.endTime;
      }
      bars := bars + [BarEntry(index, event.startTime, event.endTime)];
    }
    assert sortedEvents[..|sortedEvents|] == sortedEvents;
  }

  class GanttChart {
    /** Whether the chart holds data; an empty list clears it. */
    var hasData: bool
    var taskLabels: seq<string>
    var entries: seq<BarEntry>
    var xAxisMinimum: int
    var xAxisMaximum: int
    var yLabelCount: int

    constructor ()
      ensures !hasData && taskLabels == [] && entries == []
    {
      hasData := false;
      taskLabels := [];
      entries := [];
      xAxisMinimum := 0;
      xAxisMaximum := 0;
      yLabelCount := 0;
    }

    /**
     * Plots `events`: row i is the i-th event by start time (ties in list order), labelled with
     * its title and spanning its start to its end; the time axis runs from the earliest start
     * to one day past the latest end.
     */
    method DisplayGanttData(events: seq<Event>)
      requires InLongRange(events)
      modifies this
      ensures events == [] ==> !hasData && taskLabels == old(taskLabels) && entries == old(entries)
      ensures events != [] ==>
                && hasData
                && var sorted := SortBy(events, StartKey);
                   && |taskLabels| == |entries| == |events| && yLabelCount == |events|
                   && (forall i :: 0 <= i < |sorted| ==> taskLabels[i] == sorted[i].title)
                   && (forall i :: 0 <= i < |sorted| ==> entries[i] == BarEntry(i, sorted[i].startTime, sorted[i].endTime))
                   && xAxisMinimum == sorted[0].startTime == MinStart(events)
                   && xAxisMaximum == MaxEnd(events) + DAY
    {
      if events == [] {
        hasData := false;
        return;
      }
      var sortedEvents := SortBy(events, StartKey);
      var labels, bars, minStartTime, maxEndTime := PlotRows(sortedEvents);
      InLongRangeOfPermutation(sortedEvents, events);
      MinStartIgnoresOrder(sortedEvents, events);
      MaxEndIgnoresOrder(sortedEvents, events);
      MinStartOfSorted(sortedEvents);
      hasData := true;
      taskLabels := labels;
      entries := bars;
      xAxisMinimum := minStartTime;
      xAxisMaximum := maxEndTime + DAY;
      yLabelCount := |labels|;
    }
  }
}

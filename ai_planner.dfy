/**
 * The AI task planner: resolves the chat-completions endpoint of the selected provider, checks
 * the provider's answer stage by stage, and turns the suggested task list into dated tasks
 * sorted by start time. The HTTP exchange and JSON decoding are outside the model: what they
 * produce enters as an `Exchange` value, and UUIDs enter as `newId`.
 */
module AiTaskPlanner {
  import opened Text
  import opened Clock
  import opened Sorting
  import opened PlannedTasks
  import opened AiSettings

  /** Kotlin `Int`, the type Gson gives the task list's numbers. */
  newtype Int32 = x: int | -0x8000_0000 <= x < 0x8000_0000

  /** One suggested task, as decoded from the model's JSON. */
  datatype AiPlannedTaskItem = AiPlannedTaskItem(
    taskName: string,
    startDateOffsetDays: Option<Int32>,
    endDateOffsetDays: Option<Int32>,
    durationHours: Option<Int32>)

  // ---------------------------------------------------------------------------------------------
  // Placing tasks in time

  /** Where one item lands, and the cursor that duration-only items continue from afterwards. */
  datatype Placement = Placement(start: int, end: int, cursor: int)

  /** Duration of an item with `duration_hours = hours`, computed in 64-bit arithmetic. */
  function DurationMillis(hours: int): int {
    hours * HOUR
  }

  /** Local midnight of `t`'s day, moved to 23:59:59.999 of that day. */
  function EndOfDay(t: int, zone: int): int {
    StartOfDay(t, zone) + DAY - 1
  }

  /**
   * The three cases of the conversion: a full offset pair (a valid one covers whole days,
   * an invalid one becomes one day from the clamped start), a positive duration after the
   * cursor, or a default hour after the cursor. Offset-placed items leave the cursor alone.
   */
  function Place(item: AiPlannedTaskItem, today0: int, zone: int, cursor: int): Placement {
    if item.startDateOffsetDays.Some? && item.endDateOffsetDays.Some? then
      var s := item.startDateOffsetDays.value as int;
      var e := item.endDateOffsetDays.value as int;
      if s < 0 || e < s then
        var start := today0 + (if s < 0 then 0 else s) * DAY;
        Placement(start, start + DAY - 1, cursor)
      else
        var start := today0 + s * DAY;
        var end := EndOfDay(today0 + e * DAY, zone);
        Placement(start, if end < start then start + (DAY - 1) else end, cursor)
    else if item.durationHours.Some? && item.durationHours.value > 0 then
      var end := cursor + DurationMillis(item.durationHours.value as int);
      Placement(cursor, end, end)
    else
      Placement(cursor, cursor + HOUR, cursor + HOUR)
  }

  /**
   * The unsorted task list the conversion builds from `items[i..]`, in item order, with the
   * cursor at `cursor`; `newId(k)` is the id generated for item k.
   */
  function Schedule(items: seq<AiPlannedTaskItem>, i: nat, today0: int, zone: int, cursor: int,
                    newId: nat -> string): seq<PlannedTask>
    requires i <= |items|
    decreases |items| - i
  {
    if i == |items| then []
    else if IsBlank(items[i].taskName) then Schedule(items, i + 1, today0, zone, cursor, newId)
    else
      var p := Place(items[i], today0, zone, cursor);
      [NewPlannedTask(newId(i), items[i].taskName, p.start, p.end)]
        + Schedule(items, i + 1, today0, zone, p.cursor, newId)
  }

  /** The names of the items from `i` on that carry a non-blank name, in order. */
  function NamedItems(items: seq<AiPlannedTaskItem>, i: nat): seq<string>
    requires i <= |items|
    decreases |items| - i
  {
    if i == |items| then []
    else if IsBlank(items[i].taskName) then NamedItems(items, i + 1)
    else [items[i].taskName] + NamedItems(items, i + 1)
  }

  function Names(tasks: seq<PlannedTask>): seq<string> {
    seq(|tasks|, k requires 0 <= k < |tasks| => tasks[k].name)
  }

  /** Exactly the items with a non-blank name become tasks, one each, keeping their names and order. */
  lemma {:induction false} ScheduleKeepsNamedItems(items: seq<AiPlannedTaskItem>, i: nat, today0: int, zone: int,
                                                   cursor: int, newId: nat -> string)
    requires i <= |items|
    ensures Names(Schedule(items, i, today0, zone, cursor, newId)) == NamedItems(items, i)
    decreases |items| - i
  {
    if i < |items| {
      var p := Place(items[i], today0, zone, cursor);
      ScheduleKeepsNamedItems(items, i + 1, today0, zone, p.cursor, newId);
      ScheduleKeepsNamedItems(items, i + 1, today0, zone, cursor, newId);
    }
  }

  /**
   * A valid offset pair [s, e] covers whole local days: from midnight of day s to 23:59:59.999
   * of day e, so the end-before-start safeguard never fires.
   */
  lemma ValidOffsetsCoverWholeDays(item: AiPlannedTaskItem, today0: int, zone: int, cursor: int)
    requires IsMidnight(today0, zone)
    requires item.startDateOffsetDays.Some? && item.endDateOffsetDays.Some?
    requires 0 <= item.startDateOffsetDays.value <= item.endDateOffsetDays.value
    ensures Place(item, today0, zone, cursor)
         == Placement(today0 + item.startDateOffsetDays.value as int * DAY,
                      today0 + (item.endDateOffsetDays.value as int + 1) * DAY - 1,
                      cursor)
  {
    var e := item.endDateOffsetDays.value as int;
    var m := today0 + e * DAY;
    assert (m + zone) % DAY == 0 by {
      assert m + zone == (today0 + zone) + e * DAY;
    }
    StartOfDayUnique(m, zone, m);
  }

  /** Every scheduled task ends no earlier than it starts. */
  lemma {:induction false} ScheduleSpansWellFormed(items: seq<AiPlannedTaskItem>, i: nat, today0: int, zone: int,
                                                   cursor: int, newId: nat -> string)
    requires i <= |items|
    ensures forall t :: t in Schedule(items, i, today0, zone, cursor, newId) ==> t.startTime <= t.endTime
    decreases |items| - i
  {
    if i < |items| {
      var p := Place(items[i], today0, zone, cursor);
      ScheduleSpansWellFormed(items, i + 1, today0, zone, p.cursor, newId);
      ScheduleSpansWellFormed(items, i + 1, today0, zone, cursor, newId);
    }
  }

  predicate HasOffsetPair(item: AiPlannedTaskItem) {
    item.startDateOffsetDays.Some? && item.endDateOffsetDays.Some?
  }

  /** The index of the item each task of `Schedule(items, i, ...)` was made from, in task order. */
  function TaskOrigins(items: seq<AiPlannedTaskItem>, i: nat): (o: seq<nat>)
    requires i <= |items|
    ensures forall k :: 0 <= k < |o| ==> i <= o[k] < |items| && !IsBlank(items[o[k]].taskName)
    decreases |items| - i
  {
    if i == |items| then []
    else if IsBlank(items[i].taskName) then TaskOrigins(items, i + 1)
    else [i] + TaskOrigins(items, i + 1)
  }

  /** Task `k` exists and was placed by the cursor: its item has no offset pair. */
  predicate FromCursor(items: seq<AiPlannedTaskItem>, o: seq<nat>, k: int) {
    0 <= k < |o| && o[k] < |items| && !HasOffsetPair(items[o[k]])
  }

  /** Every task strictly between positions `k` and `m` was placed by its offsets. */
  predicate OffsetPlacedBetween(items: seq<AiPlannedTaskItem>, o: seq<nat>, k: int, m: int) {
    forall j :: k < j < m ==> !FromCursor(items, o, j)
  }

  /**
   * The span an item is given: with an offset pair, the span its offsets select, which does
   * not depend on the cursor; otherwise its positive duration in hours, or one hour.
   */
  predicate PlacedSpan(item: AiPlannedTaskItem, start: int, end: int, today0: int, zone: int) {
    if HasOffsetPair(item) then
      start == Place(item, today0, zone, 0).start && end == Place(item, today0, zone, 0).end
    else if item.durationHours.Some? && item.durationHours.value > 0 then
      end - start == DurationMillis(item.durationHours.value as int)
    else
      end - start == HOUR
  }

  lemma PlaceSpan(item: AiPlannedTaskItem, today0: int, zone: int, cursor: int)
    ensures PlacedSpan(item, Place(item, today0, zone, cursor).start, Place(item, today0, zone, cursor).end, today0, zone)
  {
  }

  /**
   * Task k of the schedule is made from item `TaskOrigins(items, i)[k]`: it has that item's id
   * and name, and the span the item asks for.
   */
  lemma {:induction false} ScheduleOrigins(items: seq<AiPlannedTaskItem>, i: nat, today0: int, zone: int,
                                           cursor: int, newId: nat -> string)
    requires i <= |items|
    ensures var tasks := Schedule(items, i, today0, zone, cursor, newId);
            var o := TaskOrigins(items, i);
            && |tasks| == |o|
            && forall k :: 0 <= k < |tasks| ==>
                 && tasks[k].id == newId(o[k]) && tasks[k].name == items[o[k]].taskName
                 && PlacedSpan(items[o[k]], tasks[k].startTime, tasks[k].endTime, today0, zone)
    decreases |items| - i
  {
    if i < |items| {
      var p := Place(items[i], today0, zone, cursor);
      if IsBlank(items[i].taskName) {
        ScheduleOrigins(items, i + 1, today0, zone, cursor, newId);
      } else {
        ScheduleOrigins(items, i + 1, today0, zone, p.cursor, newId);
        PlaceSpan(items[i], today0, zone, cursor);
      }
    }
  }

  /** One task per item with a non-blank name. */
  lemma {:induction false} ScheduleLength(items: seq<AiPlannedTaskItem>, i: nat, today0: int, zone: int,
                                          cursor: int, newId: nat -> string)
    requires i <= |items|
    ensures |Schedule(items, i, today0, zone, cursor, newId)| == |TaskOrigins(items, i)|
  {
    ScheduleOrigins(items, i, today0, zone, cursor, newId);
  }

  /** The first task placed by the cursor starts at the cursor, whatever offset-placed tasks come before it. */
  lemma {:induction false} FirstCursorTaskStartsAtCursor(items: seq<AiPlannedTaskItem>, i: nat, today0: int, zone: int,
                                                         cursor: int, newId: nat -> string)
    requires i <= |items|
    ensures forall m :: FromCursor(items, TaskOrigins(items, i), m) && OffsetPlacedBetween(items, TaskOrigins(items, i), -1, m)
              ==> m < |Schedule(items, i, today0, zone, cursor, newId)|
                  && Schedule(items, i, today0, zone, cursor, newId)[m].startTime == cursor
    decreases |items| - i
  {
    if i < |items| {
      var p := Place(items[i], today0, zone, cursor);
      ScheduleLength(items, i, today0, zone, cursor, newId);
      if IsBlank(items[i].taskName) {
        FirstCursorTaskStartsAtCursor(items, i + 1, today0, zone, cursor, newId);
        assert Schedule(items, i, today0, zone, cursor, newId) == Schedule(items, i + 1, today0, zone, cursor, newId);
        assert TaskOrigins(items, i) == TaskOrigins(items, i + 1);
      } else {
        FirstCursorTaskStartsAtCursor(items, i + 1, today0, zone, p.cursor, newId);
        var rest := Schedule(items, i + 1, today0, zone, p.cursor, newId);
        var tasks := [NewPlannedTask(newId(i), items[i].taskName, p.start, p.end)] + rest;
        var o' := TaskOrigins(items, i + 1);
        var o := [i] + o';
        assert Schedule(items, i, today0, zone, cursor, newId) == tasks;
        assert TaskOrigins(items, i) == o;
        PlaceCursor(items[i], today0, zone, cursor);
        forall m | FromCursor(items, o, m) && OffsetPlacedBetween(items, o, -1, m)
          ensures m < |tasks| && tasks[m].startTime == cursor
        {
          if m > 0 {
            assert !FromCursor(items, o, 0);
            assert p.cursor == cursor;
            assert FromCursor(items, o', m - 1);
            forall j | -1 < j < m - 1
              ensures !FromCursor(items, o', j)
            {
              assert !FromCursor(items, o, j + 1);
            }
            assert OffsetPlacedBetween(items, o', -1, m - 1);
            assert tasks[m] == rest[m - 1];
          } else {
            assert o[0] == i && !HasOffsetPair(items[i]);
          }
        }
      }
    }
  }

  /**
   * Items without an offset pair are packed back to back, whatever offset-placed items lie
   * between them: each task placed by the cursor starts where the previous one ended.
   */
  lemma {:induction false} CursorTasksAreContiguous(items: seq<AiPlannedTaskItem>, i: nat, today0: int, zone: int,
                                                    cursor: int, newId: nat -> string)
    requires i <= |items|
    ensures forall k, m :: 0 <= k < m && FromCursor(items, TaskOrigins(items, i), k)
                           && FromCursor(items, TaskOrigins(items, i), m)
                           && OffsetPlacedBetween(items, TaskOrigins(items, i), k, m)
              ==> m < |Schedule(items, i, today0, zone, cursor, newId)|
                  && Schedule(items, i, today0, zone, cursor, newId)[m].startTime
                     == Schedule(items, i, today0, zone, cursor, newId)[k].endTime
    decreases |items| - i, 2
  {
    if i < |items| {
      if IsBlank(items[i].taskName) {
        CursorTasksAreContiguous(items, i + 1, today0, zone, cursor, newId);
        assert Schedule(items, i, today0, zone, cursor, newId) == Schedule(items, i + 1, today0, zone, cursor, newId);
        assert TaskOrigins(items, i) == TaskOrigins(items, i + 1);
      } else {
        forall k, m | 0 <= k < m && FromCursor(items, TaskOrigins(items, i), k)
                      && FromCursor(items, TaskOrigins(items, i), m)
                      && OffsetPlacedBetween(items, TaskOrigins(items, i), k, m)
          ensures m < |Schedule(items, i, today0, zone, cursor, newId)|
                  && Schedule(items, i, today0, zone, cursor, newId)[m].startTime
                     == Schedule(items, i, today0, zone, cursor, newId)[k].endTime
        {
          if k == 0 {
            CursorPairFromFirst(items, i, today0, zone, cursor, newId, m);
          } else {
            CursorPairInRest(items, i, today0, zone, cursor, newId, k, m);
          }
        }
      }
    }
  }

  /** The first task, placed by the cursor, and the next task placed by the cursor are back to back. */
  lemma CursorPairFromFirst(items: seq<AiPlannedTaskItem>, i: nat, today0: int, zone: int,
                            cursor: int, newId: nat -> string, m: int)
    requires i < |items| && !IsBlank(items[i].taskName)
    requires 0 < m && FromCursor(items, TaskOrigins(items, i), 0) && FromCursor(items, TaskOrigins(items, i), m)
    requires OffsetPlacedBetween(items, TaskOrigins(items, i), 0, m)
    ensures m < |Schedule(items, i, today0, zone, cursor, newId)|
            && Schedule(items, i, today0, zone, cursor, newId)[m].startTime
               == Schedule(items, i, today0, zone, cursor, newId)[0].endTime
  {
    var p := Place(items[i], today0, zone, cursor);
    var rest := Schedule(items, i + 1, today0, zone, p.cursor, newId);
    var o' := TaskOrigins(items, i + 1);
    ScheduleHead(items, i, today0, zone, cursor, newId);
    ScheduleLength(items, i + 1, today0, zone, p.cursor, newId);
    OffsetPlacedBetweenTail(items, i, o', 0, m);
    FirstCursorTaskStartsAtCursor(items, i + 1, today0, zone, p.cursor, newId);
    assert ([i] + o')[0] == i;
    PlaceCursor(items[i], today0, zone, cursor);
    var tasks := Schedule(items, i, today0, zone, cursor, newId);
    assert tasks[m] == rest[m - 1];
  }

  /** Two cursor-placed tasks after the first task are back to back exactly as in the rest of the schedule. */
  lemma {:induction false} CursorPairInRest(items: seq<AiPlannedTaskItem>, i: nat, today0: int, zone: int,
                                            cursor: int, newId: nat -> string, k: int, m: int)
    requires i < |items| && !IsBlank(items[i].taskName)
    requires 0 < k < m && FromCursor(items, TaskOrigins(items, i), k) && FromCursor(items, TaskOrigins(items, i), m)
    requires OffsetPlacedBetween(items, TaskOrigins(items, i), k, m)
    ensures m < |Schedule(items, i, today0, zone, cursor, newId)|
            && Schedule(items, i, today0, zone, cursor, newId)[m].startTime
               == Schedule(items, i, today0, zone, cursor, newId)[k].endTime
    decreases |items| - i, 1
  {
    var p := Place(items[i], today0, zone, cursor);
    var rest := Schedule(items, i + 1, today0, zone, p.cursor, newId);
    var o' := TaskOrigins(items, i + 1);
    ScheduleHead(items, i, today0, zone, cursor, newId);
    ScheduleLength(items, i + 1, today0, zone, p.cursor, newId);
    var tasks := Schedule(items, i, today0, zone, cursor, newId);
    OffsetPlacedBetweenTail(items, i, o', k, m);
    CursorPairAfter(items, i, today0, zone, p.cursor, newId, k - 1, m - 1);
    assert tasks[m] == rest[m - 1] && tasks[k] == rest[k - 1];
  }

  /** Two cursor-placed tasks of the schedule from item i + 1 on are back to back. */
  lemma {:induction false} CursorPairAfter(items: seq<AiPlannedTaskItem>, i: nat, today0: int, zone: int,
                                           cursor: int, newId: nat -> string, k: int, m: int)
    requires i < |items|
    requires 0 <= k < m && FromCursor(items, TaskOrigins(items, i + 1), k) && FromCursor(items, TaskOrigins(items, i + 1), m)
    requires OffsetPlacedBetween(items, TaskOrigins(items, i + 1), k, m)
    ensures m < |Schedule(items, i + 1, today0, zone, cursor, newId)|
            && Schedule(items, i + 1, today0, zone, cursor, newId)[m].startTime
               == Schedule(items, i + 1, today0, zone, cursor, newId)[k].endTime
    decreases |items| - i, 0
  {
    CursorTasksAreContiguous(items, i + 1, today0, zone, cursor, newId);
  }

  /** A schedule whose first item has a name starts with that item's task. */
  lemma ScheduleHead(items: seq<AiPlannedTaskItem>, i: nat, today0: int, zone: int, cursor: int, newId: nat -> string)
    requires i < |items| && !IsBlank(items[i].taskName)
    ensures Schedule(items, i, today0, zone, cursor, newId)
            == [NewPlannedTask(newId(i), items[i].taskName, Place(items[i], today0, zone, cursor).start,
                               Place(items[i], today0, zone, cursor).end)]
               + Schedule(items, i + 1, today0, zone, Place(items[i], today0, zone, cursor).cursor, newId)
    ensures TaskOrigins(items, i) == [i] + TaskOrigins(items, i + 1)
  {
  }

  /** Dropping the first task shifts every position down by one. */
  lemma OffsetPlacedBetweenTail(items: seq<AiPlannedTaskItem>, i: nat, o': seq<nat>, k: int, m: int)
    requires 0 <= k < m && FromCursor(items, [i] + o', m) && OffsetPlacedBetween(items, [i] + o', k, m)
    ensures FromCursor(items, o', m - 1) && OffsetPlacedBetween(items, o', k - 1, m - 1)
    ensures k > 0 ==> (FromCursor(items, [i] + o', k) <==> FromCursor(items, o', k - 1))
  {
    var o := [i] + o';
    forall j | k - 1 < j < m - 1
      ensures !FromCursor(items, o', j)
    {
      assert !FromCursor(items, o, j + 1);
    }
  }

  /** An item without an offset pair starts at the cursor and moves it to its end; any other leaves the cursor. */
  lemma PlaceCursor(item: AiPlannedTaskItem, today0: int, zone: int, cursor: int)
    ensures var p := Place(item, today0, zone, cursor);
            if HasOffsetPair(item) then p.cursor == cursor else p.start == cursor && p.cursor == p.end
  {
  }

  /**
   * `convertAiResponseToPlannedTasks`: one pass over the items with a running cursor that starts
   * at today's local midnight, then a stable sort by start time.
   */
  method ConvertAiResponseToPlannedTasks(items: seq<AiPlannedTaskItem>, now: int, zone: int, newId: nat -> string)
    returns (tasks: seq<PlannedTask>)
    ensures tasks == SortBy(Schedule(items, 0, StartOfDay(now, zone), zone, StartOfDay(now, zone), newId), StartKey)
    ensures SortedBy(tasks, StartKey)
    ensures multiset(tasks) == multiset(Schedule(items, 0, StartOfDay(now, zone), zone, StartOfDay(now, zone), newId))
  {
    var today0 := StartOfDay(now, zone);
    var planned: seq<PlannedTask> := [];
    var lastEndTime := today0;
    var i := 0;
    while i < |items|
      invariant 0 <= i <= |items|
      invariant planned + Schedule(items, i, today0, zone, lastEndTime, newId)
             == Schedule(items, 0, today0, zone, today0, newId)
    {
      var item := items[i];
      if !IsBlank(item.taskName) {
        ghost var cursor := lastEndTime;
        var startTime: int;
        var endTime: int;
        if item.startDateOffsetDays.Some? && item.endDateOffsetDays.Some? {
          var s := item.startDateOffsetDays.value as int;
          var e := item.endDateOffsetDays.value as int;
          if s < 0 || e < s {
            startTime := today0 + (if s < 0 then 0 else s) * DAY;
            endTime := startTime + DAY - 1;
          } else {
            startTime := today0 + s * DAY;
            endTime := EndOfDay(today0 + e * DAY, zone);
            if endTime < startTime {
              endTime := startTime + (DAY - 1);
            }
          }
        } else if item.durationHours.Some? && item.durationHours.value > 0 {
          startTime := lastEndTime;
          endTime := startTime + DurationMillis(item.durationHours.value as int);
          lastEndTime := endTime;
        } else {
          startTime := lastEndTime;
          endTime := startTime + HOUR;
          lastEndTime := endTime;
        }
        assert Place(item, today0, zone, cursor) == Placement(startTime, endTime, lastEndTime);
        var task := NewPlannedTask(newId(i), item.taskName, startTime, endTime);
        ghost var rest := Schedule(items, i + 1, today0, zone, lastEndTime, newId);
        assert Schedule(items, i, today0, zone, cursor, newId) == [task] + rest;
        assert (planned + [task]) + rest == planned + ([task] + rest);
        planned := planned + [task];
      }
      i := i + 1;
    }
    assert planned == Schedule(items, 0, today0, zone, today0, newId) by {
      assert Schedule(items, i, today0, zone, lastEndTime, newId) == [];
      assert planned + [] == planned;
    }
    tasks := SortBy(planned, StartKey);
  }

  // ---------------------------------------------------------------------------------------------
  // Line 248 as written: the duration is multiplied in 32-bit Int before it is widened

  const INT_MIN: int := -0x8000_0000

  /** Two's-complement wrap-around of a mathematical integer into Kotlin `Int`. */
  function WrapInt32(x: int): (r: int)
    ensures INT_MIN <= r < -INT_MIN
    ensures (x - r) % 0x1_0000_0000 == 0
    ensures INT_MIN <= x < -INT_MIN ==> r == x
  {
    (x - INT_MIN) % 0x1_0000_0000 + INT_MIN
  }

  /** `duration_hours * 60 * 60 * 1000L`: the first two products are `Int`, only the last is `Long`. */
  function DurationMillisAsWritten(hours: Int32): int {
    WrapInt32(WrapInt32(hours as int * 60) * 60) * 1000
  }

  /** Up to 596523 hours the written expression gives the intended duration. */
  lemma DurationAsWrittenAgreesBelowOverflow(hours: Int32)
    requires 0 < hours <= 596523
    ensures DurationMillisAsWritten(hours) == DurationMillis(hours as int)
  {
  }

  /** At 596524 hours the Int product wraps negative, so the planned task would end before it starts. */
  lemma DurationOverflowEndsBeforeStart(cursor: int)
    ensures DurationMillisAsWritten(596524) == -2147480896000
    ensures cursor + DurationMillisAsWritten(596524) < cursor
    ensures cursor < cursor + DurationMillis(596524)
  {
    assert WrapInt32(596524 * 60) == 35791440;
    assert WrapInt32(35791440 * 60) == -2147480896;
  }

  // ---------------------------------------------------------------------------------------------
  // Endpoint resolution

  const CHAT_COMPLETIONS_PATH: string := "/v1/chat/completions"
  const OPENAI_CHAT_URL: string := "https://api.openai.com/v1/chat/completions"

  /** A Custom provider's URL with the chat-completions path appended unless it is already there. */
  function NormalizeCustomUrl(apiUrl: string): (url: string)
    ensures EndsWith(url, CHAT_COMPLETIONS_PATH)
    ensures EndsWith(apiUrl, CHAT_COMPLETIONS_PATH) ==> url == apiUrl
    ensures !EndsWith(apiUrl, CHAT_COMPLETIONS_PATH) ==>
              url[..|url| - |CHAT_COMPLETIONS_PATH|] == TrimEndChar(apiUrl, '/')
  {
    if EndsWith(apiUrl, CHAT_COMPLETIONS_PATH) then apiUrl
    else
      var url := TrimEndChar(apiUrl, '/') + CHAT_COMPLETIONS_PATH;
      assert url[|url| - |CHAT_COMPLETIONS_PATH|..] == CHAT_COMPLETIONS_PATH;
      url
  }

  /** Normalising twice gives the same URL as normalising once. */
  lemma NormalizeCustomUrlIdempotent(apiUrl: string)
    ensures NormalizeCustomUrl(NormalizeCustomUrl(apiUrl)) == NormalizeCustomUrl(apiUrl)
  {
  }

  datatype ApiError =
    | UnsupportedProvider(providerName: string)
    | RequestFailed(code: int)
    | EmptyResponse
    | MalformedResponse
    | MissingContent
    | MalformedTaskList

  /** What `planTasks` reports; `Api` errors are the `AiApiException`s of the call. */
  datatype PlanError =
    | NoProviderSelected
    | IncompleteConfig
    | Network
    | Api(error: ApiError)
    | Unknown

  datatype Result<+T, +E> = Success(value: T) | Failure(error: E)

  /** The provider's chat-completions URL: fixed for OpenAI, derived for Custom, none for the rest. */
  function ResolveEndpoint(provider: AiProviderInfo): (r: Result<string, PlanError>)
    ensures r.Success? <==> EqualsIgnoreCase(provider.name, "OpenAI") || EqualsIgnoreCase(provider.name, "Custom")
    ensures r.Success? ==> EndsWith(r.value, CHAT_COMPLETIONS_PATH)
    ensures EqualsIgnoreCase(provider.name, "OpenAI") ==> r == Success(OPENAI_CHAT_URL)
    ensures !EqualsIgnoreCase(provider.name, "OpenAI") && EqualsIgnoreCase(provider.name, "Custom") ==>
              r == Success(NormalizeCustomUrl(provider.apiUrl))
    ensures r.Failure? ==> r.error == Api(UnsupportedProvider(provider.name))
  {
    if EqualsIgnoreCase(provider.name, "OpenAI") then Success(OPENAI_CHAT_URL)
    else if EqualsIgnoreCase(provider.name, "Custom") then Success(NormalizeCustomUrl(provider.apiUrl))
    else Failure(Api(UnsupportedProvider(provider.name)))
  }

  // ---------------------------------------------------------------------------------------------
  // The provider's answer, stage by stage

  /** What Gson makes of the message content: not JSON, JSON lacking `tasks` or a `task_name`, or the items. */
  datatype TaskContent = MalformedTasks | IncompleteTasks | TaskList(items: seq<AiPlannedTaskItem>)

  /**
   * What Gson makes of the response body: not a chat response, or one whose first choice's
   * message content (if any) decodes as `tasks`.
   */
  datatype Envelope = MalformedEnvelope | ChatEnvelope(firstContent: Option<string>, tasks: TaskContent)

  datatype ChatResponse = ChatResponse(code: int, body: Option<string>, envelope: Envelope)

  /** The network call: it either throws an I/O error or yields a response. */
  datatype Exchange = TransportFailure | Answered(response: ChatResponse)

  predicate IsSuccessful(code: int) {
    200 <= code <= 299
  }

  /** Whether `s` is null or blank, as Kotlin's `isNullOrBlank`. */
  predicate NullOrBlank(s: Option<string>) {
    s.None? || IsBlank(s.value)
  }

  /** `callAiToPlanTasks` on a provider whose request gives `exchange`; tasks are the sorted conversion. */
  function CallOutcome(provider: AiProviderInfo, exchange: Exchange, now: int, zone: int, newId: nat -> string)
    : Result<seq<PlannedTask>, PlanError>
  {
    match ResolveEndpoint(provider)
    case Failure(e) => Failure(e)
    case Success(_) =>
      match exchange
      case TransportFailure => Failure(Network)
      case Answered(response) =>
        if !IsSuccessful(response.code) then Failure(Api(RequestFailed(response.code)))
        else if NullOrBlank(response.body) then Failure(Api(EmptyResponse))
        else match response.envelope
          case MalformedEnvelope => Failure(Api(MalformedResponse))
          case ChatEnvelope(content, tasks) =>
            if NullOrBlank(content) then Failure(Api(MissingContent))
            else match tasks
              case MalformedTasks => Failure(Api(MalformedTaskList))
              case IncompleteTasks => Failure(Unknown)
              case TaskList(items) =>
                var today0 := StartOfDay(now, zone);
                Success(SortBy(Schedule(items, 0, today0, zone, today0, newId), StartKey))
  }

  /** `planTasks`' outcome: the two configuration checks, then the call. */
  function PlanOutcome(selected: Option<string>, config: Option<AiProviderInfo>, exchange: Exchange,
                       now: int, zone: int, newId: nat -> string): Result<seq<PlannedTask>, PlanError>
  {
    if selected.None? then Failure(NoProviderSelected)
    else if config.None? || IsBlank(config.value.apiKey) || IsBlank(config.value.apiUrl) then Failure(IncompleteConfig)
    else CallOutcome(config.value, exchange, now, zone, newId)
  }

  /**
   * Planning succeeds exactly when every stage passes: a provider is chosen and fully
   * configured, its endpoint is supported, the call answers with a 2xx status and a non-blank
   * body that decodes, the first choice carries non-blank content, and that content decodes as
   * a complete task list.
   */
  lemma PlanSucceedsIff(selected: Option<string>, config: Option<AiProviderInfo>, exchange: Exchange,
                        now: int, zone: int, newId: nat -> string)
    ensures PlanOutcome(selected, config, exchange, now, zone, newId).Success? <==>
      && selected.Some? && config.Some?
      && !IsBlank(config.value.apiKey) && !IsBlank(config.value.apiUrl)
      && (EqualsIgnoreCase(config.value.name, "OpenAI") || EqualsIgnoreCase(config.value.name, "Custom"))
      && exchange.Answered?
      && IsSuccessful(exchange.response.code)
      && !NullOrBlank(exchange.response.body)
      && exchange.response.envelope.ChatEnvelope?
      && !NullOrBlank(exchange.response.envelope.firstContent)
      && exchange.response.envelope.tasks.TaskList?
  {
  }

  /** An unsupported provider fails before any request is made: the answer plays no part. */
  lemma UnsupportedProviderSendsNothing(provider: AiProviderInfo, e1: Exchange, e2: Exchange,
                                        now: int, zone: int, newId: nat -> string)
    requires !EqualsIgnoreCase(provider.name, "OpenAI") && !EqualsIgnoreCase(provider.name, "Custom")
    ensures CallOutcome(provider, e1, now, zone, newId) == CallOutcome(provider, e2, now, zone, newId)
                                                        == Failure(Api(UnsupportedProvider(provider.name)))
  {
  }

  /** A planned list is sorted by start time and ends no task before its start. */
  lemma PlannedTasksWellFormed(selected: Option<string>, config: Option<AiProviderInfo>, exchange: Exchange,
                               now: int, zone: int, newId: nat -> string)
    requires PlanOutcome(selected, config, exchange, now, zone, newId).Success?
    ensures var tasks := PlanOutcome(selected, config, exchange, now, zone, newId).value;
            SortedBy(tasks, StartKey) && forall t :: t in tasks ==> t.startTime <= t.endTime
  {
    var items := exchange.response.envelope.tasks.items;
    var today0 := StartOfDay(now, zone);
    var unsorted := Schedule(items, 0, today0, zone, today0, newId);
    ScheduleSpansWellFormed(items, 0, today0, zone, today0, newId);
    var tasks := SortBy(unsorted, StartKey);
    forall t | t in tasks
      ensures t.startTime <= t.endTime
    {
      assert t in multiset(tasks);
      assert t in multiset(unsorted);
    }
  }

  /** The request-and-check sequence of `callAiToPlanTasks`, with the conversion run as a method. */
  method CallAiToPlanTasks(provider: AiProviderInfo, exchange: Exchange, now: int, zone: int, newId: nat -> string)
    returns (r: Result<seq<PlannedTask>, PlanError>)
    ensures r == CallOutcome(provider, exchange, now, zone, newId)
  {
    var endpoint := ResolveEndpoint(provider);
    if endpoint.Failure? {
      return Failure(endpoint.error);
    }
    if exchange.TransportFailure? {
      return Failure(Network);
    }
    var response := exchange.response;
    if !IsSuccessful(response.code) {
      return Failure(Api(RequestFailed(response.code)));
    }
    if NullOrBlank(response.body) {
      return Failure(Api(EmptyResponse));
    }
    if response.envelope.MalformedEnvelope? {
      return Failure(Api(MalformedResponse));
    }
    var content := response.envelope.firstContent;
    if NullOrBlank(content) {
      return Failure(Api(MissingContent));
    }
    match response.envelope.tasks {
      case MalformedTasks => return Failure(Api(MalformedTaskList));
      case IncompleteTasks => return Failure(Unknown);
      case TaskList(items) =>
        var tasks := ConvertAiResponseToPlannedTasks(items, now, zone, newId);
        return Success(tasks);
    }
  }

  // ---------------------------------------------------------------------------------------------
  // The screen's state holder

  const MSG_NOTHING_TO_SAVE: string := "没有要保存的任务。"
  const MSG_SAVED: string := "任务已成功保存到甘特图！"
  const MSG_SAVE_FAILED_PREFIX: string := "保存任务失败: "

  /**
   * The fixed text of each error message. For Network, Api and Unknown the exception's own
   * text follows it; for NoProviderSelected and IncompleteConfig it is the whole message.
   */
  function ErrorPrefix(e: PlanError): (prefix: string)
    ensures prefix != []
  {
    match e
    case NoProviderSelected => "尚未配置AI提供商"
    case IncompleteConfig => "AI提供商配置不完整 (API Key 或 URL缺失)"
    case Network => "网络请求失败: "
    case Api(_) => "AI API 错误: "
    case Unknown => "发生未知错误: "
  }

  /** The prefix tells the kind of error: two errors share a prefix exactly when they are of one kind. */
  lemma ErrorPrefixTellsKind(a: PlanError, b: PlanError)
    ensures ErrorPrefix(a) == ErrorPrefix(b) <==>
              && a.NoProviderSelected? == b.NoProviderSelected? && a.IncompleteConfig? == b.IncompleteConfig?
              && a.Network? == b.Network? && a.Api? == b.Api? && a.Unknown? == b.Unknown?
  {
  }

  class AiTaskPlannerViewModel {
    const settings: AiSettingsRepository
    var plannedTasks: Option<seq<PlannedTask>>
    var isLoading: bool
    var error: Option<PlanError>
    var saveStatus: Option<string>
    /** Every batch handed to the planned-task table, oldest first. */
    var savedBatches: seq<seq<PlannedTask>>

    constructor (settings: AiSettingsRepository)
      ensures this.settings == settings
      ensures plannedTasks.None? && !isLoading && error.None? && saveStatus.None? && savedBatches == []
    {
      this.settings := settings;
      plannedTasks := None;
      isLoading := false;
      error := None;
      saveStatus := None;
      savedBatches := [];
    }

    /**
     * `planTasks`: clears the error, reads the selected provider and its record, and either
     * shows the planned tasks or reports the first failing stage; loading ends either way.
     */
    method PlanTasks(goal: string, exchange: Exchange, now: int, zone: int, newId: nat -> string)
      requires settings.Valid()
      modifies this
      ensures !isLoading
      ensures var outcome := PlanOutcome(settings.GetSelectedProviderName(),
                                         settings.GetProviderConfig(settings.GetSelectedProviderName().value),
                                         exchange, now, zone, newId);
              match outcome
              case Success(tasks) => error.None? && plannedTasks == Some(tasks)
              case Failure(e) => error == Some(e) && plannedTasks == old(plannedTasks)
      ensures saveStatus == old(saveStatus) && savedBatches == old(savedBatches)
    {
      isLoading := true;
      error := None;
      var selected := settings.GetSelectedProviderName();
      // The settings store falls back to the first default provider, so a name is always found
      // and the "no provider" branch of the source is never taken.
      assert selected.Some?;
      var config := settings.GetProviderConfig(selected.value);
      if config.None? || IsBlank(config.value.apiKey) || IsBlank(config.value.apiUrl) {
        error := Some(IncompleteConfig);
        isLoading := false;
        return;
      }
      var r := CallAiToPlanTasks(config.value, exchange, now, zone, newId);
      match r {
        case Success(tasks) => plannedTasks := Some(tasks);
        case Failure(e) => error := Some(e);
      }
      isLoading := false;
    }

    method ClearError()
      modifies this
      ensures error.None?
      ensures plannedTasks == old(plannedTasks) && isLoading == old(isLoading)
      ensures saveStatus == old(saveStatus) && savedBatches == old(savedBatches)
    {
      error := None;
    }

    /** Hands the shown tasks to the store (`storeOk` is whether the insert succeeds) and reports how it went. */
    method SavePlannedTasksToGantt(storeOk: bool, failureDetail: string)
      modifies this
      ensures plannedTasks == old(plannedTasks) && isLoading == old(isLoading) && error == old(error)
      ensures old(plannedTasks).None? || old(plannedTasks) == Some([]) ==>
                saveStatus == Some(MSG_NOTHING_TO_SAVE) && savedBatches == old(savedBatches)
      ensures old(plannedTasks).Some? && old(plannedTasks) != Some([]) ==>
                savedBatches == old(savedBatches) + (if storeOk then [plannedTasks.value] else [])
                && saveStatus == Some(if storeOk then MSG_SAVED else MSG_SAVE_FAILED_PREFIX + failureDetail)
    {
      if plannedTasks.None? || plannedTasks.value == [] {
        saveStatus := Some(MSG_NOTHING_TO_SAVE);
        return;
      }
      if storeOk {
        savedBatches := savedBatches + [plannedTasks.value];
        saveStatus := Some(MSG_SAVED);
      } else {
        saveStatus := Some(MSG_SAVE_FAILED_PREFIX + failureDetail);
      }
    }

    method ClearSaveStatus()
      modifies this
      ensures saveStatus.None?
      ensures plannedTasks == old(plannedTasks) && isLoading == old(isLoading) && error == old(error)
      ensures savedBatches == old(savedBatches)
    {
      saveStatus := None;
    }
  }
}

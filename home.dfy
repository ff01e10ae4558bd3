/**
 * The home screen's summary of today's unfinished to-do items: the day runs from 00:00:00.000
 * to 23:59:59.999 local time, and the text is either a fixed "nothing today" line or a header
 * with the count followed by one "- title" line per item.
 */
module Home {
  import opened Text
  import opened Clock
  import opened TodoItems

  const MSG_NOTHING_TODAY: string := "今天没有待办事项。"

  /** The first and the last millisecond of the local day holding `now`, both included. */
  function TodayWindow(now: int, zone: int): (w: (int, int))
    ensures IsMidnight(w.0, zone) && w.1 == w.0 + DAY - 1
    ensures w.0 <= now <= w.1
  {
    var start := StartOfDay(now, zone);
    (start, start + DAY - 1)
  }

  function HeaderLine(count: nat): string {
    "今天有 " + NatToString(count) + " 个待办事项："
  }

  function ItemLines(items: seq<TodoItem>): (lines: seq<string>)
    ensures |lines| == |items|
    ensures forall i :: 0 <= i < |items| ==> lines[i] == "- " + items[i].title
  {
    seq(|items|, i requires 0 <= i < |items| => "- " + items[i].title)
  }

  /** `isNullOrEmpty` gives the fixed line; otherwise the header, a newline and the item lines joined by newlines. */
  function Summary(items: Option<seq<TodoItem>>): (r: string)
    ensures items.None? || items.value == [] ==> r == MSG_NOTHING_TODAY
    ensures items.Some? && items.value != [] ==> StartsWith(r, HeaderLine(|items.value|) + "\n")
  {
    if items.None? || items.value == [] then MSG_NOTHING_TODAY
    else HeaderLine(|items.value|) + "\n" + Join(ItemLines(items.value), "\n")
  }

  lemma {:induction false} SplitJoinedLines(parts: seq<string>, sep: char)
    requires |parts| >= 1 && forall i :: 0 <= i < |parts| ==> sep !in parts[i]
    ensures Split(Join(parts, [sep]), sep) == parts
  {
    if |parts| == 1 {
      SplitWithoutSeparator(parts[0], sep);
    } else {
      SplitJoinedLines(parts[1..], sep);
      assert Join(parts, [sep]) == parts[0] + [sep] + Join(parts[1..], [sep]);
      SplitAtFirst(parts[0], sep, Join(parts[1..], [sep]));
    }
  }

  /**
   * When no title holds a line break, the summary's lines are the header naming the count and
   * then "- title" for each item, in order, with no trailing empty line.
   */
  lemma SummaryLines(items: seq<TodoItem>)
    requires items != [] && forall i :: 0 <= i < |items| ==> '\n' !in items[i].title
    ensures Split(Summary(Some(items)), '\n') == [HeaderLine(|items|)] + ItemLines(items)
  {
    var lines := ItemLines(items);
    var header := HeaderLine(|items|);
    assert '\n' !in header;
    assert forall i :: 0 <= i < |lines| ==> '\n' !in lines[i];
    SplitJoinedLines([header] + lines, '\n');
    assert Join([header] + lines, "\n") == header + "\n" + Join(lines, "\n");
  }
}

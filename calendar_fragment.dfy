/**
 * The calendar's event dialog: default times for a new event, keeping the end after the
 * start when the start is picked, and the save button's validation and normalisation of the
 * typed title, description, category and comma-separated tags.
 */
module CalendarFragment {
  import opened Text
  import opened Clock
  import opened CalendarEvents

  const MSG_TITLE_EMPTY: string := "标题不能为空"
  const MSG_END_BEFORE_START: string := "结束时间不能早于开始时间"
  const MSG_CREATED: string := "日程已创建"
  const MSG_UPDATED: string := "日程已更新"
  const PRIORITIES: seq<string> := ["低", "中", "高"]
  const TAG_SEPARATOR: string := ", "

  /** `map { it.trim() }`. */
  function TrimAll(parts: seq<string>): (r: seq<string>)
    ensures |r| == |parts|
  {
    if |parts| == 0 then [] else [Trim(parts[0])] + TrimAll(parts[1..])
  }

  /** Each piece is trimmed in its own place. */
  lemma {:induction false} TrimAllAt(parts: seq<string>, i: int)
    requires 0 <= i < |parts|
    ensures TrimAll(parts)[i] == Trim(parts[i])
  {
    if i > 0 {
      TrimAllAt(parts[1..], i - 1);
      TrimAllTail(parts, i);
      assert parts[1..][i - 1] == parts[i];
    }
  }

  lemma TrimAllTail(parts: seq<string>, i: int)
    requires 0 < i < |parts|
    ensures TrimAll(parts)[i] == TrimAll(parts[1..])[i - 1]
  {
  }

  lemma TrimAllCons(h: string, parts: seq<string>)
    ensures TrimAll([h] + parts) == [Trim(h)] + TrimAll(parts)
  {
    assert ([h] + parts)[1..] == parts;
  }

  /** `filter { it.isNotEmpty() }`. */
  function NonEmpty(parts: seq<string>): (r: seq<string>)
    ensures |r| <= |parts|
    ensures forall t :: t in r <==> t in parts && t != []
  {
    if parts == [] then []
    else
      assert parts == [parts[0]] + parts[1..];
      (if parts[0] == [] then [] else [parts[0]]) + NonEmpty(parts[1..])
  }

  /** A tag as the dialog keeps it: not empty, trimmed, and free of commas. */
  predicate IsTag(t: string) {
    t != [] && IsTrimmed(t) && ',' !in t
  }

  lemma TrimKeepsOut(s: string, c: char)
    requires c !in s
    ensures c !in Trim(s)
  {
    var t := TrimStart(s);
    assert t == s[|s| - |t|..];
    assert TrimEnd(t) == t[..|TrimEnd(t)|];
  }

  /** The tags typed as `text`: split on commas, trimmed, empty ones dropped. */
  function TagList(text: string): (tags: seq<string>)
    ensures forall t :: t in tags ==> IsTag(t)
  {
    var parts := Split(text, ',');
    var trimmed := TrimAll(parts);
    var tags := NonEmpty(trimmed);
    forall t | t in tags ensures IsTag(t) {
      var i :| 0 <= i < |trimmed| && trimmed[i] == t;
      TrimAllAt(parts, i);
      TrimKeepsOut(parts[i], ',');
    }
    tags
  }

  /** The tags as stored: the tag list joined with ", ". */
  function NormalizeTags(text: string): string {
    Join(TagList(text), TAG_SEPARATOR)
  }

  lemma {:induction false} NonEmptyOfNonEmpty(parts: seq<string>)
    requires forall t :: t in parts ==> t != []
    ensures NonEmpty(parts) == parts
  {
    if parts != [] {
      assert parts[0] in parts;
      assert forall t :: t in parts[1..] ==> t in parts;
      NonEmptyOfNonEmpty(parts[1..]);
    }
  }

  /** One tag behind blank text splits into one piece that trims back to the tag. */
  lemma SplitSingleTag(w: string, tag: string)
    requires IsBlank(w) && ',' !in w && IsTag(tag)
    ensures TrimAll(Split(w + tag, ',')) == [tag]
  {
    SplitWithoutSeparator(w + tag, ',');
    TrimAfterBlank(w, tag);
    TrimAllCons(w + tag, []);
  }

  /** A tag, a separator and the rest split into the tag's piece and the pieces of the rest. */
  lemma SplitTagStep(w: string, tag: string, rest: string)
    requires ',' !in w && IsTag(tag)
    ensures Split(w + (tag + TAG_SEPARATOR + rest), ',') == [w + tag] + Split(" " + rest, ',')
  {
    assert w + (tag + TAG_SEPARATOR + rest) == (w + tag) + [','] + (" " + rest);
    SplitAtFirst(w + tag, ',', " " + rest);
  }

  /** If the later tags read back from the text after the first separator, all of them read back. */
  lemma SplitJoinedTagsStep(w: string, tags: seq<string>)
    requires IsBlank(w) && ',' !in w
    requires |tags| >= 2 && IsTag(tags[0])
    requires TrimAll(Split(" " + Join(tags[1..], TAG_SEPARATOR), ',')) == tags[1..]
    ensures TrimAll(Split(w + Join(tags, TAG_SEPARATOR), ',')) == tags
  {
    var rest := Join(tags[1..], TAG_SEPARATOR);
    JoinCons(tags, TAG_SEPARATOR);
    SplitTagStep(w, tags[0], rest);
    TrimAllCons(w + tags[0], Split(" " + rest, ','));
    TrimAfterBlank(w, tags[0]);
    HeadTail(tags);
  }

  /** One unfolding of `Join`, kept apart so the tag proofs stay small. */
  lemma JoinCons(parts: seq<string>, sep: string)
    requires |parts| >= 2
    ensures Join(parts, sep) == parts[0] + sep + Join(parts[1..], sep)
  {
  }

  /** A non-empty sequence is its head followed by its tail. */
  lemma HeadTail(s: seq<string>)
    requires |s| >= 1
    ensures [s[0]] + s[1..] == s
  {
  }

  /** Splitting tags joined with ", " and trimming the parts gives back the tags. */
  lemma {:induction false} SplitJoinedTags(w: string, tags: seq<string>)
    requires IsBlank(w) && ',' !in w
    requires |tags| >= 1 && forall t :: t in tags ==> IsTag(t)
    ensures TrimAll(Split(w + Join(tags, TAG_SEPARATOR), ',')) == tags
    decreases |tags|
  {
    assert IsTag(tags[0]) by { assert tags[0] in tags; }
    if |tags| == 1 {
      assert Join(tags, TAG_SEPARATOR) == tags[0];
      SplitSingleTag(w, tags[0]);
    } else {
      SplitJoinedTags(" ", tags[1..]);
      SplitJoinedTagsStep(w, tags);
    }
  }

  /** Reading back stored tags gives the same tag list. */
  lemma TagListOfJoined(tags: seq<string>)
    requires forall t :: t in tags ==> IsTag(t)
    ensures TagList(Join(tags, TAG_SEPARATOR)) == tags
  {
    if tags == [] {
      assert TrimAll([""]) == [""];
    } else {
      SplitJoinedTags("", tags);
      assert "" + Join(tags, TAG_SEPARATOR) == Join(tags, TAG_SEPARATOR);
      NonEmptyOfNonEmpty(tags);
    }
  }

  /** Normalising stored tags again changes nothing. */
  lemma NormalizeTagsIdempotent(text: string)
    ensures NormalizeTags(NormalizeTags(text)) == NormalizeTags(text)
  {
    TagListOfJoined(TagList(text));
  }

  lemma {:induction false} JoinedTagsEnds(tags: seq<string>)
    requires forall t :: t in tags ==> IsTag(t)
    ensures var r := Join(tags, TAG_SEPARATOR);
            (|tags| >= 1 ==> r != []) && (r == [] || (r[0] != ',' && r[|r| - 1] != ',' && IsTrimmed(r)))
  {
    if |tags| >= 1 {
      assert IsTag(tags[0]) by { assert tags[0] in tags; }
    }
    if |tags| >= 2 {
      JoinedTagsEnds(tags[1..]);
      var rest := Join(tags[1..], TAG_SEPARATOR);
      var r := tags[0] + TAG_SEPARATOR + rest;
      assert r[0] == tags[0][0];
      assert r[|r| - 1] == rest[|rest| - 1];
    }
  }

  /** Stored tags never start or end with a separator or with whitespace. */
  lemma NormalizedTagsHaveNoLooseEnds(text: string)
    ensures var r := NormalizeTags(text);
            r == [] || (r[0] != ',' && r[|r| - 1] != ',' && IsTrimmed(r))
  {
    var tags := TagList(text);
    JoinedTagsEnds(tags);
    assert NormalizeTags(text) == Join(tags, TAG_SEPARATOR);
  }

  /** The category keeps only the first character of the trimmed input; blank input gives none. */
  function Category(text: string): (r: Option<string>)
    ensures r.None? <==> IsBlank(text)
    ensures r.Some? ==> |r.value| == 1 && r.value[0] == Trim(text)[0] && !IsWhitespace(r.value[0])
  {
    var t := Trim(text);
    if t == [] then None else Some([t[0]])
  }

  /** A stored category reads back as itself. */
  lemma CategoryIdempotent(text: string)
    requires Category(text).Some?
    ensures Category(Category(text).value) == Category(text)
  {
    TrimOfTrimmed(Category(text).value);
  }

  datatype SaveOutcome = TitleEmpty | EndBeforeStart | Insert(event: Event) | Update(event: Event)

  function OutcomeMessage(o: SaveOutcome): string {
    match o
    case TitleEmpty => MSG_TITLE_EMPTY
    case EndBeforeStart => MSG_END_BEFORE_START
    case Insert(_) => MSG_CREATED
    case Update(_) => MSG_UPDATED
  }

  /** The message tells the kind of outcome: two outcomes share a message exactly when they are of one kind. */
  lemma OutcomeMessageTellsKind(a: SaveOutcome, b: SaveOutcome)
    ensures OutcomeMessage(a) == OutcomeMessage(b) <==>
              && a.TitleEmpty? == b.TitleEmpty? && a.EndBeforeStart? == b.EndBeforeStart?
              && a.Insert? == b.Insert? && a.Update? == b.Update?
  {
  }

  /** An open event dialog: the event being edited, if any, and the chosen times and priority. */
  class EventDialog {
    const original: Option<Event>
    var startTime: int
    var endTime: int
    /** The priority spinner's position. */
    var priority: int

    /** An edit starts from the event's values; a new event from the selected date, lasting an hour. */
    constructor (original: Option<Event>, selectedDate: int)
      ensures this.original == original
      ensures original.Some? ==>
                startTime == original.value.startTime && endTime == original.value.endTime
                && priority == original.value.priority
      ensures original.None? ==> startTime == selectedDate && endTime == selectedDate + HOUR && priority == 0
    {
      this.original := original;
      if original.Some? {
        startTime := original.value.startTime;
        endTime := original.value.endTime;
        priority := original.value.priority;
      } else {
        startTime := selectedDate;
        endTime := selectedDate + HOUR;
        priority := 0;
      }
    }

    /** Picking a start after the end moves the end to an hour after the new start. */
    method PickStartTime(t: int)
      modifies this
      ensures startTime == t && endTime >= startTime
      ensures old(endTime) < t ==> endTime == t + HOUR
      ensures old(endTime) >= t ==> endTime == old(endTime)
      ensures priority == old(priority)
    {
      startTime := t;
      if endTime < startTime {
        endTime := startTime + HOUR;
      }
    }

    /** The end may be picked before the start; save rejects that. */
    method PickEndTime(t: int)
      modifies this
      ensures endTime == t && startTime == old(startTime) && priority == old(priority)
    {
      endTime := t;
    }

    method SelectPriority(position: int)
      requires 0 <= position < |PRIORITIES|
      modifies this
      ensures priority == position && startTime == old(startTime) && endTime == old(endTime)
    {
      priority := position;
    }

    /**
     * The save button. A blank title, or an end strictly before the start, is refused. Otherwise
     * the event is built from the trimmed fields, keeps the edited event's id (0 for a new one,
     * which the store numbers), and is inserted when new or updated when edited.
     */
    method Save(title: string, description: string, category: string, tags: string, now: int)
      returns (o: SaveOutcome)
      ensures o == TitleEmpty <==> IsBlank(title)
      ensures o == EndBeforeStart <==> !IsBlank(title) && endTime < startTime
      ensures o.Insert? <==> !IsBlank(title) && endTime >= startTime && original.None?
      ensures o.Update? <==> !IsBlank(title) && endTime >= startTime && original.Some?
      ensures o.Insert? || o.Update? ==>
                && o.event.id == (if original.Some? then original.value.id else 0)
                && o.event.title == Trim(title) && o.event.title != []
                && o.event.description == Some(Trim(description))
                && o.event.startTime == startTime && o.event.endTime == endTime
                && o.event.startTime <= o.event.endTime
                && o.event.priority == priority
                && o.event.category == Category(category)
                && o.event.tags == Some(NormalizeTags(tags))
                && !o.event.isAllDay && o.event.createdAt == now && o.event.updatedAt == now
                && o.event.parentId.None?
    {
      var t := Trim(title);
      if t == [] {
        return TitleEmpty;
      }
      if endTime < startTime {
        return EndBeforeStart;
      }
      var id := if original.Some? then original.value.id else 0;
      var event := Event(id, t, Some(Trim(description)), startTime, endTime, priority,
                         Category(category), Some(NormalizeTags(tags)), false, now, now, None);
      if original.None? {
        o := Insert(event);
      } else {
        o := Update(event);
      }
    }
  }
}

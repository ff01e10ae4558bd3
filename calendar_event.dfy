/** A calendar entry. Times are epoch milliseconds; tags are one comma-separated string. */
module CalendarEvents {
  import opened Text

  datatype Event = Event(
    id: int,
    title: string,
    description: Option<string>,
    startTime: int,
    endTime: int,
    /** 0 low, 1 medium, 2 high. */
    priority: int,
    category: Option<string>,
    tags: Option<string>,
    isAllDay: bool,
    createdAt: int,
    updatedAt: int,
    parentId: Option<int>)
}

/** A to-do item. Priority 1 is high, 2 medium, 3 low; dates are epoch milliseconds. */
module TodoItems {
  import opened Text

  const DEFAULT_PRIORITY: int := 2

  datatype TodoItem = TodoItem(
    id: string,
    title: string,
    description: Option<string>,
    priority: int,
    dueDate: Option<int>,
    isCompleted: bool,
    creationDate: int,
    completionDate: Option<int>,
    parentId: Option<string>,
    groupId: Option<string>,
    tags: Option<seq<string>>)

  /** An item built with every optional field at its declared default. */
  function NewTodoItem(id: string, title: string, description: Option<string>, priority: int,
                       dueDate: Option<int>, creationDate: int): (t: TodoItem)
    ensures t.id == id && t.title == title && t.description == description && t.priority == priority
    ensures t.dueDate == dueDate && t.creationDate == creationDate
    ensures !t.isCompleted && t.completionDate.None? && t.parentId.None? && t.groupId.None? && t.tags.None?
  {
    TodoItem(id, title, description, priority, dueDate, false, creationDate, None, None, None, None)
  }
}

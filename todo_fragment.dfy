/**
 * The to-do screen: the star toggle (which stands for high priority), the add/edit dialog with
 * its priority spinner, due-date picker and save button, swipe-to-delete, and opening the
 * edit dialog when the state holder asks for it.
 */
module TodoFragment {
  import opened Text
  import opened TodoItems
  import VM = TodoViewModel

  const STARRED_PRIORITY: int := 1
  const UNSTARRED_PRIORITY: int := 2
  /** Spinner rows: high, medium, low. */
  const PRIORITY_LEVELS: int := 3
  const DEFAULT_POSITION: int := 1
  const MSG_TITLE_EMPTY: string := "Title cannot be empty"
  const MSG_STARRED: string := "已标记为重要"
  const MSG_UNSTARRED: string := "已取消重要标记"
  const MSG_DELETED: string := "Todo deleted"

  /** Starring gives priority 1 and unstarring priority 2; nothing else changes. */
  function Starred(item: TodoItem, isStarred: bool): (r: TodoItem)
    ensures r.priority == if isStarred then STARRED_PRIORITY else UNSTARRED_PRIORITY
    ensures r.(priority := item.priority) == item
  {
    item.(priority := if isStarred then STARRED_PRIORITY else UNSTARRED_PRIORITY)
  }

  /** Starring twice is starring once, and the last toggle wins. */
  lemma LastStarWins(item: TodoItem, first: bool, second: bool)
    ensures Starred(Starred(item, first), second) == Starred(item, second)
  {
  }

  /** Priority saved for a spinner position (0-based) and the position preselected for a priority. */
  function PriorityOfPosition(position: int): int {
    position + 1
  }

  function PositionOfPriority(priority: int): int {
    priority - 1
  }

  /** Editing and saving without touching the spinner keeps the priority, and every spinner row is reached. */
  lemma PriorityRoundTrip(priority: int, position: int)
    ensures PriorityOfPosition(PositionOfPriority(priority)) == priority
    ensures PositionOfPriority(PriorityOfPosition(position)) == position
  {
  }

  /** A new item's preselected row saves the entity's default priority. */
  lemma DefaultPositionIsDefaultPriority()
    ensures PriorityOfPosition(DEFAULT_POSITION) == DEFAULT_PRIORITY
  {
  }

  /** `description.trim().ifEmpty { null }`. */
  function DescriptionOf(text: string): (r: Option<string>)
    ensures r.None? <==> IsBlank(text)
    ensures r.Some? ==> r.value == Trim(text) && IsTrimmed(r.value) && r.value != []
  {
    var d := Trim(text);
    if d == [] then None else Some(d)
  }

  datatype TodoSaveOutcome = TitleEmpty | InsertTodo(item: TodoItem) | UpdateTodo(item: TodoItem)

  class TodoDialog {
    const original: Option<TodoItem>
    var position: int
    var selectedDueDate: Option<int>

    /** An edit preselects the item's priority row and due date; a new item preselects medium and no date. */
    constructor (original: Option<TodoItem>)
      ensures this.original == original
      ensures original.Some? ==>
                position == PositionOfPriority(original.value.priority) && selectedDueDate == original.value.dueDate
      ensures original.None? ==> position == DEFAULT_POSITION && selectedDueDate.None?
    {
      this.original := original;
      if original.Some? {
        position := PositionOfPriority(original.value.priority);
        selectedDueDate := original.value.dueDate;
      } else {
        position := DEFAULT_POSITION;
        selectedDueDate := None;
      }
    }

    method SelectPosition(p: int)
      requires 0 <= p < PRIORITY_LEVELS
      modifies this
      ensures position == p && selectedDueDate == old(selectedDueDate)
    {
      position := p;
    }

    method PickDueDate(date: int)
      modifies this
      ensures selectedDueDate == Some(date) && position == old(position)
    {
      selectedDueDate := Some(date);
    }

    /**
     * The positive button. A blank title saves nothing. A new item gets `newId`, creation date
     * `now` and defaults elsewhere; an edit changes only the title, description, priority and
     * due date of the edited item.
     */
    method Save(title: string, description: string, now: int, newId: string) returns (o: TodoSaveOutcome)
      ensures o == TitleEmpty <==> IsBlank(title)
      ensures o.InsertTodo? <==> !IsBlank(title) && original.None?
      ensures o.UpdateTodo? <==> !IsBlank(title) && original.Some?
      ensures o.InsertTodo? ==>
                o.item == NewTodoItem(newId, Trim(title), DescriptionOf(description), PriorityOfPosition(position),
                                      selectedDueDate, now)
      ensures o.UpdateTodo? ==>
                && o.item.title == Trim(title) && o.item.title != []
                && o.item.description == DescriptionOf(description)
                && o.item.priority == PriorityOfPosition(position)
                && o.item.dueDate == selectedDueDate
                && o.item.(title := original.value.title, description := original.value.description,
                           priority := original.value.priority, dueDate := original.value.dueDate)
                   == original.value
    {
      var t := Trim(title);
      if t == [] {
        return TitleEmpty;
      }
      var priority := PriorityOfPosition(position);
      if original.None? {
        o := InsertTodo(NewTodoItem(newId, t, DescriptionOf(description), priority, selectedDueDate, now));
      } else {
        o := UpdateTodo(original.value.(title := t, description := DescriptionOf(description),
                                        priority := priority, dueDate := selectedDueDate));
      }
    }

    /** Saves and hands the result to the state holder; a blank title only shows the message. */
    method Confirm(viewModel: VM.TodoViewModel, title: string, description: string, now: int, newId: string)
      returns (toast: Option<string>)
      modifies viewModel
      ensures IsBlank(title) ==> toast == Some(MSG_TITLE_EMPTY) && viewModel.requests == old(viewModel.requests)
      ensures !IsBlank(title) ==> toast.None?
      ensures !IsBlank(title) && original.None? ==>
                viewModel.requests
                == old(viewModel.requests)
                   + [VM.InsertItem(NewTodoItem(newId, Trim(title), DescriptionOf(description),
                                                PriorityOfPosition(position), selectedDueDate, now))]
      ensures !IsBlank(title) && original.Some? ==>
                viewModel.requests
                == old(viewModel.requests)
                   + [VM.UpdateItem(original.value.(title := Trim(title), description := DescriptionOf(description),
                                                    priority := PriorityOfPosition(position),
                                                    dueDate := selectedDueDate))]
      ensures viewModel.navigateToEditTodo == old(viewModel.navigateToEditTodo)
    {
      var o := Save(title, description, now, newId);
      match o {
        case TitleEmpty => toast := Some(MSG_TITLE_EMPTY);
        case InsertTodo(item) => viewModel.Insert(item); toast := None;
        case UpdateTodo(item) => viewModel.Update(item); toast := None;
      }
    }
  }

  class TodoScreen {
    const viewModel: VM.TodoViewModel

    constructor (viewModel: VM.TodoViewModel)
      ensures this.viewModel == viewModel
    {
      this.viewModel := viewModel;
    }

    method OnToggleStarred(item: TodoItem, isStarred: bool) returns (toast: string)
      modifies viewModel
      ensures viewModel.requests == old(viewModel.requests) + [VM.UpdateItem(Starred(item, isStarred))]
      ensures toast == if isStarred then MSG_STARRED else MSG_UNSTARRED
      ensures viewModel.navigateToEditTodo == old(viewModel.navigateToEditTodo)
    {
      viewModel.Update(Starred(item, isStarred));
      toast := if isStarred then MSG_STARRED else MSG_UNSTARRED;
    }

    /** The positive button of the delete confirmation after a swipe; cancelling issues nothing. */
    method OnSwipeDeleteConfirmed(item: TodoItem) returns (toast: string)
      modifies viewModel
      ensures viewModel.requests == old(viewModel.requests) + [VM.DeleteItem(item)]
      ensures toast == MSG_DELETED
      ensures viewModel.navigateToEditTodo == old(viewModel.navigateToEditTodo)
    {
      viewModel.Delete(item);
      toast := MSG_DELETED;
    }

    /** The observer of the edit request: opens the dialog for the item and clears the request. */
    method OnNavigateToEdit() returns (dialog: TodoDialog?)
      modifies viewModel
      ensures old(viewModel.navigateToEditTodo).None? ==> dialog == null
      ensures old(viewModel.navigateToEditTodo).Some? ==>
                dialog != null && fresh(dialog) && dialog.original == old(viewModel.navigateToEditTodo)
      ensures viewModel.navigateToEditTodo.None? && viewModel.requests == old(viewModel.requests)
    {
      var requested := viewModel.navigateToEditTodo;
      if requested.Some? {
        dialog := new TodoDialog(requested);
        viewModel.OnEditTodoNavigated();
      } else {
        dialog := null;
      }
    }
  }
}

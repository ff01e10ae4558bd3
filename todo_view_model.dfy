/**
 * The to-do list's state holder: it forwards inserts, updates and deletes to the store (kept
 * here as the list of requests issued), marks items done or not done, and holds the item
 * whose edit dialog should open.
 */
module TodoViewModel {
  import opened Text
  import opened TodoItems

  datatype StoreRequest = InsertItem(item: TodoItem) | UpdateItem(item: TodoItem) | DeleteItem(item: TodoItem)

  /** The item with its done flag set; a done item is stamped `now` as its completion date, an undone one has none. */
  function Toggled(item: TodoItem, isCompleted: bool, now: int): (r: TodoItem)
    ensures r.isCompleted == isCompleted
    ensures r.completionDate.Some? <==> isCompleted
    ensures isCompleted ==> r.completionDate == Some(now)
    ensures r.(isCompleted := item.isCompleted, completionDate := item.completionDate) == item
  {
    item.(isCompleted := isCompleted, completionDate := if isCompleted then Some(now) else None)
  }

  /** Checking an item and unchecking it again leaves it undone with no completion date, and nothing else changed. */
  lemma CheckThenUncheck(item: TodoItem, t1: int, t2: int)
    ensures Toggled(Toggled(item, true, t1), false, t2) == item.(isCompleted := false, completionDate := None)
  {
  }

  /** An undone item with no completion date is unchanged by unchecking it. */
  lemma UncheckUndone(item: TodoItem, now: int)
    requires !item.isCompleted && item.completionDate.None?
    ensures Toggled(item, false, now) == item
  {
  }

  class TodoViewModel {
    var requests: seq<StoreRequest>
    /** The item whose edit dialog should open, until the screen reports it opened. */
    var navigateToEditTodo: Option<TodoItem>

    constructor ()
      ensures requests == [] && navigateToEditTodo.None?
    {
      requests := [];
      navigateToEditTodo := None;
    }

    method Insert(item: TodoItem)
      modifies this
      ensures requests == old(requests) + [InsertItem(item)] && navigateToEditTodo == old(navigateToEditTodo)
    {
      requests := requests + [InsertItem(item)];
    }

    method Update(item: TodoItem)
      modifies this
      ensures requests == old(requests) + [UpdateItem(item)] && navigateToEditTodo == old(navigateToEditTodo)
    {
      requests := requests + [UpdateItem(item)];
    }

    method Delete(item: TodoItem)
      modifies this
      ensures requests == old(requests) + [DeleteItem(item)] && navigateToEditTodo == old(navigateToEditTodo)
    {
      requests := requests + [DeleteItem(item)];
    }

    method ToggleCompleted(item: TodoItem, isCompleted: bool, now: int)
      modifies this
      ensures requests == old(requests) + [UpdateItem(Toggled(item, isCompleted, now))]
      ensures navigateToEditTodo == old(navigateToEditTodo)
    {
      var updatedItem := Toggled(item, isCompleted, now);
      Update(updatedItem);
    }

    method OnTodoItemClicked(item: TodoItem)
      modifies this
      ensures navigateToEditTodo == Some(item) && requests == old(requests)
    {
      navigateToEditTodo := Some(item);
    }

    method OnEditTodoNavigated()
      modifies this
      ensures navigateToEditTodo.None? && requests == old(requests)
    {
      navigateToEditTodo := None;
    }
  }
}

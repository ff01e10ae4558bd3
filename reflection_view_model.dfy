/**
 * Reflections: short notes written beside the timer. The view model holds the reflection being
 * edited and a one-shot status message; saved reflections go to a store keyed by id, where an
 * insert replaces any reflection with the same id and a delete removes by id.
 */
module ReflectionViewModel {
  import opened Text

  datatype Reflection = Reflection(
    id: string,
    content: string,
    creationTime: int,
    lastModifiedTime: int,
    associatedDate: int,
    tags: Option<seq<string>>)

  const MSG_CONTENT_EMPTY: string := "反思内容不能为空"
  const MSG_SAVED: string := "反思已保存"
  const MSG_DELETED: string := "反思已删除"

  /** A value meant to be handled once: the first `GetContentIfNotHandled` delivers it, later ones do not. */
  class Event<T> {
    const content: T
    var hasBeenHandled: bool

    constructor (content: T)
      ensures this.content == content && !hasBeenHandled
    {
      this.content := content;
      hasBeenHandled := false;
    }

    method GetContentIfNotHandled() returns (r: Option<T>)
      modifies this
      ensures old(hasBeenHandled) ==> r.None?
      ensures !old(hasBeenHandled) ==> r == Some(content)
      ensures hasBeenHandled
    {
      if hasBeenHandled {
        r := None;
      } else {
        hasBeenHandled := true;
        r := Some(content);
      }
    }

    /** The content, whether or not it was handled; the handled flag is left alone. */
    method PeekContent() returns (r: T)
      ensures r == content
    {
      r := content;
    }
  }

  /**
   * The reflection a non-blank save writes: the one being edited with the new content and
   * modification time, keeping its id, creation time, date and tags; or, when nothing is being
   * edited, a new reflection created, modified and dated `now`.
   */
  function SavedReflection(current: Option<Reflection>, content: string, now: int, newId: string): (r: Reflection)
    ensures r.content == content && r.lastModifiedTime == now
    ensures current.Some? ==>
              && r.id == current.value.id && r.creationTime == current.value.creationTime
              && r.associatedDate == current.value.associatedDate && r.tags == current.value.tags
    ensures current.None? ==>
              r.id == newId && r.creationTime == now && r.associatedDate == now && r.tags.None?
  {
    match current
    case Some(c) => c.(content := content, lastModifiedTime := now)
    case None => Reflection(newId, content, now, now, now, None)
  }

  /** Saving an edited reflection changes only its content and modification time. */
  lemma EditedSaveChangesOnlyContent(c: Reflection, content: string, now: int, newId: string)
    ensures SavedReflection(Some(c), content, now, newId).(content := c.content, lastModifiedTime := c.lastModifiedTime) == c
  {
  }

  class ReflectionViewModel {
    /** The reflections in the store, by id. */
    var store: map<string, Reflection>
    var currentReflection: Option<Reflection>
    /** The last status posted; nothing is posted before the first save or delete. */
    var saveStatus: Event?<string>

    constructor (store: map<string, Reflection>)
      ensures this.store == store && currentReflection.None? && saveStatus == null
    {
      this.store := store;
      currentReflection := None;
      saveStatus := null;
    }

    /** Starts a new, empty reflection dated `now`. */
    method CreateNewReflection(now: int, newId: string)
      modifies this
      ensures currentReflection == Some(Reflection(newId, "", now, now, now, None))
      ensures store == old(store) && saveStatus == old(saveStatus)
    {
      currentReflection := Some(Reflection(newId, "", now, now, now, None));
    }

    method EditReflection(reflection: Reflection)
      modifies this
      ensures currentReflection == Some(reflection)
      ensures store == old(store) && saveStatus == old(saveStatus)
    {
      currentReflection := Some(reflection);
    }

    /**
     * Blank content only posts the "empty" message. Otherwise the saved reflection replaces any
     * with its id, "saved" is posted and nothing is being edited any more.
     */
    method SaveReflection(content: string, now: int, newId: string)
      modifies this
      ensures fresh(saveStatus) && !saveStatus.hasBeenHandled
      ensures IsBlank(content) ==>
                && saveStatus.content == MSG_CONTENT_EMPTY
                && store == old(store) && currentReflection == old(currentReflection)
      ensures !IsBlank(content) ==>
                && saveStatus.content == MSG_SAVED
                && (var r := SavedReflection(old(currentReflection), content, now, newId);
                    store == old(store)[r.id := r])
                && currentReflection.None?
    {
      if IsBlank(content) {
        saveStatus := new Event(MSG_CONTENT_EMPTY);
        return;
      }
      var reflection := SavedReflection(currentReflection, content, now, newId);
      store := store[reflection.id := reflection];
      saveStatus := new Event(MSG_SAVED);
      currentReflection := None;
    }

    /** Removes the reflection by id, stops editing it if it is the one being edited, and posts "deleted". */
    method DeleteReflection(reflection: Reflection)
      modifies this
      ensures store == old(store) - {reflection.id}
      ensures old(currentReflection).Some? && old(currentReflection).value.id == reflection.id ==>
                currentReflection.None?
      ensures !(old(currentReflection).Some? && old(currentReflection).value.id == reflection.id) ==>
                currentReflection == old(currentReflection)
      ensures fresh(saveStatus) && !saveStatus.hasBeenHandled && saveStatus.content == MSG_DELETED
    {
      store := store - {reflection.id};
      if currentReflection.Some? && currentReflection.value.id == reflection.id {
        currentReflection := None;
      }
      saveStatus := new Event(MSG_DELETED);
    }

    method CancelEdit()
      modifies this
      ensures currentReflection.None? && store == old(store) && saveStatus == old(saveStatus)
    {
      currentReflection := None;
    }
  }
}

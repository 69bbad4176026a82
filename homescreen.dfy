/** The task-list screen: its five pieces of state and one method per
    handler. Every handler is one atomic step. The handlers that call the
    store (load, add, delete, toggle-complete, save-edit, clear-completed)
    send at most one round of requests; add, toggle-complete and save-edit
    first check a local guard. Then they commit a list transform (add also
    clears its draft, save-edit also closes the session) or leave the state
    alone. For these, the store's answer is a
    parameter, and the requests the handler would send and the way it ended
    are its results. The other handlers send nothing and only set the drafts,
    the edit session or the visibility flag. */
module Screens {
  import opened JsArray
  import opened Options
  import opened JsText
  import opened Remote
  import opened TodoList

  /** The error alert a handler raises when its request fails. */
  datatype Alert =
    | LoadFailed    // "Failed to load todos"
    | AddFailed     // "Failed to add todo"
    | DeleteFailed  // "Failed to delete todo"
    | UpdateFailed  // "Failed to update todo"
    | ClearFailed   // "Failed to clear completed todos"

  /** How a handler ended: its guard stopped it before any request, it
      committed the store's answer, or it raised an alert. */
  datatype Outcome = Skipped | Committed | Alerted(alert: Alert)

  /** The screen's state as one value. */
  datatype ScreenState = ScreenState(
    todos: seq<Todo>,
    todoText: string,
    editId: Option<int>,
    editText: string,
    showCompleted: bool)

  /** The store answers a whole fan-out of deletes: every one resolved. */
  predicate AllResolved(replies: seq<Reply<bool>>) {
    forall i :: 0 <= i < |replies| ==> replies[i].Ok?
  }

  function DeleteRequest(t: Todo): Request {
    Delete(t.id)
  }

  /** One delete request per item, in list order, each for that item's id. */
  function DeleteRequests(ts: seq<Todo>): (rs: seq<Request>)
    ensures |rs| == |ts|
    ensures forall i :: 0 <= i < |ts| ==> rs[i].Delete? && rs[i].id == ts[i].id
  {
    Map(ts, DeleteRequest)
  }

  class HomeScreen {
    var todoText: string        // the draft of the task to add
    var todos: seq<Todo>        // the list, in display order
    var editId: Option<int>     // the item being edited, if any
    var editText: string        // the draft of its new text
    var showCompleted: bool     // whether the completed section is expanded

    ghost function State(): ScreenState
      reads this
    {
      ScreenState(todos, todoText, editId, editText, showCompleted)
    }

    /** The screen as it mounts: no tasks, no drafts, no edit session,
        completed section expanded. */
    constructor ()
      ensures State() == ScreenState([], "", None, "", true)
    {
      todoText := "";
      todos := [];
      editId := None;
      editText := "";
      showCompleted := true;
    }

    /** `loadTodos`: fetch the whole list. On success the list is replaced by
        the fetched records in local shape; on failure nothing changes. */
    method LoadTodos(reply: Reply<seq<ApiTodo>>) returns (sent: seq<Request>, outcome: Outcome)
      modifies this
      ensures sent == [List]
      ensures reply.Ok? ==> outcome == Committed && State() == old(State()).(todos := Format(reply.value))
      ensures reply.Fail? ==> outcome == Alerted(LoadFailed) && State() == old(State())
    {
      sent := [List];
      match reply
      case Ok(api) =>
        todos := Format(api);
        outcome := Committed;
      case Fail =>
        outcome := Alerted(LoadFailed);
    }

    /** `handleAddTodo`: a blank draft does nothing. Otherwise the draft, as
        typed and not trimmed, is sent. On success the store's record is
        appended and the draft is cleared; on failure nothing changes. */
    method AddTodo(reply: Reply<ApiTodo>) returns (sent: seq<Request>, outcome: Outcome)
      modifies this
      ensures AllTrimmable(old(todoText)) ==> sent == [] && outcome == Skipped && State() == old(State())
      ensures !AllTrimmable(old(todoText)) ==> sent == [Create(old(todoText), false, 1)]
      ensures !AllTrimmable(old(todoText)) && reply.Ok? ==>
                outcome == Committed
                && State() == old(State()).(todos := old(todos) + [FromApi(reply.value)], todoText := "")
      ensures !AllTrimmable(old(todoText)) && reply.Fail? ==>
                outcome == Alerted(AddFailed) && State() == old(State())
    {
      var blank := IsBlank(todoText);
      if blank {
        return [], Skipped;
      }
      sent := [Create(todoText, false, DefaultUserId)];
      match reply
      case Ok(created) =>
        todos := todos + [FromApi(created)];
        todoText := "";
        outcome := Committed;
      case Fail =>
        outcome := Alerted(AddFailed);
    }

    /** `handleDeleteTodo`: on success every item with `id` is removed,
        whatever "deleted" flag the store returned; on failure nothing
        changes. The edit session is left alone either way. */
    method DeleteTodo(id: int, reply: Reply<bool>) returns (sent: seq<Request>, outcome: Outcome)
      modifies this
      ensures sent == [Delete(id)]
      ensures reply.Ok? ==> outcome == Committed && State() == old(State()).(todos := WithoutId(old(todos), id))
      ensures reply.Fail? ==> outcome == Alerted(DeleteFailed) && State() == old(State())
    {
      sent := [Delete(id)];
      if reply.Ok? {
        todos := WithoutId(todos, id);
        outcome := Committed;
      } else {
        outcome := Alerted(DeleteFailed);
      }
    }

    /** `handleCompleteTodo`: an id not in the list does nothing. Otherwise
        the negation of the first matching item's flag is requested. On
        success every item with `id` takes the flag the store returned; on
        failure nothing changes. */
    method CompleteTodo(id: int, reply: Reply<ApiTodo>) returns (sent: seq<Request>, outcome: Outcome)
      modifies this
      ensures Find(old(todos), HasId(id)).None? ==> sent == [] && outcome == Skipped && State() == old(State())
      ensures Find(old(todos), HasId(id)).Some? ==>
                sent == [Update(id, CompletedPatch(!Find(old(todos), HasId(id)).value.completed))]
      ensures Find(old(todos), HasId(id)).Some? && reply.Ok? ==>
                outcome == Committed
                && State() == old(State()).(todos := SetCompleted(old(todos), id, reply.value.completed))
      ensures Find(old(todos), HasId(id)).Some? && reply.Fail? ==>
                outcome == Alerted(UpdateFailed) && State() == old(State())
    {
      var found := Find(todos, HasId(id));
      if found.None? {
        return [], Skipped;
      }
      sent := [Update(id, CompletedPatch(!found.value.completed))];
      match reply
      case Ok(updated) =>
        todos := SetCompleted(todos, id, updated.completed);
        outcome := Committed;
      case Fail =>
        outcome := Alerted(UpdateFailed);
    }

    /** `handleStartEdit`: the session becomes exactly (`id`, `currentText`),
        replacing any session that was open. */
    method StartEdit(id: int, currentText: string)
      modifies this
      ensures State() == old(State()).(editId := Some(id), editText := currentText)
    {
      editId := Some(id);
      editText := currentText;
    }

    /** The edit field's `onChangeText`: the edit draft becomes `text`. */
    method ChangeEditText(text: string)
      modifies this
      ensures State() == old(State()).(editText := text)
    {
      editText := text;
    }

    /** `handleSaveEdit`: no session or a blank draft does nothing.
        Otherwise the draft, as typed and not trimmed, is sent. On success
        every item with the edited id takes the text the store returned and
        the session closes; on failure the session stays open with its draft. */
    method SaveEdit(reply: Reply<ApiTodo>) returns (sent: seq<Request>, outcome: Outcome)
      modifies this
      ensures old(editId).None? || AllTrimmable(old(editText)) ==>
                sent == [] && outcome == Skipped && State() == old(State())
      ensures old(editId).Some? && !AllTrimmable(old(editText)) ==>
                sent == [Update(old(editId).value, TodoPatch(old(editText)))]
      ensures old(editId).Some? && !AllTrimmable(old(editText)) && reply.Ok? ==>
                outcome == Committed
                && State() == old(State()).(todos := SetText(old(todos), old(editId).value, reply.value.todo),
                                            editId := None, editText := "")
      ensures old(editId).Some? && !AllTrimmable(old(editText)) && reply.Fail? ==>
                outcome == Alerted(UpdateFailed) && State() == old(State())
    {
      var blank := IsBlank(editText);
      if editId.None? || blank {
        return [], Skipped;
      }
      var id, draft := editId.value, editText;
      sent := [Update(id, TodoPatch(draft))];
      if reply.Ok? {
        todos, editId, editText := SetText(todos, id, reply.value.todo), None, "";
        outcome := Committed;
      } else {
        outcome := Alerted(UpdateFailed);
      }
    }

    /** `cancelEdit`: the session closes and its draft is dropped. */
    method CancelEdit()
      modifies this
      ensures State() == old(State()).(editId := None, editText := "")
    {
      editId := None;
      editText := "";
    }

    /** The add field's `onChangeText`: the add draft becomes `text`. */
    method ChangeTodoText(text: string)
      modifies this
      ensures State() == old(State()).(todoText := text)
    {
      todoText := text;
    }

    /** The add dialog's Cancel button: the add draft is dropped. */
    method CancelAdd()
      modifies this
      ensures State() == old(State()).(todoText := "")
    {
      todoText := "";
    }

    /** "Clear" in the clear-completed dialog: one delete per completed item,
        all sent at once, answered one reply each. Only if every one of them
        resolves are the completed items removed; a single failure leaves the
        list as it was, deletes that succeeded included. */
    method ClearCompleted(replies: seq<Reply<bool>>) returns (sent: seq<Request>, outcome: Outcome)
      requires |replies| == |Completed(todos)|
      modifies this
      ensures sent == DeleteRequests(Completed(old(todos)))
      ensures AllResolved(replies) ==> outcome == Committed && State() == old(State()).(todos := Active(old(todos)))
      ensures !AllResolved(replies) ==> outcome == Alerted(ClearFailed) && State() == old(State())
    {
      sent := DeleteRequests(Completed(todos));
      if AllResolved(replies) {
        todos := Active(todos);
        outcome := Committed;
      } else {
        outcome := Alerted(ClearFailed);
      }
    }

    /** `toggleCompletedVisibility`: the flag flips, nothing else changes. */
    method ToggleCompletedVisibility()
      modifies this
      ensures State() == old(State()).(showCompleted := !old(showCompleted))
    {
      showCompleted := !showCompleted;
    }

    /** The two sections the screen derives from the list, active and
        completed. The completed one is drawn only when it is non-empty and
        `showCompleted` is set. */
    method Sections() returns (active: seq<Todo>, completed: seq<Todo>)
      ensures IsMerge(todos, active, completed)
      ensures forall t :: t in active ==> !t.completed
      ensures forall t :: t in completed ==> t.completed
      ensures |active| + |completed| == |todos|
    {
      active := Active(todos);
      completed := Completed(todos);
      Partition(todos);
    }
  }
}

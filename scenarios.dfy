/** Walks through the screen's contracts from a caller's side: what a user
    sees after a short sequence of handlers, given the store's answers. */
module Scenarios {
  import opened Options
  import opened JsText
  import opened Remote
  import opened TodoList
  import opened Screens

  /** A load of one record shows it as the single active item. */
  method LoadOneRecord() {
    var screen := new HomeScreen();
    var sent, outcome := screen.LoadTodos(Ok([ApiTodo(1, "Buy milk", false, 1)]));
    assert sent == [List] && outcome == Committed;
    assert screen.todos == [Todo(1, "Buy milk", false)];
    var active, completed := screen.Sections();
    assert active == [Todo(1, "Buy milk", false)] && completed == [];
  }

  /** An add appends the store's record; a blank draft sends nothing. */
  method AddThenBlankAdd() {
    var screen := new HomeScreen();
    screen.ChangeTodoText("Write report");
    assert !IsTrimmable("Write report"[0]);
    var sent, outcome := screen.AddTodo(Ok(ApiTodo(7, "Write report", false, 1)));
    assert sent == [Create("Write report", false, 1)];
    assert screen.todos == [Todo(7, "Write report", false)] && screen.todoText == "";
    screen.ChangeTodoText("  \t");
    sent, outcome := screen.AddTodo(Ok(ApiTodo(8, "x", false, 1)));
    assert sent == [] && outcome == Skipped && |screen.todos| == 1;
  }

  /** Start, change and save an edit: the text changes and the session closes. */
  method EditAndSave() {
    var screen := new HomeScreen();
    var sent, outcome := screen.LoadTodos(Ok([ApiTodo(1, "Buy milk", false, 1)]));
    screen.StartEdit(1, "Buy milk");
    screen.ChangeEditText("Buy almond milk");
    assert !IsTrimmable("Buy almond milk"[0]);
    sent, outcome := screen.SaveEdit(Ok(ApiTodo(1, "Buy almond milk", false, 1)));
    assert sent == [Update(1, TodoPatch("Buy almond milk"))];
    assert screen.todos == [Todo(1, "Buy almond milk", false)];
    assert screen.editId == None && screen.editText == "";
  }

  /** A delete of the item being edited leaves the session open. */
  method DeleteWhileEditing() {
    var screen := new HomeScreen();
    var sent, outcome := screen.LoadTodos(Ok([ApiTodo(1, "Buy milk", false, 1)]));
    screen.StartEdit(1, "Buy milk");
    sent, outcome := screen.DeleteTodo(1, Ok(true));
    assert screen.todos == [];
    assert screen.editId == Some(1) && screen.editText == "Buy milk";
  }

  /** Two completed items, one delete fails: nothing is removed. */
  method ClearWithOneFailure() {
    var screen := new HomeScreen();
    var sent, outcome := screen.LoadTodos(Ok([ApiTodo(2, "a", true, 1), ApiTodo(3, "b", true, 1)]));
    var before := screen.todos;
    assert Completed(before) == before;
    var replies: seq<Reply<bool>> := [Ok(true), Fail];
    assert replies[1].Fail?;
    sent, outcome := screen.ClearCompleted(replies);
    assert sent == [Delete(2), Delete(3)];
    assert outcome == Alerted(ClearFailed) && screen.todos == before;
  }

  /** Completing an item twice, the store echoing each request, restores it. */
  method CompleteTwice() {
    var screen := new HomeScreen();
    var sent, outcome := screen.LoadTodos(Ok([ApiTodo(1, "Buy milk", false, 1)]));
    sent, outcome := screen.CompleteTodo(1, Ok(ApiTodo(1, "Buy milk", true, 1)));
    assert sent == [Update(1, CompletedPatch(true))];
    assert screen.todos == [Todo(1, "Buy milk", true)];
    sent, outcome := screen.CompleteTodo(1, Ok(ApiTodo(1, "Buy milk", false, 1)));
    assert sent == [Update(1, CompletedPatch(false))];
    assert screen.todos == [Todo(1, "Buy milk", false)];
  }
}

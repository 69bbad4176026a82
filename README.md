# Todo-mobile task list: a Dafny model of the home screen's state machine

The home screen of the Todo-mobile app keeps a list of tasks that it mirrors
from a remote task store. It also keeps a draft for the next task, at most one
edit session (the id being edited and its draft text), and a flag that says
whether the completed section is expanded. Six handlers call the store:
load, add, delete, toggle-complete, save-edit and clear-completed. Add,
toggle-complete and save-edit first check a local guard; load, delete and
clear-completed have none. Each of them sends its requests and waits for the
answer. If the call resolves, it commits a pure transform of the list. Add
also clears its draft, and save-edit also closes the edit session. If the call
rejects, it raises an alert and leaves the state as it was. A call rejects
when the network fails or the body is not JSON; an HTTP error status with a
JSON body resolves, because the service never checks the status. The other handlers send
nothing and only set local state. These are start-edit, cancel-edit, the two
text-field setters, the add dialog's Cancel button and the visibility toggle.

This project models that screen:

- `remote.dfy` (`Remote`): what the store returns and receives. This is the
  `ApiTodo` record, the requests (list, create, update with a partial record,
  delete), and a `Reply<T>` for an answer (`Ok(value)`) or a failure (`Fail`).
- `jstext.dfy` (`JsText`): `String.prototype.trim`, using ECMAScript's set of
  whitespace and line-terminator characters. The handlers' guards test
  whether the trimmed text is empty. `Trim` proves that this holds exactly
  when every character is trimmable.
- `option.dfy` (`Options`): the `Option` type, used for `find`'s result and
  for the edit session's id (`number | null`).
- `jsarray.dfy` (`JsArray`): `map`, `filter` and `find` on sequences. It also
  defines `IsMerge`, which says a sequence is an in-order interleaving of two
  others. A filter and its complement split a list in that way.
- `todolist.dfy` (`TodoList`): the local `Todo` record and the transforms the
  handlers commit. These are formatting fetched records, removing by id,
  setting the completion flag or the text of the items with an id, and the
  active/completed partition. Lemmas cover the partition, idempotence,
  last-writer-wins updates, the toggle round trip, and which transforms keep
  ids unique.
- `homescreen.dfy` (`Screens`): the class `HomeScreen`. Its five fields are
  the screen's state variables, and it has one method per handler. Each
  method for a handler that calls the store takes the store's answer as a
  parameter. It returns the requests the handler would send (empty when a
  guard stops it) and an `Outcome`: `Skipped`, `Committed`, or `Alerted` with
  the alert's kind. Every method's `ensures` gives the whole new state through
  `State()`.
- `scenarios.dfy` (`Scenarios`): client methods that walk through short
  handler sequences using only these contracts. They cover load, add, edit
  and save, delete during an edit, clear-completed with one failure, and
  completing twice. Dafny verifies their assertions; nothing executes them.

The model follows the code as written. In particular:

- Clear-completed is all-or-nothing. Its deletes are joined with
  `Promise.all`, so one failure leaves the whole list untouched. This
  includes the items whose delete succeeded at the store. Successful deletes
  are not applied on their own.
- Deleting the item being edited does not close the edit session.
- Add and save-edit send the draft as typed. Only the guard trims it.
- Add appends whatever id the store returns. Nothing keeps ids unique, so
  unique ids are not an invariant here. `AppendUniqueIds` says exactly when an
  append keeps them unique.
- The edit field's `onChangeText` sets the edit draft unconditionally. The
  field is rendered only while an item is being edited.

## Model

| member | source | states |
|---|---|---|
| `JsText.Trim` | my-app/components/screens/HomeScreen.tsx:128 | the trimmed text is empty iff every character is ECMAScript whitespace or a line terminator; otherwise it starts and ends with a kept character |
| `JsText.IsBlank` | my-app/components/screens/HomeScreen.tsx:188 | the guard `!text.trim()` used by add (line 128) and save-edit (line 188) holds exactly when every character of the draft is trimmable |
| `JsArray.Map` | my-app/components/screens/HomeScreen.tsx:114-118 | `map` keeps the length and puts `f` of the i-th element at position i |
| `JsArray.Filter` | my-app/components/screens/HomeScreen.tsx:151 | `filter` returns only elements of the input that pass, it returns every element that passes, and it is no longer than the input |
| `JsArray.Find` | my-app/components/screens/HomeScreen.tsx:162-163 | `find` is empty iff no element passes; otherwise it is an element of the input that passes, and the first one `filter` keeps |
| `JsArray.MergeCounts` | my-app/components/screens/HomeScreen.tsx:307-308 | two sequences interleaved into a list have lengths adding up to its length and together hold exactly its elements (as multisets) |
| `JsArray.FilterSplits` | my-app/components/screens/HomeScreen.tsx:307-308 | filtering by a predicate and by its complement yields two sequences that interleave, in order, into the input |
| `JsArray.FilterIdempotent` | my-app/components/screens/HomeScreen.tsx:230 | filtering twice by the same predicate is filtering once |
| `JsArray.FilterKeepsAll` | my-app/components/screens/HomeScreen.tsx:151 | a filter that every element passes returns the input unchanged |
| `TodoList.Format` | my-app/components/screens/HomeScreen.tsx:114-118 | loaded records keep their count and order, and each becomes `{id, text: todo, completed}` |
| `TodoList.WithoutId` | my-app/components/screens/HomeScreen.tsx:151 | after a delete, no item with the id remains, every item with another id remains, and the kept and removed items interleave in order into the old list |
| `TodoList.SetCompleted` | my-app/components/screens/HomeScreen.tsx:169-174 | the length, ids and texts are kept; items with the id take the given flag and all other items keep theirs |
| `TodoList.SetText` | my-app/components/screens/HomeScreen.tsx:192-197 | the length, ids and flags are kept; items with the id take the given text and all other items keep theirs |
| `TodoList.Active` | my-app/components/screens/HomeScreen.tsx:307 | an item is in the active section iff it is in the list and not completed |
| `TodoList.Completed` | my-app/components/screens/HomeScreen.tsx:308 | an item is in the completed section iff it is in the list and completed |
| `TodoList.Partition` | my-app/components/screens/HomeScreen.tsx:306-309 | the active and completed sections interleave, in order, into the list; their lengths add up to the list's, and together they hold each item exactly once |
| `TodoList.ClearCompletedIdempotent` | my-app/components/screens/HomeScreen.tsx:230 | clearing completed items from an already cleared list changes nothing |
| `TodoList.WithoutAbsentId` | my-app/components/screens/HomeScreen.tsx:151 | deleting an id that no item has leaves the list unchanged |
| `TodoList.FilterKeepsUniqueIds` | my-app/components/screens/HomeScreen.tsx:151 | any filter of a list whose ids are unique also has unique ids |
| `TodoList.RemovalKeepsUniqueIds` | my-app/components/screens/HomeScreen.tsx:230 | delete and clear-completed keep ids unique |
| `TodoList.UpdatesKeepUniqueIds` | my-app/components/screens/HomeScreen.tsx:192-197 | completion and text updates keep ids unique |
| `TodoList.AppendUniqueIds` | my-app/components/screens/HomeScreen.tsx:132-136 | appending the store's record keeps ids unique iff no item already has its id |
| `TodoList.SetCompletedLastWins` | my-app/components/screens/HomeScreen.tsx:169-174 | of two completion commits for one id, the later one decides the result |
| `TodoList.SetTextLastWins` | my-app/components/screens/HomeScreen.tsx:192-197 | of two text commits for one id, the later one decides the result |
| `TodoList.ToggleTwiceRestores` | my-app/components/screens/HomeScreen.tsx:159-174 | with unique ids, if the store answers each toggle with the requested value, two toggles restore the list, and the first toggle flips the found item |
| `Screens.DeleteRequests` | my-app/components/screens/HomeScreen.tsx:224-225 | clear-completed sends one delete per completed item, in list order, each for that item's id |
| `Screens.HomeScreen.constructor` | my-app/components/screens/HomeScreen.tsx:36-43 | on mount the screen has no tasks, empty drafts, no edit session, and the completed section expanded |
| `Screens.HomeScreen.LoadTodos` | my-app/components/screens/HomeScreen.tsx:110-125 | one list request; on success the list becomes the formatted records and nothing else changes; on failure the state is unchanged and a load alert is raised |
| `Screens.HomeScreen.AddTodo` | my-app/components/screens/HomeScreen.tsx:127-145 | a blank draft sends nothing and changes nothing; otherwise the untrimmed draft is sent with `completed` false and user 1; on success the store's record is appended and the draft cleared; on failure the state is unchanged |
| `Screens.HomeScreen.DeleteTodo` | my-app/components/screens/HomeScreen.tsx:147-157 | one delete request; on success, whatever flag the store returns, every item with the id is removed; on failure the state is unchanged; the edit session is untouched either way |
| `Screens.HomeScreen.CompleteTodo` | my-app/components/screens/HomeScreen.tsx:159-180 | an id not in the list sends nothing and changes nothing; otherwise it requests the negation of the first match's flag; on success every item with the id takes the store's flag; on failure the state is unchanged |
| `Screens.HomeScreen.StartEdit` | my-app/components/screens/HomeScreen.tsx:182-185 | the edit session becomes exactly (id, current text), replacing any earlier session; nothing else changes |
| `Screens.HomeScreen.ChangeEditText` | my-app/components/screens/HomeScreen.tsx:264 | the edit draft becomes the typed text; nothing else changes |
| `Screens.HomeScreen.SaveEdit` | my-app/components/screens/HomeScreen.tsx:187-207 | with no session or a blank draft, nothing is sent and nothing changes; otherwise the untrimmed draft is sent for the edited id; on success items with that id take the store's text and the session closes; on failure the session and list stay as they were |
| `Screens.HomeScreen.CancelEdit` | my-app/components/screens/HomeScreen.tsx:209-213 | the session closes and its draft is emptied; nothing else changes |
| `Screens.HomeScreen.ChangeTodoText` | my-app/components/screens/HomeScreen.tsx:435 | the add draft becomes the typed text; nothing else changes |
| `Screens.HomeScreen.CancelAdd` | my-app/components/screens/HomeScreen.tsx:441-444 | the add draft is emptied; nothing else changes |
| `Screens.HomeScreen.ClearCompleted` | my-app/components/screens/HomeScreen.tsx:221-236 | one delete per completed item; if all of them resolve, the list becomes its active items and nothing else changes; if any fails, the state is unchanged and a clear alert is raised |
| `Screens.HomeScreen.ToggleCompletedVisibility` | my-app/components/screens/HomeScreen.tsx:241-244 | the visibility flag flips and nothing else changes |
| `Screens.HomeScreen.Sections` | my-app/components/screens/HomeScreen.tsx:306-309 | the two sections the screen derives from the list, active and completed, interleave, in order, into the list; every active item is not completed and every completed item is completed; their lengths add up to the list's |

## Left out

- The network, HTTP and JSON handling in `my-app/services/todoService.ts` are not modelled as code. Each call is one `Reply` parameter that carries the store's answer or a failure.
- The `Reply` type's `Fail` stands only for a rejected call, that is a network error or a body that is not JSON. An HTTP error status is not a failure in the app: the service never checks `response.ok` (`my-app/services/todoService.ts` lines 12-14, 32, 46 and 58-59), so an error body resolves. `Ok` always carries a well-formed `ApiTodo`. The model therefore does not show what add, toggle-complete and save-edit commit when a resolved error body lacks the record's fields (`undefined` values in the list, with no alert). Delete ignores the answer's value, so an error body removes the item, as `DeleteTodo` does on any `Ok`. Load with an error body throws in `map` and alerts, as `LoadTodos` does on `Fail`.
- Concurrency is not modelled. Each handler runs as one atomic step, so the list a handler reads is the list it commits to. The app can run overlapping handlers, and `handleCompleteTodo` and clear-completed read a list snapshot that may be stale by the time they commit.
- UI state is not modelled: the `loading` flag, the add dialog's visibility, keyboard listeners, scrolling to the edited item, the pulse animation, `LayoutAnimation`, styles and rendering. Alerts appear only as their kind in `Outcome`.
- The confirmation dialog in `clearCompleted` is not modelled. Its Cancel button does nothing. `ClearCompleted` models the body of its "Clear" button.
- Screens.HomeScreen.ClearCompleted: it requires one reply per delete it sends. This describes the store's answers, not a demand the app makes of its callers.
- The mount effect that calls `loadTodos` is a `LoadTodos` call after the constructor, not a separate member.
- `hasCompletedTodos` (whether the completed section is shown at all) is not modelled. It only says that `Completed` is non-empty.
- JsText.Trim: JavaScript strings are UTF-16 code units, but the model works on Unicode scalar values. Every character that `trim` strips is in the Basic Multilingual Plane, so the blank test is the same.
- The sign-in, profile and splash screens are not part of this model. They handle login, token storage, navigation and animation.

/** The screen's task list and the pure list transforms its handlers commit:
    formatting the fetched records, removing by id, setting the completion
    flag or the text of the items with an id, and the active/completed
    partition that both the display and "clear completed" use. */
module TodoList {
  import opened JsArray
  import opened Remote

  /** A task as the screen holds it (`Todo`). */
  datatype Todo = Todo(id: int, text: string, completed: bool)

  /** The local shape of a remote record: `todo` becomes `text`, `userId` is dropped. */
  function FromApi(r: ApiTodo): Todo {
    Todo(r.id, r.todo, r.completed)
  }

  /** The fetched records mapped one by one, in order, to the local shape. */
  function Format(api: seq<ApiTodo>): (ts: seq<Todo>)
    ensures |ts| == |api|
    ensures forall i :: 0 <= i < |api| ==>
              ts[i].id == api[i].id && ts[i].text == api[i].todo && ts[i].completed == api[i].completed
  {
    Map(api, FromApi)
  }

  function HasId(id: int): Todo -> bool {
    (t: Todo) => t.id == id
  }

  function LacksId(id: int): Todo -> bool {
    (t: Todo) => t.id != id
  }

  predicate IsActive(t: Todo) {
    !t.completed
  }

  predicate IsDone(t: Todo) {
    t.completed
  }

  /** The list after a delete: no item with `id` is left, every other item
      stays, and the kept and the removed items split the list in order. */
  function WithoutId(ts: seq<Todo>, id: int): (r: seq<Todo>)
    ensures forall t :: t in r ==> t.id != id
    ensures forall t :: t in ts && t.id != id ==> t in r
    ensures IsMerge(ts, r, Filter(ts, HasId(id)))
  {
    FilterSplits(ts, LacksId(id), HasId(id));
    Filter(ts, LacksId(id))
  }

  /** The list after a completion update: same length, ids and texts; the
      items with `id` carry `done`, every other item is untouched. */
  function SetCompleted(ts: seq<Todo>, id: int, done: bool): (r: seq<Todo>)
    ensures |r| == |ts|
    ensures forall i :: 0 <= i < |ts| ==> r[i].id == ts[i].id && r[i].text == ts[i].text
    ensures forall i :: 0 <= i < |ts| ==> r[i].completed == (if ts[i].id == id then done else ts[i].completed)
  {
    Map(ts, (t: Todo) => if t.id == id then t.(completed := done) else t)
  }

  /** The list after a text update: same length, ids and completion flags;
      the items with `id` carry `text`, every other item is untouched. */
  function SetText(ts: seq<Todo>, id: int, text: string): (r: seq<Todo>)
    ensures |r| == |ts|
    ensures forall i :: 0 <= i < |ts| ==> r[i].id == ts[i].id && r[i].completed == ts[i].completed
    ensures forall i :: 0 <= i < |ts| ==> r[i].text == (if ts[i].id == id then text else ts[i].text)
  {
    Map(ts, (t: Todo) => if t.id == id then t.(text := text) else t)
  }

  /** The active partition: every item not completed, and nothing else. */
  function Active(ts: seq<Todo>): (r: seq<Todo>)
    ensures forall t :: t in r <==> t in ts && !t.completed
  {
    Filter(ts, IsActive)
  }

  /** The completed partition: every completed item, and nothing else. */
  function Completed(ts: seq<Todo>): (r: seq<Todo>)
    ensures forall t :: t in r <==> t in ts && t.completed
  {
    Filter(ts, IsDone)
  }

  /** No two items share an id. The screen does not keep this (an add
      appends whatever id the store returns); the lemmas below say which
      transforms preserve it. */
  predicate UniqueIds(ts: seq<Todo>) {
    forall i, j :: 0 <= i < j < |ts| ==> ts[i].id != ts[j].id
  }

  /** The two partitions split the list in order, their lengths add up to
      the list's, and between them they hold each item exactly once. */
  lemma Partition(ts: seq<Todo>)
    ensures IsMerge(ts, Active(ts), Completed(ts))
    ensures |Active(ts)| + |Completed(ts)| == |ts|
    ensures multiset(Active(ts)) + multiset(Completed(ts)) == multiset(ts)
  {
    FilterSplits(ts, IsActive, IsDone);
    MergeCounts(ts, Active(ts), Completed(ts));
  }

  /** Clearing the completed items twice is clearing them once. */
  lemma ClearCompletedIdempotent(ts: seq<Todo>)
    ensures Active(Active(ts)) == Active(ts)
  {
    FilterIdempotent(ts, IsActive);
  }

  /** Deleting an id no item carries leaves the list as it was. */
  lemma WithoutAbsentId(ts: seq<Todo>, id: int)
    requires forall i :: 0 <= i < |ts| ==> ts[i].id != id
    ensures WithoutId(ts, id) == ts
  {
    FilterKeepsAll(ts, LacksId(id));
  }

  /** A list filtered from one with unique ids has unique ids. */
  lemma {:induction false} FilterKeepsUniqueIds(ts: seq<Todo>, p: Todo -> bool)
    requires UniqueIds(ts)
    ensures UniqueIds(Filter(ts, p))
  {
    if ts != [] {
      FilterKeepsUniqueIds(ts[1..], p);
      var rest := Filter(ts[1..], p);
      if p(ts[0]) {
        forall t | t in rest ensures t.id != ts[0].id {
          var k :| 0 <= k < |ts[1..]| && ts[1..][k] == t;
          assert ts[k + 1] == t;
        }
        var r := [ts[0]] + rest;
        forall i, j | 0 <= i < j < |r| ensures r[i].id != r[j].id {
          if i == 0 {
            assert r[j] in rest;
          } else {
            assert r[i] == rest[i - 1] && r[j] == rest[j - 1];
          }
        }
      }
    }
  }

  /** Deleting and clearing keep ids unique. */
  lemma RemovalKeepsUniqueIds(ts: seq<Todo>, id: int)
    requires UniqueIds(ts)
    ensures UniqueIds(WithoutId(ts, id)) && UniqueIds(Active(ts))
  {
    FilterKeepsUniqueIds(ts, LacksId(id));
    FilterKeepsUniqueIds(ts, IsActive);
  }

  /** Updates in place keep ids unique. */
  lemma UpdatesKeepUniqueIds(ts: seq<Todo>, id: int, done: bool, text: string)
    requires UniqueIds(ts)
    ensures UniqueIds(SetCompleted(ts, id, done)) && UniqueIds(SetText(ts, id, text))
  {
  }

  /** An append keeps ids unique exactly when the new id is not already in the list. */
  lemma AppendUniqueIds(ts: seq<Todo>, t: Todo)
    requires UniqueIds(ts)
    ensures UniqueIds(ts + [t]) <==> forall i :: 0 <= i < |ts| ==> ts[i].id != t.id
  {
    if UniqueIds(ts + [t]) {
      forall i | 0 <= i < |ts| ensures ts[i].id != t.id {
        assert (ts + [t])[i] == ts[i] && (ts + [t])[|ts|] == t;
      }
    }
  }

  /** Of two completion updates of the same id, the later one wins. */
  lemma SetCompletedLastWins(ts: seq<Todo>, id: int, first: bool, second: bool)
    ensures SetCompleted(SetCompleted(ts, id, first), id, second) == SetCompleted(ts, id, second)
  {
  }

  /** Of two text updates of the same id, the later one wins. */
  lemma SetTextLastWins(ts: seq<Todo>, id: int, first: string, second: string)
    ensures SetText(SetText(ts, id, first), id, second) == SetText(ts, id, second)
  {
  }

  /** With unique ids, requesting the negation of the found item's flag
      twice, each time answered with what was requested, restores the list. */
  lemma ToggleTwiceRestores(ts: seq<Todo>, id: int)
    requires UniqueIds(ts)
    requires Find(ts, HasId(id)).Some?
    ensures var b := Find(ts, HasId(id)).value.completed;
            var once := SetCompleted(ts, id, !b);
            Find(once, HasId(id)).Some? && Find(once, HasId(id)).value.completed == !b
            && SetCompleted(once, id, b) == ts
  {
  }
}

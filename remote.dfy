/** The remote task store as the screen sees it: the record shape it returns,
    the requests the screen sends, and the two ways a request can end. The
    HTTP transport itself is not part of this model. */
module Remote {

  /** A task as the remote store returns it (`ApiTodo`). */
  datatype ApiTodo = ApiTodo(id: int, todo: string, completed: bool, userId: int)

  /** The partial record an update sends: either the completion flag or the text. */
  datatype Patch = CompletedPatch(completed: bool) | TodoPatch(todo: string)

  /** One call to the store, with the payload the service puts in its body. */
  datatype Request =
    | List
    | Create(todo: string, completed: bool, userId: int)
    | Update(id: int, patch: Patch)
    | Delete(id: int)

  /** How a call ends: the awaited promise resolves with a value, or it
      rejects (a network error or a body that is not JSON). An HTTP error
      status is not a rejection; `Ok` carries only well-formed records. */
  datatype Reply<T> = Ok(value: T) | Fail

  /** The user id the service attaches to every created task. */
  const DefaultUserId: int := 1

}

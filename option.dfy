/** A value that may be absent: the result of `find`, and the id of the
    edit session (`number | null`). */
module Options {

  datatype Option<T> = None | Some(value: T)
}

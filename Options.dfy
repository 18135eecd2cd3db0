/** A value that may be absent: a field that is `null`/`undefined`, or a
    number that did not parse. */
module Options {
  datatype Option<T> = None | Some(value: T)
}

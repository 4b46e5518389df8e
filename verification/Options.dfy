/** A value that may be missing: a null column, or the result of an operation that
    throws. */
module Options {
  datatype Option<+T> = None | Some(value: T)
}

module Options {
  /** A nullable column, a missing dictionary entry, or Python's None. */
  datatype Option<+T> = None | Some(value: T)
}

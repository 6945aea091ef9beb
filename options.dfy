/** The source's "value or null": a result that may be absent. */
module Options {
  datatype Option<+T> = None | Some(value: T)
}

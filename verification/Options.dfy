/** A value that may be absent, for the empty results of the modelled calls. */
module Options {
  datatype Option<+T> = None | Some(value: T)
}

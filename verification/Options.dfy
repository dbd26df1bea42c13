/** The absence of a value, as the sources' null pointers and failed look-ups express it. */
module Options {
  datatype Option<+T> = None | Some(value: T)
}

/** A value that may be absent: the nil of the original's pointers and interfaces. */
module Options {
  datatype Option<+T> = None | Some(value: T)
}

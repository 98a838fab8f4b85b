/** Shared helper types. */
module Wrappers {

  /** A value that may be absent: JavaScript's `undefined` where the source reads one. */
  datatype Option<+T> = None | Some(value: T)
}

/** The optional value used wherever the source holds a pointer that may be null. */
module Wrappers {
  datatype Option<+T> = None | Some(value: T)
}

/** The optional value: a `find` that may end in `npos`, a pointer that may be null. */
module Wrappers {
  datatype Option<+T> = None | Some(value: T)
}

// The optional value used where the program returns a pointer or a "found" flag.
module Wrappers {
  datatype Option<+T> = None | Some(value: T)
}

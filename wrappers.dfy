/** The optional value used where the page either computes something or leaves it unset. */
module Wrappers {
  datatype Option<+T> = None | Some(value: T)
}

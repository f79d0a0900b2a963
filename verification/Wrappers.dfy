/** The optional value every part of the model shares: a file that may be missing, a field that may be unset. */
module Wrappers {
  datatype Option<+T> = None | Some(value: T)
}

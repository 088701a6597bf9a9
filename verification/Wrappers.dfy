/** The stock optional value, used for null pointers and absent files. */
module Wrappers {
  datatype Option<+T> = None | Some(value: T)
}

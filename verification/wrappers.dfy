/** The optional value used for an environment lookup that may find nothing. */
module Wrappers {
  datatype Option<+T> = None | Some(value: T)
}

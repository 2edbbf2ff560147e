/** The optional value used wherever the script may find nothing. */
module Wrappers {
  datatype Option<+T> = None | Some(value: T)
}

/** The optional value used for "nothing was thrown" / "a failure was thrown". */
module Wrappers {

  datatype Option<+T> = None | Some(value: T)
}

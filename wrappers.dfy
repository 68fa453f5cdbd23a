/** The optional value used for nullable fields and Python's `None`. */
module Wrappers {

  datatype Option<+T> = None | Some(value: T)
}

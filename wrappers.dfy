/** Small value wrappers shared by the other modules. */
module Wrappers {

  /** An optional value: Go's nil error, nil slice or missing row is None. */
  datatype Option<+T> = None | Some(value: T)
}

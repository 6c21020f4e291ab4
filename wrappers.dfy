/** The conventional optional-value datatype, used for partial inverses. */
module Wrappers {
  datatype Option<+T> = None | Some(value: T)
}

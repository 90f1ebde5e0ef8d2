/** The optional-value datatype used throughout the model. */
module Wrappers {

  /** A value that may be absent, in place of Python's `None`. */
  datatype Option<+T> = None | Some(value: T)
}

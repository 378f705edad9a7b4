/** Small wrapper types shared by the modules of the model. */
module Wrappers {

  /** A value that may be absent; Python's `None` versus a value. */
  datatype Option<+T> = None | Some(value: T)
}

/** Small helper datatypes shared by the modules of this model. */
module Wrappers {

  /** A value that may be absent (Python's None, JavaScript's undefined). */
  datatype Option<+T> = None | Some(value: T)
}

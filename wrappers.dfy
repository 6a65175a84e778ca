/** The optional value shared by the modules of this model. */
module Wrappers {

  /** A value that may be absent: stands for a C pointer that may be NULL. */
  datatype Option<+T> = None | Some(value: T)
}

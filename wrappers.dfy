/** The optional value shared by the app models. */
module Wrappers {

  /** A value that may be absent: `None` where the source has no result. */
  datatype Option<T> = None | Some(value: T)
}

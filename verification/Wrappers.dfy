module Wrappers {
  /** A value that may be missing, such as a nullable column. */
  datatype Option<+T> = None | Some(value: T)
}

/** The optional-value datatype used for fields that may be absent (a Java `null`). */
module Wrappers {
  datatype Option<+T> = None | Some(value: T)
}

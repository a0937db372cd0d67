/** Small shared datatypes. */
module Wrappers {

  /** A value that may be absent (a JavaScript `null` or an unset field). */
  datatype Option<T> = None | Some(value: T)
}

/** The usual optional-value datatype, for Python operations that may yield nothing or fail. */
module Wrappers {
  datatype Option<+T> = None | Some(value: T)
}

/** Option stands for a Go pointer that may be nil: None is nil, Some(v) points at a copy of v. */
module Wrappers {
  datatype Option<+T> = None | Some(value: T)
}

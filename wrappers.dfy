/** The optional value that stands for Python's `None` start values. */
module Wrappers {
  datatype Option<T> = None | Some(value: T)
}

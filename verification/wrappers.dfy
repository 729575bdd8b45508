/** The optional value used in place of a C++ null pointer. */
module Wrappers {

  /** `None` stands for a null pointer, `Some(v)` for a pointer to `v`. */
  datatype Option<+T> = None | Some(value: T)
}

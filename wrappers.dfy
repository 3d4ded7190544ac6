/** The optional value used wherever the source has a null pointer, a missing file or `npos`. */
module Wrappers {
  datatype Option<+T> = None | Some(value: T)
}

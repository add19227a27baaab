/** The optional value used for a paddle's pursuit velocity, which may be absent. */
module Wrappers {
  datatype Option<+T> = None | Some(value: T)
}

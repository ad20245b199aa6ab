/** The optional value used wherever the resolver works with a nullable Kotlin value. */
module Wrappers {
  datatype Option<+T> = None | Some(value: T)
}

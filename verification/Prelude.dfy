/** Shared wrapper type. */
module Prelude {
  datatype Option<+T> = None | Some(value: T)
}

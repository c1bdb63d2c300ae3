/** Shared helper datatypes. */
module Wrappers {

  /** A value that may be absent (`null` / `undefined` in the component code). */
  datatype Option<+T> = None | Some(value: T)
}

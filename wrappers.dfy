/** `T | null` / `T | undefined` values of the source. */
module Wrappers {
  datatype Option<T> = None | Some(value: T)
}

/** Small shared definitions: an optional value and Math.max on integers. */
module Util {

  /** A value that may be absent, such as a storage key that was never written. */
  datatype Option<T> = None | Some(value: T)

  function Max(a: int, b: int): int {
    if a >= b then a else b
  }

}

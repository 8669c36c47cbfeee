/** The value that a dictionary lookup or an optional field may or may not hold. */
module Wrappers {
  datatype Option<+T> = None | Some(value: T)

  /** Python's `dict.get(key, default)`. */
  function Get<K, V>(m: map<K, V>, key: K, default: V): V {
    if key in m then m[key] else default
  }

  function Max(x: int, y: int): int {
    if x < y then y else x
  }

  function Min(x: int, y: int): int {
    if x < y then x else y
  }
}

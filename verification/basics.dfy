/** What every part of the model uses. */
module Basics {
  datatype Option<T> = None | Some(value: T)

  function Smaller(a: int, b: int): int {
    if a < b then a else b
  }
}

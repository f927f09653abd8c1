/** Optional values, standing in for JavaScript's `undefined` (a missing key or a failed lookup). */
module Wrappers {

  datatype Option<+T> = None | Some(value: T)

  /** The value, or `def` when it is missing (`x ?? def`). */
  function GetOr<T>(o: Option<T>, def: T): T
  {
    match o
    case Some(v) => v
    case None => def
  }

  function MinReal(a: real, b: real): real { if a <= b then a else b }

  function MaxReal(a: real, b: real): real { if a >= b then a else b }

  function MinInt(a: int, b: int): int { if a <= b then a else b }

  function MaxInt(a: int, b: int): int { if a >= b then a else b }
}

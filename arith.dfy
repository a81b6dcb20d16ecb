/** The integer helpers shared by the allocation and the frame batch:
    Python's two-argument `min` and `max`. */
module Arith {

  function Max(a: int, b: int): int
  {
    if a >= b then a else b
  }

  function Min(a: int, b: int): int
  {
    if a <= b then a else b
  }
}

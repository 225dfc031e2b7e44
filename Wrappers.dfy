/**
 * Optional values, standing for C pointers that may be NULL and for parses
 * that may fail, and the `Min` the C code's bounded copies use.
 */
module Wrappers {

  datatype Option<+T> = None | Some(value: T)

  function Min(a: int, b: int): int
  {
    if a <= b then a else b
  }
}

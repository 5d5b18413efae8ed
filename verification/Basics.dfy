/** Small definitions that several modules use. */
module Basics {

  datatype Option<+T> = None | Some(value: T)

  function Min(a: int, b: int): int {
    if a <= b then a else b
  }

  function Max(a: int, b: int): int {
    if a >= b then a else b
  }

  /** The value of a decimal or hexadecimal digit. */
  function Digit(c: char): nat {
    if '0' <= c <= '9' then (c - '0') as int
    else if 'a' <= c <= 'f' then (c - 'a') as int + 10
    else if 'A' <= c <= 'F' then (c - 'A') as int + 10
    else 0
  }

  predicate IsDigit(c: char, base: nat) {
    if base == 10 then '0' <= c <= '9' else '0' <= c <= '9' || 'a' <= c <= 'f' || 'A' <= c <= 'F'
  }
}

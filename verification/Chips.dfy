/** Chip amounts are `u64` in the program. The model uses natural numbers and writes every
    overflow check out against `U64_MAX`. */
module Chips {

  const U64_MAX: nat := 0xFFFF_FFFF_FFFF_FFFF

  datatype Option<+T> = None | Some(value: T)

  datatype Unit = Unit

  function Min(a: nat, b: nat): nat {
    if a <= b then a else b
  }
}

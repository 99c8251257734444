/**
  The target's 32-bit `unsigned long`, modelled on unbounded integers with
  the wrap-around written out: arithmetic and conversions reduce modulo 2^32.
*/
module Uint32 {

  const Modulus := 0x1_0000_0000

  type U32 = x: int | 0 <= x < Modulus

  /** Unsigned addition, wrapping past 2^32 - 1 back to 0. */
  function Add(a: U32, b: U32): U32
  {
    (a + b) % Modulus
  }

  /** Unsigned subtraction, wrapping below 0 up to 2^32 - 1. */
  function Sub(a: U32, b: U32): U32
  {
    (a - b) % Modulus
  }

  /** Conversion of any integer (a `long`, say) to `unsigned long`. */
  function FromInt(v: int): (r: U32)
    ensures 0 <= v < Modulus ==> r == v
    ensures -Modulus <= v < 0 ==> r == v + Modulus
  {
    v % Modulus
  }

  /** Subtraction undoes addition, wrap-around included. */
  lemma SubAdd(a: U32, b: U32)
    ensures Sub(Add(a, b), a) == b
  {
  }
}

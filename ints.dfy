/** Fixed-width integers of the AVR firmware and the C conversions between them.
    Dafny's integers are unbounded; every place where C stores a value into a
    narrower type goes through one of the conversions below. */
module Ints {

  type uint8 = x: int | 0 <= x < 0x100
  type int8 = x: int | -0x80 <= x < 0x80
  type uint16 = x: int | 0 <= x < 0x1_0000
  type int16 = x: int | -0x8000 <= x < 0x8000

  const INT16_MIN: int16 := -0x8000
  const INT16_MAX: int16 := 0x7FFF

  /** A pointer that may be NULL. */
  datatype Option<+T> = None | Some(value: T)

  /** Storing an int into an `int8_t`: two's complement wrap-around. */
  function ToInt8(v: int): (r: int8)
    ensures -0x80 <= v < 0x80 ==> r == v
    ensures (v - r) % 0x100 == 0
  {
    (v + 0x80) % 0x100 - 0x80
  }

  /** Storing an int into a `uint8_t` (or an 8-bit port register). */
  function ToUint8(v: int): (r: uint8)
    ensures 0 <= v < 0x100 ==> r == v
    ensures (v - r) % 0x100 == 0
  {
    v % 0x100
  }

  /** Storing an int into a `uint16_t`. */
  function ToUint16(v: int): (r: uint16)
    ensures 0 <= v < 0x1_0000 ==> r == v
    ensures (v - r) % 0x1_0000 == 0
  {
    v % 0x1_0000
  }

  /** C's integer division, which truncates toward zero (Dafny's `/` is Euclidean):
      the remainder has the sign of the dividend and is smaller than the divisor. */
  function DivTrunc(a: int, d: int): (q: int)
    requires d > 0
    ensures 0 <= a ==> 0 <= a - q * d < d
    ensures a < 0 ==> -d < a - q * d <= 0
  {
    if a >= 0 then a / d else -((-a) / d)
  }

  /** Multiplying by a non-negative factor preserves order. */
  lemma MulMonotone(a: int, b: int, c: int)
    requires 0 <= a && b <= c
    ensures a * b <= a * c
  {
  }
}

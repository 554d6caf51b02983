/** Fixed-width C integer types and the C conversions the firmware relies on.
    Dafny's `int` and `real` are unbounded and exact; every truncation that the
    C code performs implicitly (a store into a narrower field, a float-to-integer
    cast, `abs` applied to a float) is written out here once. */
module CTypes {

  /** A `uint8_t` value. */
  type Byte = x: int | 0 <= x < 256

  datatype Option<T> = None | Some(value: T)

  predicate IsU8(x: int) { 0 <= x < 256 }

  predicate IsU16(x: int) { 0 <= x < 0x1_0000 }

  /** Storing an `int` into a `uint8_t` field keeps the value modulo 256. */
  function ToU8(x: int): (r: Byte)
    ensures IsU8(x) ==> r == x
    ensures (x - r) % 256 == 0
  {
    x % 256
  }

  /** Storing an `int` into a `uint16_t` field keeps the value modulo 65536. */
  function ToU16(x: int): (r: int)
    ensures IsU16(r)
    ensures IsU16(x) ==> r == x
    ensures (x - r) % 0x1_0000 == 0
  {
    x % 0x1_0000
  }

  /** C's conversion of a floating value to an integer type: the fractional
      part is discarded, rounding toward zero. */
  function Trunc(x: real): (r: int)
    ensures 0.0 <= x ==> 0 <= r && r as real <= x < r as real + 1.0
    ensures x < 0.0 ==> r <= 0 && r as real - 1.0 < x <= r as real
  {
    if x >= 0.0 then x.Floor else -((-x).Floor)
  }

  /** A float converted to `uint16_t` is defined only when the truncated value
      is representable. */
  predicate U16Convertible(x: real) { -1.0 < x < 65536.0 }

  /** C's integer `abs`. */
  function Abs(x: int): (r: int)
    ensures 0 <= r
    ensures r == x || r == -x
  {
    if x < 0 then -x else x
  }

  /** Truncation never moves a value across another integer: it is monotone. */
  lemma TruncMonotone(x: real, y: real)
    requires x <= y
    ensures Trunc(x) <= Trunc(y)
  {
    if 0.0 <= x {
      assert x.Floor <= y.Floor;
    } else if 0.0 <= y {
    } else {
      assert (-y).Floor <= (-x).Floor;
    }
  }

  /** Truncating an integral value gives the value back. */
  lemma TruncOfInt(n: int)
    ensures Trunc(n as real) == n
  {
  }
}

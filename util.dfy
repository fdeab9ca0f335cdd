/** Small shared definitions: an Option type and fixed-width integer casts. */
module Util {

  datatype Option<+T> = None | Some(value: T)

  /** An octet, or any unsigned 8-bit value. */
  type byte = x: nat | x < 256

  const TWO_8: nat := 0x100
  const TWO_16: nat := 0x1_0000
  const TWO_32: nat := 0x1_0000_0000
  const TWO_64: nat := 0x1_0000_0000_0000_0000

  /** C++ `(unsigned char) x` for a non-negative count. */
  function ToUint8(x: nat): (r: nat)
    ensures r < TWO_8
  {
    x % TWO_8
  }

  /** C++ `(unsigned long)` as written into a 32-bit field. */
  function ToUint32(x: nat): (r: nat)
    ensures r < TWO_32
  {
    x % TWO_32
  }

  /** Truncation of a real toward zero, as a C++ floating-to-integer cast does. */
  function Trunc(x: real): (r: int)
    ensures x >= 0.0 ==> 0 <= r && r as real <= x < r as real + 1.0
    ensures x < 0.0 ==> r <= 0 && r as real - 1.0 < x <= r as real
  {
    if x >= 0.0 then x.Floor else -((-x).Floor)
  }

  /**
    `juce::roundToInt`: the nearest integer; an exact half goes to the even
    neighbour, as the floating-point addition it is built on rounds.
  */
  function RoundToInt(x: real): (r: int)
    ensures x - 0.5 <= r as real <= x + 0.5
    ensures (r as real - x == 0.5 || x - r as real == 0.5) ==> r % 2 == 0
  {
    var f := x.Floor;
    var frac := x - f as real;
    if frac < 0.5 then f
    else if frac > 0.5 then f + 1
    else if f % 2 == 0 then f
    else f + 1
  }
}

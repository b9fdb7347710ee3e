/** Fixed-width integer types of <stdint.h>, as ranges of the mathematical integers.
    Wrap-around is written out explicitly wherever the firmware relies on it. */
module StdInt {
  type uint8 = x: int | 0 <= x < 0x100
  type uint16 = x: int | 0 <= x < 0x1_0000
  type uint32 = x: int | 0 <= x < 0x1_0000_0000
  type int8 = x: int | -0x80 <= x < 0x80

  const Modulus16: int := 0x1_0000
  const Modulus32: int := 0x1_0000_0000

  /** A value stored into a uint16_t: reduced modulo 2^16. */
  function Wrap16(x: int): uint16
  {
    x % Modulus16
  }
}

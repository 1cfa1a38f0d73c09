/** The fixed-width unsigned integers of the firmware, with Rust's wrapping addition. */
module Ints {

  const U16_LIMIT: int := 0x1_0000
  const U32_LIMIT: int := 0x1_0000_0000

  newtype u8 = x: int | 0 <= x < 0x100
  newtype u16 = x: int | 0 <= x < 0x1_0000
  newtype u32 = x: int | 0 <= x < 0x1_0000_0000

  /** `u32::wrapping_add`: the sum modulo 2^32. */
  function WrappingAdd32(a: u32, b: u32): (r: u32)
    ensures a as int + b as int < U32_LIMIT ==> r as int == a as int + b as int
    ensures a as int + b as int >= U32_LIMIT ==> r as int == a as int + b as int - U32_LIMIT
  {
    ((a as int + b as int) % U32_LIMIT) as u32
  }

  /** `u16::wrapping_add`: the sum modulo 2^16. */
  function WrappingAdd16(a: u16, b: u16): (r: u16)
    ensures a as int + b as int < U16_LIMIT ==> r as int == a as int + b as int
    ensures a as int + b as int >= U16_LIMIT ==> r as int == a as int + b as int - U16_LIMIT
  {
    ((a as int + b as int) % U16_LIMIT) as u16
  }
}

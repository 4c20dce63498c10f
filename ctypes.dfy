/**
 Fixed-width integers of the C/Rust boundary and the Rust `as` casts between
 them. Every cast between integer types of the same or smaller width keeps the
 low bits, so each cast is written out as arithmetic modulo a power of two.
 */
module CTypes {

  const TWO_16: int := 0x1_0000
  const TWO_31: int := 0x8000_0000
  const TWO_32: int := 0x1_0000_0000

  newtype u8 = x: int | 0 <= x < 0x100
  newtype u16 = x: int | 0 <= x < 0x1_0000
  newtype u32 = x: int | 0 <= x < 0x1_0000_0000
  /** `i32`, and also `c_int` on every platform the binding targets. */
  newtype i32 = x: int | -0x8000_0000 <= x < 0x8000_0000

  /** `x as u32` for an `i32` (or `c_int`) `x`: reinterpret the two's-complement bits. */
  function I32AsU32(x: i32): (r: u32)
    ensures x >= 0 ==> r as int == x as int
    ensures x < 0 ==> r as int == x as int + TWO_32
  {
    ((x as int) % TWO_32) as u32
  }

  /** `u as i32` for a `u32` `u`: reinterpret the bits as two's complement. */
  function U32AsI32(u: u32): (r: i32)
    ensures u as int < TWO_31 ==> r as int == u as int
    ensures u as int >= TWO_31 ==> r as int == u as int - TWO_32
  {
    ((u as int + TWO_31) % TWO_32 - TWO_31) as i32
  }

  /** `n as u16` for a `usize` length `n`: keeps the low 16 bits. */
  function UsizeAsU16(n: nat): (r: u16)
    ensures n < TWO_16 ==> r as int == n
    ensures r as int <= n
    ensures (n - r as int) % TWO_16 == 0
  {
    (n % TWO_16) as u16
  }

  /** An `i32` sent through `as u32` and read back through `as i32` loses nothing. */
  lemma I32RoundTrip(x: i32)
    ensures U32AsI32(I32AsU32(x)) == x
  {
  }

  /** A `u32` sent through `as i32` and read back through `as u32` loses nothing. */
  lemma U32RoundTrip(u: u32)
    ensures I32AsU32(U32AsI32(u)) == u
  {
  }

  /** The cast to `u32` is one-to-one, so two different `i32` values never reach the driver as the same word. */
  lemma I32AsU32Injective(x: i32, y: i32)
    ensures I32AsU32(x) == I32AsU32(y) ==> x == y
  {
    if I32AsU32(x) == I32AsU32(y) {
      I32RoundTrip(x);
      I32RoundTrip(y);
    }
  }

  /** The 16-bit length wraps: a buffer one 64 KiB block longer is sent with the same length. */
  lemma UsizeAsU16Wraps(n: nat)
    ensures UsizeAsU16(n + TWO_16) == UsizeAsU16(n)
  {
  }
}

/**
 * Machine integers, account identifiers and Option as the Magink contract
 * sees them.  Rust's fixed-width integers are subset types of `int`; where
 * the contract narrows a value (`as u8`) the truncation is written out.
 */
module Primitives {

  /** Rust's `u8`. */
  type uint8 = x: int | 0 <= x < 0x100

  /** Rust's `u32`; block numbers are `u32` on the host chain. */
  type uint32 = x: int | 0 <= x < 0x1_0000_0000

  const UINT8_MAX: uint8 := 0xFF

  /** A 32-byte account identifier (`AccountId` of the host chain). */
  type AccountId = a: seq<bv8> | |a| == 32 witness seq(32, _ => 0)

  datatype Option<T> = None | Some(value: T)

  /**
   * Rust's `x as u8` on a `u32`: keeps the low eight bits.  The cast is
   * exact exactly when the value already fits in a `u8`.
   */
  function AsU8(x: uint32): (r: uint8)
    ensures r == x <==> x < 0x100
  {
    x % 0x100
  }
}

/** Rust's fixed-width integers and the `as` casts the source applies to them. */
module Ints {

  const TWO_32: int := 0x1_0000_0000
  const TWO_63: int := 0x8000_0000_0000_0000
  const TWO_64: int := 0x1_0000_0000_0000_0000

  newtype I32 = x: int | -0x8000_0000 <= x < 0x8000_0000
  newtype I64 = x: int | -0x8000_0000_0000_0000 <= x < 0x8000_0000_0000_0000
  newtype U64 = x: int | 0 <= x < 0x1_0000_0000_0000_0000

  /** `n as i32` for a `usize` length: keep the low 32 bits, read them as two's complement. */
  function UsizeAsI32(n: nat): (r: I32)
    ensures n < 0x8000_0000 ==> r as int == n
    ensures (r as int - n) % TWO_32 == 0
  {
    var low := n % TWO_32;
    if low < 0x8000_0000 then low as I32 else (low - TWO_32) as I32
  }

  /** `x as i64` for a `u64`: the same 64 bits read as two's complement. */
  function U64AsI64(x: U64): (r: I64)
    ensures x as int < TWO_63 ==> r as int == x as int
    ensures x as int >= TWO_63 ==> r < 0 && r as int == x as int - TWO_64
    ensures (r as int - x as int) % TWO_64 == 0
  {
    if (x as int) < TWO_63 then x as int as I64 else (x as int - TWO_64) as I64
  }

  /** `x as u64` for an `i64`: negative values wrap to the top half of the range. */
  function I64AsU64(x: I64): (r: U64)
    ensures x >= 0 ==> r as int == x as int
    ensures x < 0 ==> r as int == x as int + TWO_64
  {
    if x >= 0 then x as int as U64 else (x as int + TWO_64) as U64
  }

  /** Storing a `u64` as `i64` and reading it back as `u64` loses nothing, whatever its size. */
  lemma U64RoundTrip(x: U64)
    ensures I64AsU64(U64AsI64(x)) == x
  {
  }
}

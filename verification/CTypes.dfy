/** The fixed-width integers of the firmware. Arithmetic on a newtype is checked:
    an operation that left the range would not verify, so a body written with
    these types carries the proof that the C code it models never overflows. */
module CTypes {
  type Uint32 = x: int | 0 <= x < 0x1_0000_0000
  newtype int16 = x: int | -0x8000 <= x < 0x8000
  newtype int32 = x: int | -0x8000_0000 <= x < 0x8000_0000
  newtype int64 = x: int | -0x8000_0000_0000_0000 <= x < 0x8000_0000_0000_0000

  /** Saturation of a wide sample to int16 (hpf.c and dc_blocker.c each carry a copy). */
  function SatInt16(v: int): (r: int16)
    ensures -0x8000 <= v < 0x8000 ==> r as int == v
    ensures v >= 0x8000 ==> r == 0x7fff
    ensures v < -0x8000 ==> r == -0x8000
  {
    if v > 32767 then 32767 else if v < -32768 then -32768 else v as int16
  }

  /** A stretch of constant input. */
  function Repeat(x: int16, n: nat): seq<int16> { seq(n, _ => x) }
}

/** Bytes, shared by everything that reads or writes buffers. */
module Bytes {

  type Byte = x: int | 0 <= x < 0x100
  type U16 = x: int | 0 <= x < 0x1_0000
  type U32 = x: int | 0 <= x < 0x1_0000_0000

  /** Sixteen bits, least significant byte first. */
  function HalfBytes(h: U16): (b: seq<Byte>)
    ensures |b| == 2
  {
    var lo, hi := h % 0x100, h / 0x100;
    [lo, hi]
  }
}

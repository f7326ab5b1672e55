/** Go's fixed-width integers, written out over Dafny's unbounded `int`. */
module GoInt {

  const TWO_63: int := 0x8000_0000_0000_0000
  const TWO_64: int := 0x1_0000_0000_0000_0000
  const MAX_INT64: int := TWO_63 - 1
  const MAX_UINT64: int := TWO_64 - 1

  /** Go's int64 (and Go's int, which is 64 bits wide on the platforms proxyd targets). */
  type int64 = x: int | -TWO_63 <= x < TWO_63

  type uint64 = x: int | 0 <= x < TWO_64

  /** The two's-complement wrap-around Go applies when signed 64-bit arithmetic overflows. */
  function Wrap64(x: int): (r: int64)
    ensures -TWO_63 <= x < TWO_63 ==> r == x
    ensures (x - r) % TWO_64 == 0
  {
    var m := (x + TWO_63) % TWO_64;
    assert x + TWO_63 == TWO_64 * ((x + TWO_63) / TWO_64) + m;
    m - TWO_63
  }
}

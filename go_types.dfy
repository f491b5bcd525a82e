/** The fixed-width Go integer types the server's code works with. */
module GoTypes {

  const MinInt64: int := -0x8000_0000_0000_0000
  const MaxInt64: int := 0x7fff_ffff_ffff_ffff

  /** Go's `int64`, and `int` on a 64-bit platform. */
  type Int64 = x: int | MinInt64 <= x <= MaxInt64

  /** Go's `uint32`. */
  type Uint32 = x: int | 0 <= x < 0x1_0000_0000
}

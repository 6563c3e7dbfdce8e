/**
 * Java's fixed-width integer types, as far as the battery monitor uses them:
 * `int` for percentages and thresholds, `long` for the repeat interval and
 * its millisecond delay. Java `long` arithmetic wraps around modulo 2^64.
 */
module JavaInts {

  const Int64Modulus: int := 0x1_0000_0000_0000_0000
  const MinInt64: int := -0x8000_0000_0000_0000
  const MaxInt64: int := 0x7fff_ffff_ffff_ffff

  /** A Java `int`. */
  type Int32 = x: int | -0x8000_0000 <= x < 0x8000_0000

  /** A Java `long`. */
  type Int64 = x: int | -0x8000_0000_0000_0000 <= x < 0x8000_0000_0000_0000

  predicate InInt64Range(x: int) {
    MinInt64 <= x <= MaxInt64
  }

  /**
   * The two's-complement truncation a Java `long` operation applies to its
   * mathematical result: the unique `long` congruent to `x` modulo 2^64.
   */
  function WrapInt64(x: int): (r: Int64)
    ensures InInt64Range(x) ==> r == x
    ensures (x - r) % Int64Modulus == 0
  {
    var m := (x - MinInt64) % Int64Modulus;
    assert x - (m + MinInt64) == ((x - MinInt64) / Int64Modulus) * Int64Modulus;
    m + MinInt64
  }
}

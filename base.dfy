/** Optional values and Go's fixed-width integers, with the conversions
    between them that Go performs by wrapping around modulo 2^64. */
module Base {

  /** A Go pointer that may be nil, or a value that may be absent. */
  datatype Option<T> = None | Some(value: T)

  const TWO_TO_63: int := 0x8000_0000_0000_0000
  const TWO_TO_64: int := 0x1_0000_0000_0000_0000
  const MAX_INT64: int := TWO_TO_63 - 1

  /** Go's `uint64`. */
  type uint64 = x: int | 0 <= x < TWO_TO_64

  /** Go's `int64`. */
  type int64 = x: int | -TWO_TO_63 <= x < TWO_TO_63

  /** Go's conversion `int64(v)` of a `uint64`: the bit pattern is kept, so
      values above the largest `int64` come out negative. */
  function Int64OfUint64(v: uint64): (r: int64)
    ensures r < 0 <==> v > MAX_INT64
    ensures r >= 0 ==> r == v
    ensures (v - r) % TWO_TO_64 == 0
  {
    if v <= MAX_INT64 then v else v - TWO_TO_64
  }

  /** Go's conversion `uint64(v)` of an `int64`. */
  function Uint64OfInt64(v: int64): (r: uint64)
    ensures v >= 0 ==> r == v
    ensures v < 0 ==> r > MAX_INT64
    ensures (r - v) % TWO_TO_64 == 0
  {
    if v >= 0 then v else v + TWO_TO_64
  }

  /** Go's `a * b` on `uint64` operands, which wraps modulo 2^64. */
  function MulUint64(a: uint64, b: uint64): (r: uint64)
    ensures a * b < TWO_TO_64 ==> r == a * b
    ensures (a * b - r) % TWO_TO_64 == 0
  {
    (a * b) % TWO_TO_64
  }

  /** The two conversions are inverse to each other in both directions. */
  lemma Int64Uint64RoundTrip(u: uint64, s: int64)
    ensures Uint64OfInt64(Int64OfUint64(u)) == u
    ensures Int64OfUint64(Uint64OfInt64(s)) == s
  {
  }
}

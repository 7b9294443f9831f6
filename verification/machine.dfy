/** The two integer widths the library moves counts through: C's `size_t`
    and `long` on an LP64 platform, both 64 bits wide. Conversions between
    them keep the low 64 bits, as C's casts do. */
module Machine {
  const TwoTo64: int := 0x1_0000_0000_0000_0000
  const TwoTo63: int := 0x8000_0000_0000_0000

  predicate IsSize(n: int) { 0 <= n < TwoTo64 }

  predicate IsLong(n: int) { -TwoTo63 <= n < TwoTo63 }

  /** `(long) n`: the two's-complement reading of the low 64 bits of `n`. */
  function AsLong(n: int): (r: int)
    ensures IsLong(r)
    ensures (r - n) % TwoTo64 == 0
  {
    var low := n % TwoTo64;
    if low < TwoTo63 then low else low - TwoTo64
  }

  /** `(size_t) n`: the low 64 bits of `n`, read as unsigned. */
  function AsSize(n: int): (r: nat)
    ensures IsSize(r)
    ensures (r - n) % TwoTo64 == 0
  {
    n % TwoTo64
  }

  /** A `size_t` survives the trip through `long` and back, whatever its
      value: a count stored as a signed 64-bit attribute reads back intact. */
  lemma SizeThroughLong(n: int)
    requires IsSize(n)
    ensures AsSize(AsLong(n)) == n
  {
  }

  /** Counts below 2^63 are stored with their own value. */
  lemma SmallSizeIsLong(n: int)
    requires 0 <= n < TwoTo63
    ensures AsLong(n) == n
  {
  }
}

/** The start position and the row count of a window fill, packed into one 64-bit value. */
module Packing {
  import opened Words

  /**
    `jlong(start) << 32 | jlong(count)`. A non-negative count occupies the low half only, so the bits are simply
    put together; a negative count is sign-extended and overwrites the high half with ones.
   */
  function Pack(start: int, count: int): int {
    if count >= 0 then start * TWO_TO_32 + count else count
  }

  /** `(int)(packed >> 32)`, with Java's arithmetic shift. */
  function UnpackStart(packed: int): int {
    Low32(packed / TWO_TO_32)
  }

  /** `(int)packed`. */
  function UnpackCount(packed: int): int {
    Low32(packed)
  }

  /** The bit patterns behind `Pack`: disjoint halves add up, and a sign-extended negative absorbs the start. */
  lemma PackBits(start: bv64, count: bv64)
    ensures count <= 0xFFFF_FFFF ==> (start << 32) | count == (start << 32) + count
    ensures count >= 0xFFFF_FFFF_0000_0000 ==> (start << 32) | count == count
  {
  }

  /** The count always survives; the start survives exactly when the count is not negative, or it was -1 anyway. */
  lemma PackRoundTrip(start: int, count: int)
    requires Int32(start) && Int32(count)
    ensures UnpackCount(Pack(start, count)) == count
    ensures UnpackStart(Pack(start, count)) == start <==> count >= 0 || start == -1
  {
    if count >= 0 {
      assert (start * TWO_TO_32 + count) / TWO_TO_32 == start;
    } else {
      assert count / TWO_TO_32 == -1;
    }
  }
}

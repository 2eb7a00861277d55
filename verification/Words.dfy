/** Java's 32-bit integers. */
module Words {

  const TWO_TO_31 := 0x8000_0000
  const TWO_TO_32 := 0x1_0000_0000

  predicate Int32(n: int) {
    -TWO_TO_31 <= n < TWO_TO_31
  }

  /** The low 32 bits of a number, as a signed number: two's complement wrap-around. */
  function Low32(n: int): int {
    (n + TWO_TO_31) % TWO_TO_32 - TWO_TO_31
  }

  /** The number of times a number has wrapped around. */
  function Wraps(n: int): int {
    (n + TWO_TO_31) / TWO_TO_32
  }

  lemma LowAndWraps(n: int)
    ensures Low32(n) == n - Wraps(n) * TWO_TO_32 && Int32(Low32(n))
  {
  }

  /** A 32-bit number is determined by any number that agrees with it up to whole turns. */
  lemma LowIsUnique(n: int, k: int)
    requires Int32(n - k * TWO_TO_32)
    ensures Low32(n) == n - k * TWO_TO_32
  {
    LowAndWraps(n);
    assert (Wraps(n) - k) * TWO_TO_32 == (n - k * TWO_TO_32) - Low32(n);
  }

  /** Counting up a wrapped counter is counting up and then wrapping. */
  lemma CountsUp(n: int)
    ensures Low32(Low32(n) + 1) == Low32(n + 1)
  {
    hide Low32, Wraps;
    LowAndWraps(n);
    LowAndWraps(Low32(n) + 1);
    LowIsUnique(n + 1, Wraps(n) + Wraps(Low32(n) + 1));
  }

  /** Wrapped counters tell apart two values that lie less than 2^32 apart. */
  lemma TellsApart(m: int, n: int)
    requires m < n < m + TWO_TO_32
    ensures Low32(m) != Low32(n)
  {
    hide Low32, Wraps;
    LowAndWraps(m);
    LowAndWraps(n);
    assert n - m == (Low32(n) - Low32(m)) + (Wraps(n) - Wraps(m)) * TWO_TO_32;
  }
}

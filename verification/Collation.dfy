/** The comparison registered as the LOCALIZED collating sequence. */
module Collation {

  newtype Byte = n: int | 0 <= n < 256

  /** `memcmp` over the first `n` bytes; only the sign of its result has a meaning. */
  function Memcmp(a: seq<Byte>, b: seq<Byte>, n: nat): int
    requires n <= |a| && n <= |b|
  {
    if n == 0 then 0
    else if a[0] != b[0] then a[0] as int - b[0] as int
    else Memcmp(a[1..], b[1..], n - 1)
  }

  function Compare(a: seq<Byte>, b: seq<Byte>): int {
    var rc := Memcmp(a, b, if |a| < |b| then |a| else |b|);
    if rc == 0 then |a| - |b| else rc
  }

  /** Lexicographic order, said without an algorithm: `a` is a proper prefix of `b`, or is smaller where they first differ. */
  ghost predicate Less(a: seq<Byte>, b: seq<Byte>) {
    exists i: nat :: Splits(a, b, i)
  }

  ghost predicate Splits(a: seq<Byte>, b: seq<Byte>, i: nat) {
    && i <= |a| && i < |b| && a[..i] == b[..i]
    && (i < |a| ==> a[i] < b[i])
  }

  /** Comparing strings with a common first byte is comparing the rest. */
  lemma CompareTails(a: seq<Byte>, b: seq<Byte>)
    requires a != [] && b != [] && a[0] == b[0]
    ensures Compare(a, b) == Compare(a[1..], b[1..])
  {
  }

  lemma {:induction false} ComparesLexicographically(a: seq<Byte>, b: seq<Byte>)
    ensures Compare(a, b) < 0 <==> Less(a, b)
    ensures Compare(a, b) > 0 <==> Less(b, a)
    ensures Compare(a, b) == 0 <==> a == b
    decreases |a|
  {
    if a != [] && b != [] && a[0] == b[0] {
      CompareTails(a, b);
      ComparesLexicographically(a[1..], b[1..]);
      LessTails(a, b);
      LessTails(b, a);
      assert a == [a[0]] + a[1..] && b == [b[0]] + b[1..];
    } else {
      LessAtOnce(a, b);
      LessAtOnce(b, a);
    }
  }

  lemma LessTails(a: seq<Byte>, b: seq<Byte>)
    requires a != [] && b != [] && a[0] == b[0]
    ensures Less(a, b) <==> Less(a[1..], b[1..])
  {
    if Less(a, b) {
      var i: nat :| Splits(a, b, i);
      assert i != 0;
      assert a[1..][..i - 1] == a[..i][1..] && b[1..][..i - 1] == b[..i][1..];
      assert Splits(a[1..], b[1..], i - 1);
    }
    if Less(a[1..], b[1..]) {
      var i: nat :| Splits(a[1..], b[1..], i);
      assert a[..i + 1] == [a[0]] + a[1..][..i] && b[..i + 1] == [b[0]] + b[1..][..i];
      assert Splits(a, b, i + 1);
    }
  }

  lemma LessAtOnce(a: seq<Byte>, b: seq<Byte>)
    requires a == [] || b == [] || a[0] != b[0]
    ensures Less(a, b) <==> b != [] && (a == [] || a[0] < b[0])
  {
    if Less(a, b) {
      var i: nat :| Splits(a, b, i);
      assert i == 0;
    }
    if b != [] && (a == [] || a[0] < b[0]) {
      assert Splits(a, b, 0);
    }
  }

  lemma LessIsTransitive(a: seq<Byte>, b: seq<Byte>, c: seq<Byte>)
    requires Less(a, b) && Less(b, c)
    ensures Less(a, c)
  {
    var i: nat :| Splits(a, b, i);
    var j: nat :| Splits(b, c, j);
    var k := if i < j then i else j;
    assert a[..k] == a[..i][..k] && b[..k] == b[..i][..k] && b[..k] == b[..j][..k] && c[..k] == c[..j][..k];
    if i < j {
      assert b[i] == b[..j][i] && c[i] == c[..j][i];
    } else if j < i {
      assert a[j] == a[..i][j] && b[j] == b[..i][j];
    }
    assert Splits(a, c, k);
  }

  // ---- The four laws that SQLite demands of a collating function -----------------------------------------------

  /** Equality is symmetric, and the order is antisymmetric. */
  lemma SwappingNegates(a: seq<Byte>, b: seq<Byte>)
    ensures Compare(a, b) == 0 <==> Compare(b, a) == 0
    ensures Compare(a, b) < 0 <==> Compare(b, a) > 0
  {
    ComparesLexicographically(a, b);
    ComparesLexicographically(b, a);
  }

  /** Both relations are transitive, also with each other. */
  lemma CompareIsTransitive(a: seq<Byte>, b: seq<Byte>, c: seq<Byte>)
    ensures Compare(a, b) == 0 && Compare(b, c) == 0 ==> Compare(a, c) == 0
    ensures Compare(a, b) < 0 && Compare(b, c) < 0 ==> Compare(a, c) < 0
    ensures Compare(a, b) <= 0 && Compare(b, c) <= 0 ==> Compare(a, c) <= 0
  {
    ComparesLexicographically(a, b);
    ComparesLexicographically(b, c);
    ComparesLexicographically(a, c);
    if Less(a, b) && Less(b, c) {
      LessIsTransitive(a, b, c);
    }
  }

  /** The length difference of the tie-break fits the 32-bit result for lengths that fit one. */
  lemma CompareFits(a: seq<Byte>, b: seq<Byte>)
    requires |a| < 0x8000_0000 && |b| < 0x8000_0000
    ensures -0x8000_0000 < Compare(a, b) < 0x8000_0000
  {
    MemcmpFits(a, b, if |a| < |b| then |a| else |b|);
  }

  lemma {:induction false} MemcmpFits(a: seq<Byte>, b: seq<Byte>, n: nat)
    requires n <= |a| && n <= |b|
    ensures -256 < Memcmp(a, b, n) < 256
  {
    if n > 0 && a[0] == b[0] {
      MemcmpFits(a[1..], b[1..], n - 1);
    }
  }
}

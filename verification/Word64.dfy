/** Unsigned 64-bit arithmetic, with the wrap-around written out. */
module Word64 {
  const WRAP: int := 0x1_0000_0000_0000_0000
  const MAX: int := 0xFFFF_FFFF_FFFF_FFFF

  type uint64 = x: int | 0 <= x < 0x1_0000_0000_0000_0000

  function Plus(x: uint64, y: uint64): uint64 {
    (x + y) % WRAP
  }

  function Minus(x: uint64, y: uint64): uint64 {
    (x - y) % WRAP
  }

  function Times(x: uint64, y: uint64): uint64 {
    (x * y) % WRAP
  }

  /** The sum, and whether it overflowed. */
  function SafeAdd(x: uint64, y: uint64): (r: (uint64, bool))
    ensures r.1 <==> x + y > MAX
    ensures !r.1 ==> r.0 == x + y
  {
    (Plus(x, y), y > MAX - x)
  }

  /** The product, and whether it overflowed. */
  function SafeMul(x: uint64, y: uint64): (r: (uint64, bool))
    ensures r.1 <==> x * y > MAX
    ensures !r.1 ==> r.0 == x * y
  {
    if x == 0 || y == 0 then (0, false) else
    MulOverflows(x, y);
    (Times(x, y), y > MAX / x)
  }

  lemma MulOverflows(x: uint64, y: uint64)
    requires x > 0
    ensures y > MAX / x <==> x * y > MAX
  {
    var q := MAX / x;
    assert q * x <= MAX < q * x + x by {
      assert MAX == q * x + MAX % x;
    }
    if y > q {
      assert (q + 1) * x <= y * x;
    } else {
      assert y * x <= q * x;
    }
  }

  /** The number of 32-byte words that hold a number of bytes: it rounds up on all of uint64. */
  function ToWordSize(size: uint64): (words: uint64)
    ensures 32 * words - 32 < size <= 32 * words
  {
    if size > MAX - 31 then MAX / 32 + 1 else Plus(size, 31) / 32
  }

  /** So the words are the fewest that hold the bytes. */
  lemma FewestWords(size: uint64, words: nat)
    ensures size <= 32 * words <==> ToWordSize(size) <= words
  {
  }
}

/** Unsigned 32-bit index arithmetic and the geometry of the pulse ring. */
module Words {
  const U32: nat := 0x1_0000_0000
  const SZ_1M: nat := 0x10_0000

  /** Ring that the writer leaves unwritten behind the play head. */
  const GAP: nat := 0x8000

  type u32 = x: int | 0 <= x < U32

  /** What a 32-bit register holds after computing `x`. */
  function Wrap(x: int): u32 {
    x % U32
  }

  /** A ring size the driver can be loaded with: it divides the index space. */
  predicate RingSize(size: nat) {
    SZ_1M <= size <= 1024 * SZ_1M && U32 % size == 0
  }

  /** The ring slot of an index: the index under the ring's bit mask. */
  function Slot(index: int, size: nat): nat
    requires size > 0
  {
    index % size
  }

  /** The `ring_mb` module parameter, as the driver uses it. */
  function RingBytes(ringMb: u32): (size: nat)
    ensures RingSize(size)
    ensures size == if ringMb in {1, 2, 4, 8, 16, 32, 64, 128, 256, 512, 1024} then ringMb * 0x10_0000 else 0x200_0000
  {
    if ringMb in {1, 2, 4, 8, 16, 32, 64, 128, 256, 512, 1024} then ringMb * SZ_1M else 32 * SZ_1M
  }

  /** A nonzero multiple of `m` is at least `m` away from zero. */
  lemma MultipleGap(d: int, m: int)
    requires m > 0
    ensures d >= 1 ==> d * m >= m
    ensures d <= -1 ==> d * m <= -m
  {
  }

  lemma DivModUnique(x: int, q: int, r: int, m: nat)
    requires 0 <= r < m && x == q * m + r
    ensures x / m == q && x % m == r
  {
    var d := x / m - q;
    assert x == m * (x / m) + x % m;
    assert d * m == r - x % m;
    MultipleGap(d, m);
  }

  lemma ModShift(x: int, k: int, m: nat)
    requires m > 0
    ensures (x + k * m) % m == x % m
  {
    assert x + k * m == (x / m + k) * m + x % m;
    DivModUnique(x + k * m, x / m + k, x % m, m);
  }

  lemma WrapSmall(x: nat)
    requires x < U32
    ensures Wrap(x) == x
  {
  }

  /** A register may be wrapped before or after an addition. */
  lemma WrapAdd(a: int, b: int)
    ensures Wrap(Wrap(a) + b) == Wrap(a + b)
  {
    assert Wrap(a) + b == (a + b) + (-(a / U32)) * U32;
    ModShift(a + b, -(a / U32), U32);
  }

  lemma WrapSub(a: int, b: int)
    ensures Wrap(a - Wrap(b)) == Wrap(a - b)
    ensures Wrap(Wrap(a) - Wrap(b)) == Wrap(a - b)
  {
    assert a - Wrap(b) == (a - b) + (b / U32) * U32;
    ModShift(a - b, b / U32, U32);
    var wrapped: int := Wrap(b);
    WrapAdd(a, -wrapped);
  }

  /** The slot of a wrapped index is the slot of the index it stands for. */
  lemma SlotOfWrap(x: int, size: nat)
    requires RingSize(size)
    ensures Slot(Wrap(x), size) == Slot(x, size)
  {
    var q := U32 / size;
    assert U32 == q * size;
    var k := -(x / U32);
    assert k * U32 == (k * q) * size by {
      assert k * (q * size) == (k * q) * size;
    }
    ModShift(x, k * q, size);
    assert Wrap(x) == x + k * U32;
  }

  /** Distinct indices less than a ring apart use distinct slots. */
  lemma SlotsApart(i: int, j: int, size: nat)
    requires size > 0 && Slot(i, size) == Slot(j, size)
    requires -(size as int) < i - j < size
    ensures i == j
  {
    var d := i / size - j / size;
    assert i - j == d * size;
    MultipleGap(d, size);
  }

  /** Indices exactly a ring apart share a slot. */
  lemma SlotsOneRingApart(i: int, size: nat)
    requires size > 0
    ensures Slot(i + size, size) == Slot(i, size)
  {
    ModShift(i, 1, size);
  }
}

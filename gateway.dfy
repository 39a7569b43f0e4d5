/**
 * The gateway offset arithmetic of the subnet create handlers. A positive
 * offset counts from the block's first address; a negative one counts back
 * from its end. IPv4 computes in uint32 and wraps; IPv6 computes on
 * unbounded integers. Neither checks that the result lies in the block, and
 * the two formulas for a negative offset differ by one.
 */
module Gateway {
  import opened Base

  /** Go's `abs` helper on the offset. */
  function Abs(x: int): nat
  {
    if x < 0 then -x else x
  }

  /**
   * The IPv4 gateway, as `longtoip` receives it: `start + uint32(offset)`
   * for a positive offset, `start + uint32(size) - uint32(abs(offset)) - 1`
   * for a negative one, every operation wrapping modulo 2^32.
   */
  function Gateway4(start: uint32, size: int, offset: int): uint32
    requires offset != 0
  {
    if offset > 0 then U32(start + U32(offset))
    else U32(U32(U32(start + U32(size)) - U32(Abs(offset))) - 1)
  }

  /** The IPv6 gateway: `start + offset`, or `start + size - abs(offset)`, without wrap. */
  function Gateway6(start: int, size: int, offset: int): int
    requires offset != 0
  {
    if offset > 0 then start + offset else start + size - Abs(offset)
  }

  lemma ModAddLeft(a: int, b: int)
    ensures (a % TwoTo32 + b) % TwoTo32 == (a + b) % TwoTo32
  {
    var q := a / TwoTo32;
    assert a == q * TwoTo32 + a % TwoTo32;
    assert a + b == (a % TwoTo32 + b) + q * TwoTo32;
  }

  lemma ModAddRight(a: int, b: int)
    ensures (a + b % TwoTo32) % TwoTo32 == (a + b) % TwoTo32
  {
    var q := b / TwoTo32;
    assert b == q * TwoTo32 + b % TwoTo32;
    assert a + b == (a + b % TwoTo32) + q * TwoTo32;
  }

  lemma ModSubRight(a: int, b: int)
    ensures (a - b % TwoTo32) % TwoTo32 == (a - b) % TwoTo32
  {
    ModAddRight(a, -b);
    var q := b / TwoTo32;
    assert b == q * TwoTo32 + b % TwoTo32;
    assert a - b % TwoTo32 == (a - b) + q * TwoTo32;
  }

  /** The IPv4 formulas are the plain sums taken modulo 2^32. */
  lemma Gateway4Modular(start: uint32, size: int, offset: int)
    requires offset != 0
    ensures offset > 0 ==> Gateway4(start, size, offset) == (start + offset) % TwoTo32
    ensures offset < 0 ==> Gateway4(start, size, offset) == (start + size + offset - 1) % TwoTo32
  {
    if offset > 0 {
      ModAddRight(start, offset);
    } else {
      var k: int := Abs(offset);
      ModAddRight(start, size);
      var s1 := U32(start + U32(size));
      ModSubRight(s1, k);
      ModAddLeft(start + size, -k);
      var s2 := U32(s1 - U32(k));
      ModAddLeft(s1 - k, -1);
      ModAddLeft(start + size - k, -1);
    }
  }

  /**
   * Inside a block that fits the address space: offset k in 1..size-1
   * lands on start + k; offset -k with k in 1..size-1 lands on
   * start + size - 1 - k, so no negative offset reaches the block's last
   * address and -1 gives the one before it.
   */
  lemma Gateway4InBlock(start: uint32, size: int, offset: int)
    requires 0 < size && start + size <= TwoTo32
    requires offset != 0 && Abs(offset) < size
    ensures offset > 0 ==> Gateway4(start, size, offset) == start + offset
    ensures offset < 0 ==> Gateway4(start, size, offset) == start + size - 1 + offset
    ensures start <= Gateway4(start, size, offset) < start + size
    ensures offset < 0 ==> Gateway4(start, size, offset) < start + size - 1
  {
    Gateway4Modular(start, size, offset);
  }

  /** No range check: offset -size lands just before the block. */
  lemma Gateway4BelowBlock(start: uint32, size: int)
    requires 0 < size && 0 < start && start + size <= TwoTo32
    ensures Gateway4(start, size, -size) == start - 1
  {
    Gateway4Modular(start, size, -size);
  }

  /** No range check: offset +size lands just after the block. */
  lemma Gateway4AboveBlock(start: uint32, size: int)
    requires 0 < size && start + size < TwoTo32
    ensures Gateway4(start, size, size) == start + size
  {
    Gateway4Modular(start, size, size);
  }

  /** The uint32 wrap: from the block at address 0, offset -size gives the
      last address of the whole IPv4 space. */
  lemma Gateway4Wraps(size: int)
    requires 0 < size < TwoTo32
    ensures Gateway4(0, size, -size) == TwoTo32 - 1
  {
    Gateway4Modular(0, size, -size);
  }

  /**
   * IPv6: offset k in 1..size-1 lands on start + k, offset -k with k in
   * 1..size lands on start + size - k; -1 gives the block's last address.
   */
  lemma Gateway6InBlock(start: int, size: int, offset: int)
    requires 0 < size
    requires offset != 0 && (offset > 0 ==> offset < size) && (offset < 0 ==> Abs(offset) <= size)
    ensures start <= Gateway6(start, size, offset) < start + size
    ensures Gateway6(start, size, -1) == start + size - 1
  {
  }

  /** The two formulas agree on positive offsets and differ by exactly one
      on negative ones, wherever IPv4 does not wrap. */
  lemma Gateway4And6Differ(start: uint32, size: int, offset: int)
    requires 0 < size && start + size <= TwoTo32
    requires offset != 0 && Abs(offset) < size
    ensures offset > 0 ==> Gateway4(start, size, offset) == Gateway6(start, size, offset)
    ensures offset < 0 ==> Gateway4(start, size, offset) + 1 == Gateway6(start, size, offset)
  {
    Gateway4InBlock(start, size, offset);
  }
}

/** The block ranges of a buffered stream: offset and length of one flush, with the source's wrapping
    arithmetic, and when the blocks of a backing object tile it. */
module BlockTiling {
  import opened Words

  datatype Range = Range(offset: u32, length: u32)

  /** What one flush of block `index` covers. */
  function FlushRange(blockSize: u32, length: u32, index: u32): Range {
    var offset := Wrap(blockSize * index);
    Range(offset, if length <= Wrap(blockSize + offset) then Wrap(length - offset) else blockSize)
  }

  /** The number of blocks, the last one possibly partial. */
  function Blocks(blockSize: u32, length: u32): nat
    requires blockSize > 0
  {
    (length + blockSize - 1) / blockSize
  }

  /** The range a block ought to cover. */
  ghost function IdealRange(blockSize: u32, length: u32, index: nat): (int, int) {
    (blockSize * index, Min(blockSize, length - blockSize * index))
  }

  ghost predicate RangeExact(blockSize: u32, length: u32, index: u32) {
    var r := FlushRange(blockSize, length, index);
    (r.offset, r.length) == IdealRange(blockSize, length, index)
  }

  lemma DivBounds(x: nat, d: nat)
    requires d > 0
    ensures d * (x / d) <= x < d * (x / d) + d
  {
  }

  /** Block indices are exactly those whose offset lies inside the backing object. */
  lemma BlockInside(blockSize: u32, length: u32, index: nat)
    requires blockSize > 0
    ensures index < Blocks(blockSize, length) <==> blockSize * index < length
  {
    var n := Blocks(blockSize, length);
    DivBounds(length + blockSize - 1, blockSize);
    if index < n {
      MulAtMost(blockSize, index + 1, n);
      assert blockSize * (index + 1) == blockSize * index + blockSize;
    } else {
      MulAtMost(blockSize, n, index);
    }
  }

  /** A block's range is right exactly when the end of its full block does not wrap. */
  lemma RangeExactWhen(blockSize: u32, length: u32, index: u32)
    requires blockSize > 0 && index < Blocks(blockSize, length)
    ensures RangeExact(blockSize, length, index) <==> blockSize * (index + 1) < TWO_32
  {
    BlockInside(blockSize, length, index);
    assert blockSize * (index + 1) == blockSize * index + blockSize;
    var offset := blockSize * index;
    assert Wrap(offset) == offset;
    WrapOnce(blockSize + offset);
    WrapOnce(length - offset);
  }

  /** The range for any three words, right or not: the offset is the product modulo 2^32; the length is a
      full block if its end, modulo 2^32, falls short of the object's, and otherwise what is left of the
      object behind the offset, which past the end of the object is 2^32 less the distance. */
  lemma RangeOfWords(blockSize: u32, length: u32, index: u32)
    ensures var r := FlushRange(blockSize, length, index);
            && r.offset == blockSize * index % 0x1_0000_0000
            && var end := if blockSize + r.offset < 0x1_0000_0000 then blockSize + r.offset
                          else blockSize + r.offset - 0x1_0000_0000;
               r.length == if end < length then blockSize
                           else if r.offset <= length then length - r.offset
                           else 0x1_0000_0000 - (r.offset - length)
  {
    var offset := Wrap(blockSize * index);
    WrapOnce(blockSize + offset);
    LeftBehind(length, offset);
  }

  lemma LeftBehind(length: u32, offset: u32)
    ensures Wrap(length - offset) == if offset <= length then length - offset else TWO_32 - (offset - length)
  {
    if offset > length {
      WrapOnce(length - offset + TWO_32);
      WrapMultiple(length - offset, 1);
    }
  }

  /** For any three words: the range lies inside the object exactly when its offset does and the end of the
      full block does not wrap to short of the object's. */
  lemma InsideExactlyWhen(blockSize: u32, length: u32, index: u32)
    ensures var r, end := FlushRange(blockSize, length, index), blockSize as int + Wrap(blockSize * index);
            r.offset + r.length <= length <==> r.offset <= length && (end < TWO_32 || end - TWO_32 >= length)
  {
    RangeOfWords(blockSize, length, index);
  }

  /** So a block index past the end of the object flushes far past it. */
  lemma IndexPastEndOverruns(blockSize: u32, length: u32, index: u32)
    requires length < blockSize * index && blockSize * index + blockSize < TWO_32
    ensures FlushRange(blockSize, length, index) == Range(blockSize * index, length + TWO_32 - blockSize * index)
  {
    WrapOnce(blockSize * index);
    RangeOfWords(blockSize, length, index);
  }

  lemma BlocksAtMostLength(blockSize: u32, length: u32)
    requires blockSize > 0
    ensures Blocks(blockSize, length) <= length
  {
    var n := Blocks(blockSize, length);
    if n > 0 {
      BlockInside(blockSize, length, n - 1);
      MulAtMost(n - 1, 1, blockSize);
      assert (n - 1) * 1 == n - 1;
      assert (n - 1) * blockSize == blockSize * (n - 1);
    }
  }

  /** All the ranges are right exactly when the block-rounded length fits in a word. When it does not,
      the last flush runs past the end of the backing object. */
  lemma TilingExactWhen(blockSize: u32, length: u32)
    requires blockSize > 0
    ensures Blocks(blockSize, length) <= length
    ensures (forall i: nat :: i < Blocks(blockSize, length) ==> RangeExact(blockSize, length, i))
            <==> blockSize * Blocks(blockSize, length) < TWO_32
  {
    var n := Blocks(blockSize, length);
    BlocksAtMostLength(blockSize, length);
    BlockInside(blockSize, length, 0);
    if blockSize * n < TWO_32 {
      forall i: nat | i < n
        ensures RangeExact(blockSize, length, i)
      {
        MulAtMost(blockSize, i + 1, n);
        RangeExactWhen(blockSize, length, i);
      }
    } else {
      RangeExactWhen(blockSize, length, n - 1);
      assert !RangeExact(blockSize, length, n - 1);
    }
  }

  /** Under that condition each byte of the backing object lies in one flushed range and in no other:
      the ranges are disjoint, stay inside, and cover. */
  lemma EachByteOnce(blockSize: u32, length: u32, index: nat, p: int)
    requires blockSize > 0 && blockSize * Blocks(blockSize, length) < TWO_32
    requires index < Blocks(blockSize, length) && index < TWO_32
    ensures var r := FlushRange(blockSize, length, index);
            r.offset <= p < r.offset + r.length <==> 0 <= p < length && index == p / blockSize
  {
    BlockInside(blockSize, length, index);
    MulAtMost(blockSize, index + 1, Blocks(blockSize, length));
    RangeExactWhen(blockSize, length, index);
    assert blockSize * (index + 1) == blockSize * index + blockSize;
    if 0 <= p {
      QuotientIs(p, blockSize, index);
    }
  }

  lemma QuotientIs(p: nat, d: nat, q: nat)
    requires d > 0
    ensures d * q <= p < d * q + d <==> q == p / d
  {
    DivBounds(p, d);
    if q < p / d {
      MulAtMost(d, q + 1, p / d);
      assert d * (q + 1) == d * q + d;
    } else if q > p / d {
      MulAtMost(d, p / d + 1, q);
      assert d * (p / d + 1) == d * (p / d) + d;
    }
  }

  /** Every byte has its block. */
  lemma EveryByteCovered(blockSize: u32, length: u32, p: nat)
    requires blockSize > 0 && p < length
    ensures p / blockSize < Blocks(blockSize, length)
  {
    DivBounds(p, blockSize);
    BlockInside(blockSize, length, p / blockSize);
  }

  ghost function TotalLength(blockSize: u32, length: u32, n: nat): int
    requires n <= TWO_32
  {
    if n == 0 then 0 else TotalLength(blockSize, length, n - 1) + FlushRange(blockSize, length, n - 1).length
  }

  lemma {:induction false} TotalSoFar(blockSize: u32, length: u32, n: nat)
    requires blockSize > 0 && blockSize * Blocks(blockSize, length) < TWO_32
    requires n <= Blocks(blockSize, length) && n <= TWO_32
    ensures TotalLength(blockSize, length, n) == Min(blockSize * n, length)
  {
    if n > 0 {
      TotalSoFar(blockSize, length, n - 1);
      BlockInside(blockSize, length, n - 1);
      MulAtMost(blockSize, n, Blocks(blockSize, length));
      RangeExactWhen(blockSize, length, n - 1);
      assert blockSize * n == blockSize * (n - 1) + blockSize;
    }
  }

  /** The flushed lengths of all blocks sum to the backing length. */
  lemma LengthsSum(blockSize: u32, length: u32)
    requires blockSize > 0 && blockSize * Blocks(blockSize, length) < TWO_32
    ensures Blocks(blockSize, length) <= TWO_32
    ensures TotalLength(blockSize, length, Blocks(blockSize, length)) == length
  {
    var n := Blocks(blockSize, length);
    BlocksAtMostLength(blockSize, length);
    BlockInside(blockSize, length, n);
    TotalSoFar(blockSize, length, n);
  }

  /** The failing family is not empty: two blocks of half the word range over one byte less than all of
      it, whose last flush covers one byte too many. */
  lemma LastBlockOverruns()
    ensures Blocks(0x8000_0000, 0xffff_ffff) == 2
    ensures FlushRange(0x8000_0000, 0xffff_ffff, 1) == Range(0x8000_0000, 0x8000_0000)
  {
  }
}

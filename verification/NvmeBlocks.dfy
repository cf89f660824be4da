/**
 Blocks of a chunk list: padded, they tile the regions of their chunks without
 overlap, and together they carry exactly the tensor's bytes.
 */
module NvmeBlocks {
  import opened Bits
  import opened NvmeLayout

  /** The padded range of `b` lies in the region of `c`, at the same distance as in memory. */
  ghost predicate InRegion(b: BlockIO, c: Chunk, mem: nat) {
    && b.stripe == c.stripe && b.len > 0
    && c.offset <= b.fileOff && b.fileOff + RoundUp(b.len) <= c.offset + RoundUp(c.length)
    && b.memOff == mem + (b.fileOff - c.offset) && b.memOff + b.len <= mem + c.length
  }

  /** Padded ranges that do not overlap. */
  ghost predicate Apart(a: BlockIO, b: BlockIO) {
    a.stripe != b.stripe || a.fileOff + RoundUp(a.len) <= b.fileOff || b.fileOff + RoundUp(b.len) <= a.fileOff
  }

  ghost predicate AllApart(bs: seq<BlockIO>) {
    forall i, j | 0 <= i < j < |bs| :: Apart(bs[i], bs[j])
  }

  /** One block more: what is written up to it is whole pages, unless it is the last. */
  lemma BlockStep(c: Chunk, mem: nat, block: nat, off: nat)
    requires block > 0 && block % PAGE == 0 && off % PAGE == 0 && off < c.length
    ensures var len := Min(block, c.length - off);
      && InRegion(BlockIO(c.stripe, c.offset + off, mem + off, len), c, mem)
      && (off + len < c.length ==> (off + len) % PAGE == 0 && RoundUp(len) == len)
      && off + RoundUp(len) <= RoundUp(c.length)
      && (off + len >= c.length ==> off + RoundUp(len) == RoundUp(c.length))
  {
    var len := Min(block, c.length - off);
    if off + len < c.length {
      RoundUpMultiple(len);
      SumOfPages(off, len);
      RoundUpSplit(off + len, c.length - off - len);
    } else {
      RoundUpSplit(off, len);
    }
  }

  lemma SumOfPages(a: nat, b: nat)
    requires a % PAGE == 0 && b % PAGE == 0
    ensures (a + b) % PAGE == 0
  {
  }

  /** Blocks of one chunk lie in its region, in order and without overlap. */
  lemma {:induction false} BlocksInRegion(c: Chunk, mem: nat, block: nat, off: nat)
    requires block > 0 && block % PAGE == 0 && (off % PAGE == 0 || off >= c.length)
    ensures var bs := BlocksFrom(c, mem, block, off);
      && (forall k | 0 <= k < |bs| :: InRegion(bs[k], c, mem) && bs[k].fileOff >= c.offset + off)
      && AllApart(bs)
    decreases c.length - off
  {
    if off < c.length {
      var len := Min(block, c.length - off);
      var first := BlockIO(c.stripe, c.offset + off, mem + off, len);
      var rest := BlocksFrom(c, mem, block, off + len);
      BlockStep(c, mem, block, off);
      BlocksInRegion(c, mem, block, off + len);
      RestAfter(c, mem, block, off, rest);
      ConsApart(first, rest);
    }
  }

  lemma RestAfter(c: Chunk, mem: nat, block: nat, off: nat, rest: seq<BlockIO>)
    requires block > 0 && block % PAGE == 0 && off % PAGE == 0 && off < c.length
    requires off + Min(block, c.length - off) >= c.length ==> rest == []
    requires forall k | 0 <= k < |rest| :: rest[k].fileOff >= c.offset + off + Min(block, c.length - off)
    ensures forall k | 0 <= k < |rest| ::
      Apart(BlockIO(c.stripe, c.offset + off, mem + off, Min(block, c.length - off)), rest[k])
  {
    BlockStep(c, mem, block, off);
  }

  lemma ConsApart(b: BlockIO, bs: seq<BlockIO>)
    requires AllApart(bs) && forall k | 0 <= k < |bs| :: Apart(b, bs[k])
    ensures AllApart([b] + bs)
  {
  }

  // --------------------------------------------------------------- the bytes

  /** What a block puts on disk. */
  function BlockData(data: seq<Byte>, b: BlockIO): seq<Byte>
    requires b.memOff + b.len <= |data|
  {
    Padded(data[b.memOff..b.memOff + b.len])
  }

  /** What a chunk's region holds when all its blocks are written. */
  function ChunkData(data: seq<Byte>, c: Chunk, mem: nat): seq<Byte>
    requires mem + c.length <= |data|
  {
    Padded(data[mem..mem + c.length])
  }

  /** Each byte of a block is the byte of the chunk's region at that place. */
  lemma BlockIsPart(data: seq<Byte>, c: Chunk, mem: nat, b: BlockIO, i: nat)
    requires InRegion(b, c, mem) && mem + c.length <= |data| && b.fileOff <= i < b.fileOff + RoundUp(b.len)
    requires b.fileOff - c.offset + b.len < c.length ==> RoundUp(b.len) == b.len
    ensures BlockData(data, b)[i - b.fileOff] == ChunkData(data, c, mem)[i - c.offset]
  {
    PaddedAt(data, b.memOff, b.len, i - b.fileOff);
    PaddedAt(data, mem, c.length, i - c.offset);
  }

  /** A padded stretch of `data`, byte by byte. */
  lemma PaddedAt(data: seq<Byte>, start: nat, len: nat, k: nat)
    requires start + len <= |data| && k < RoundUp(len)
    ensures Padded(data[start..start + len])[k] == if k < len then data[start + k] else 0
  {
  }

  /** Block `b` puts at place `i` the byte that the chunk's region has there. */
  ghost predicate Carries(data: seq<Byte>, c: Chunk, mem: nat, b: BlockIO, i: nat) {
    && mem + c.length <= |data| && InRegion(b, c, mem) && b.fileOff <= i < b.fileOff + RoundUp(b.len)
    && BlockData(data, b)[i - b.fileOff] == ChunkData(data, c, mem)[i - c.offset]
  }

  lemma FirstCarries(data: seq<Byte>, c: Chunk, mem: nat, block: nat, off: nat, i: nat)
    requires block > 0 && block % PAGE == 0 && off % PAGE == 0 && off < c.length && mem + c.length <= |data|
    requires var len := Min(block, c.length - off); c.offset + off <= i < c.offset + off + RoundUp(len)
    ensures Carries(data, c, mem, BlockIO(c.stripe, c.offset + off, mem + off, Min(block, c.length - off)), i)
  {
    BlockStep(c, mem, block, off);
    BlockIsPart(data, c, mem, BlockIO(c.stripe, c.offset + off, mem + off, Min(block, c.length - off)), i);
  }

  /** Every place of a chunk's region is in the padded range of one of its blocks. */
  lemma {:induction false} BlocksCover(data: seq<Byte>, c: Chunk, mem: nat, block: nat, off: nat,
                                       i: nat) returns (k: nat)
    requires block > 0 && block % PAGE == 0 && off % PAGE == 0 && mem + c.length <= |data|
    requires c.offset + off <= i < c.offset + RoundUp(c.length) && off < c.length
    ensures k < |BlocksFrom(c, mem, block, off)| && Carries(data, c, mem, BlocksFrom(c, mem, block, off)[k], i)
    decreases c.length - off
  {
    var len := Min(block, c.length - off);
    var first := BlockIO(c.stripe, c.offset + off, mem + off, len);
    BlockStep(c, mem, block, off);
    assert BlocksFrom(c, mem, block, off) == [first] + BlocksFrom(c, mem, block, off + len);
    if i < c.offset + off + RoundUp(len) {
      FirstCarries(data, c, mem, block, off, i);
      k := 0;
    } else {
      var r := BlocksCover(data, c, mem, block, off + len, i);
      k := r + 1;
      assert ([first] + BlocksFrom(c, mem, block, off + len))[k] == BlocksFrom(c, mem, block, off + len)[r];
    }
  }

  // ---------------------------------------------------------- several chunks

  /** Where the bytes of chunk `k` are in memory. */
  function MemOf(cs: seq<Chunk>, k: nat): nat
    requires k <= |cs|
  {
    TotalLength(cs[..k])
  }

  lemma {:induction false} TotalLengthAppend(a: seq<Chunk>, b: seq<Chunk>)
    ensures TotalLength(a + b) == TotalLength(a) + TotalLength(b)
    decreases |a|
  {
    if a == [] {
      assert a + b == b;
    } else {
      assert (a + b)[1..] == a[1..] + b;
      TotalLengthAppend(a[1..], b);
    }
  }

  lemma {:induction false} AllBlocksAppend(a: seq<Chunk>, c: Chunk, mem: nat, block: nat)
    requires block > 0
    ensures AllBlocks(a + [c], mem, block) == AllBlocks(a, mem, block) + BlocksFrom(c, mem + TotalLength(a), block, 0)
    decreases |a|
  {
    if a == [] {
      assert a + [c] == [c];
      assert [c][1..] == [];
      assert AllBlocks([c], mem, block) == BlocksFrom(c, mem, block, 0) + [];
    } else {
      assert (a + [c])[1..] == a[1..] + [c];
      AllBlocksAppend(a[1..], c, mem + a[0].length, block);
    }
  }
}

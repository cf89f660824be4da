/**
 Blocks that arrive in memory: when all blocks of a chunk list have, memory is
 the concatenation of the chunks; and when a file is too short for its chunk.
 */
module NvmeFetch {
  import opened Bits
  import opened NvmeLayout
  import opened NvmeRegions

  /** The file has all bytes of the chunk. */
  ghost predicate InFile(files: seq<seq<Byte>>, c: Chunk) {
    c.length > 0 ==> c.stripe < |files| && c.offset + c.length <= |files[c.stripe]|
  }

  ghost predicate AllThere(files: seq<seq<Byte>>, cs: seq<Chunk>) {
    forall j | 0 <= j < |cs| :: InFile(files, cs[j])
  }

  lemma ChunkLength(files: seq<seq<Byte>>, c: Chunk)
    ensures |ReadChunk(files, c)| <= c.length
    ensures |ReadChunk(files, c)| == c.length <==> InFile(files, c)
  {
  }

  lemma ThereCons(files: seq<seq<Byte>>, cs: seq<Chunk>)
    requires cs != []
    ensures AllThere(files, cs) <==> InFile(files, cs[0]) && AllThere(files, cs[1..])
  {
    if InFile(files, cs[0]) && AllThere(files, cs[1..]) {
      forall j | 0 <= j < |cs| ensures InFile(files, cs[j]) {
        assert j > 0 ==> cs[j] == cs[1..][j - 1];
      }
    }
    if AllThere(files, cs) {
      forall j | 0 <= j < |cs[1..]| ensures InFile(files, cs[1..][j]) {
        assert InFile(files, cs[j + 1]);
      }
    }
  }

  /** A chunk beyond the end of its file makes the concatenation too short. */
  lemma {:induction false} ReadLength(files: seq<seq<Byte>>, cs: seq<Chunk>)
    ensures |ReadChunks(files, cs)| <= TotalLength(cs)
    ensures |ReadChunks(files, cs)| == TotalLength(cs) <==> AllThere(files, cs)
    decreases |cs|
  {
    if cs != [] {
      ReadLength(files, cs[1..]);
      ChunkLength(files, cs[0]);
      ThereCons(files, cs);
    }
  }

  /** The file holds all bytes of the block. */
  predicate Readable(files: seq<seq<Byte>>, b: BlockIO) {
    b.stripe < |files| && b.fileOff + b.len <= |files[b.stripe]|
  }

  /** Block `b` has been copied to its place. */
  ghost predicate Fetched(files: seq<seq<Byte>>, dst: seq<Byte>, b: BlockIO) {
    && Readable(files, b) && b.memOff + b.len <= |dst|
    && dst[b.memOff..b.memOff + b.len] == files[b.stripe][b.fileOff..b.fileOff + b.len]
  }

  ghost predicate AllFetched(files: seq<seq<Byte>>, dst: seq<Byte>, bs: seq<BlockIO>) {
    forall k: nat | k < |bs| :: Fetched(files, dst, bs[k])
  }

  // ----------------------------------------------------- blocks make up chunks

  /** A chunk all of whose blocks have arrived has arrived. */
  lemma {:induction false} ChunkArrived(files: seq<seq<Byte>>, c: Chunk, mem: nat, block: nat, off: nat, dst: seq<Byte>)
    requires block > 0 && off < c.length && AllFetched(files, dst, BlocksFrom(c, mem, block, off))
    ensures c.stripe < |files| && c.offset + c.length <= |files[c.stripe]| && mem + c.length <= |dst|
    ensures dst[mem + off..mem + c.length] == files[c.stripe][c.offset + off..c.offset + c.length]
    decreases c.length - off
  {
    var bs, len := BlocksFrom(c, mem, block, off), Min(block, c.length - off);
    assert Fetched(files, dst, bs[0]);
    if off + len < c.length {
      var rest := BlocksFrom(c, mem, block, off + len);
      forall k: nat | k < |rest| ensures Fetched(files, dst, rest[k]) {
        assert rest[k] == bs[k + 1];
      }
      ChunkArrived(files, c, mem, block, off + len, dst);
      assert dst[mem + off..mem + c.length] == dst[mem + off..mem + off + len] + dst[mem + off + len..mem + c.length];
    }
  }

  lemma FirstArrived(files: seq<seq<Byte>>, c: Chunk, mem: nat, block: nat, dst: seq<Byte>)
    requires block > 0 && mem + c.length <= |dst| && AllFetched(files, dst, BlocksFrom(c, mem, block, 0))
    ensures InFile(files, c) && dst[mem..mem + c.length] == ReadChunk(files, c)
  {
    if c.length > 0 {
      ChunkArrived(files, c, mem, block, 0, dst);
    }
  }

  lemma SliceJoin(s: seq<Byte>, a: nat, b: nat, c: nat)
    requires a <= b <= c <= |s|
    ensures s[a..c] == s[a..b] + s[b..c]
  {
  }

  lemma ReadFirst(files: seq<seq<Byte>>, cs: seq<Chunk>)
    requires cs != []
    ensures ReadChunks(files, cs) == ReadChunk(files, cs[0]) + ReadChunks(files, cs[1..])
    ensures TotalLength(cs) == cs[0].length + TotalLength(cs[1..])
  {
  }

  /** Memory after the first chunk, and the rest. */
  lemma ArrivedJoin(files: seq<seq<Byte>>, cs: seq<Chunk>, mem: nat, mid: nat, end: nat, dst: seq<Byte>)
    requires cs != [] && mem <= mid <= end <= |dst|
    requires dst[mem..mid] == ReadChunk(files, cs[0]) && dst[mid..end] == ReadChunks(files, cs[1..])
    ensures dst[mem..end] == ReadChunks(files, cs)
  {
    ReadFirst(files, cs);
    SliceJoin(dst, mem, mid, end);
  }

  /** When every block has arrived, memory is the concatenation of the chunks. */
  lemma {:induction false} AllArrived(files: seq<seq<Byte>>, cs: seq<Chunk>, mem: nat, block: nat, dst: seq<Byte>)
    requires block > 0 && mem + TotalLength(cs) <= |dst| && AllFetched(files, dst, AllBlocks(cs, mem, block))
    ensures AllThere(files, cs)
    ensures dst[mem..mem + TotalLength(cs)] == ReadChunks(files, cs)
    decreases |cs|
  {
    if cs != [] {
      SplitFetched(files, dst, BlocksFrom(cs[0], mem, block, 0), AllBlocks(cs[1..], mem + cs[0].length, block));
      AllArrived(files, cs[1..], mem + cs[0].length, block, dst);
      FirstArrived(files, cs[0], mem, block, dst);
      ArrivedJoin(files, cs, mem, mem + cs[0].length, mem + TotalLength(cs), dst);
      ThereCons(files, cs);
    }
  }

  lemma SplitFetched(files: seq<seq<Byte>>, dst: seq<Byte>, a: seq<BlockIO>, b: seq<BlockIO>)
    requires AllFetched(files, dst, a + b)
    ensures AllFetched(files, dst, a) && AllFetched(files, dst, b)
  {
    forall k: nat | k < |a| ensures Fetched(files, dst, a[k]) {
      assert (a + b)[k] == a[k];
    }
    forall k: nat | k < |b| ensures Fetched(files, dst, b[k]) {
      assert (a + b)[|a| + k] == b[k];
    }
  }

  // ------------------------------------------------------- blocks of one list

  /** A block of `[lo, hi)` in memory. */
  ghost predicate Between(b: BlockIO, lo: nat, hi: nat) { lo <= b.memOff && b.memOff + b.len <= hi && b.len > 0 }

  /** Blocks one after the other in memory, between `lo` and `hi`. */
  ghost predicate InOrder(bs: seq<BlockIO>, lo: nat, hi: nat) {
    && (forall k: nat | k < |bs| :: Between(bs[k], lo, hi))
    && (forall i: nat, k: nat | i < k < |bs| :: bs[i].memOff + bs[i].len <= bs[k].memOff)
  }

  lemma Joined(a: seq<BlockIO>, b: seq<BlockIO>, lo: nat, mid: nat, hi: nat)
    requires lo <= mid <= hi && InOrder(a, lo, mid) && InOrder(b, mid, hi)
    ensures InOrder(a + b, lo, hi)
  {
    forall k: nat | k < |a + b| ensures Between((a + b)[k], lo, hi) {
      assert if k < |a| then Between(a[k], lo, mid) else Between(b[k - |a|], mid, hi);
    }
    forall i: nat, k: nat | i < k < |a + b| ensures (a + b)[i].memOff + (a + b)[i].len <= (a + b)[k].memOff {
      assert i < |a| ==> Between(a[i], lo, mid);
      assert k >= |a| ==> Between(b[k - |a|], mid, hi);
    }
  }

  lemma {:induction false} ChunkInOrder(c: Chunk, mem: nat, block: nat, off: nat)
    requires block > 0 && off <= c.length
    ensures InOrder(BlocksFrom(c, mem, block, off), mem + off, mem + c.length)
    decreases c.length - off
  {
    if off < c.length {
      var len := Min(block, c.length - off);
      ChunkInOrder(c, mem, block, off + len);
      Joined([BlockIO(c.stripe, c.offset + off, mem + off, len)], BlocksFrom(c, mem, block, off + len),
             mem + off, mem + off + len, mem + c.length);
    }
  }

  lemma {:induction false} ListInOrder(cs: seq<Chunk>, mem: nat, block: nat)
    requires block > 0
    ensures InOrder(AllBlocks(cs, mem, block), mem, mem + TotalLength(cs))
    decreases |cs|
  {
    if cs != [] {
      ChunkInOrder(cs[0], mem, block, 0);
      ListInOrder(cs[1..], mem + cs[0].length, block);
      Joined(BlocksFrom(cs[0], mem, block, 0), AllBlocks(cs[1..], mem + cs[0].length, block),
             mem, mem + cs[0].length, mem + TotalLength(cs));
    }
  }

  ghost predicate AllReadable(files: seq<seq<Byte>>, bs: seq<BlockIO>) {
    forall k: nat | k < |bs| :: Readable(files, bs[k])
  }

  lemma {:induction false} ChunkReadable(files: seq<seq<Byte>>, c: Chunk, mem: nat, block: nat, off: nat)
    requires block > 0 && off <= c.length
    requires InFile(files, c)
    ensures AllReadable(files, BlocksFrom(c, mem, block, off))
    decreases c.length - off
  {
    if off < c.length {
      ChunkReadable(files, c, mem, block, off + Min(block, c.length - off));
    }
  }

  /** Chunks within their files have readable blocks. */
  lemma {:induction false} ListReadable(files: seq<seq<Byte>>, cs: seq<Chunk>, mem: nat, block: nat)
    requires block > 0 && AllThere(files, cs)
    ensures AllReadable(files, AllBlocks(cs, mem, block))
    decreases |cs|
  {
    if cs != [] {
      ThereCons(files, cs);
      ChunkReadable(files, cs[0], mem, block, 0);
      ListReadable(files, cs[1..], mem + cs[0].length, block);
    }
  }

  lemma Widen(bs: seq<BlockIO>, hi: nat, hi': nat)
    requires InOrder(bs, 0, hi) && hi <= hi'
    ensures InOrder(bs, 0, hi')
  {
    forall k: nat | k < |bs| ensures Between(bs[k], 0, hi') {
      assert Between(bs[k], 0, hi);
    }
  }
}

/**
 The sequential engine: one bounce buffer, blocking positioned reads and writes
 that may transfer less than asked for. `Drained` says what a write leaves on
 disk; the window engine is proved to leave the same.
 */
module NvmeEngines {
  import opened Bits
  import opened NvmeLayout
  import opened NvmeBlocks
  import opened NvmeRegions
  import opened NvmeFetch

  // ------------------------------------------------------------ specification

  /** What stripe `i`'s region holds when a tensor has been drained. */
  function SegmentData(data: seq<Byte>, segs: seq<nat>, i: nat): seq<Byte>
    requires i < |segs| && Sum(segs[..i]) + segs[i] <= |data|
  {
    Padded(data[Sum(segs[..i])..Sum(segs[..i]) + segs[i]])
  }

  lemma SegmentFits(data: seq<Byte>, segs: seq<nat>, i: nat)
    requires i < |segs| && Sum(segs) <= |data|
    ensures Sum(segs[..i]) + segs[i] <= |data|
  {
    SumNext(segs, i);
    SumPrefix(segs, i + 1);
  }

  /** Every stripe file is as before, but for its region, which holds the stripe's padded segment. */
  ghost predicate Drained(files0: seq<seq<Byte>>, files: seq<seq<Byte>>, cursors: seq<nat>, data: seq<Byte>,
                          segs: seq<nat>) {
    && |files| == |files0| == |cursors| == |segs|
    && forall i | 0 <= i < |files| ::
         Sum(segs[..i]) + segs[i] <= |data| && Stored(files0[i], files[i], cursors[i], SegmentData(data, segs, i))
  }

  // -------------------------------------------------------- sequential writes

  /** The bounce buffer: padding is zeroed, then the block's bytes are copied in. */
  method FillBuffer(abuf: array<Byte>, data: seq<Byte>, off: nat, len: nat)
    requires off + len <= |data| && RoundUp(len) <= abuf.Length
    modifies abuf
    ensures abuf[..RoundUp(len)] == Padded(data[off..off + len])
  {
    var pad := RoundUp(len);
    if pad > len {
      forall i | 0 <= i < pad { abuf[i] := 0; }
    }
    forall i | 0 <= i < len { abuf[i] := data[off + i]; }
    assert abuf[..pad] == Padded(data[off..off + len]);
  }

  lemma PaddedPages(a: seq<Byte>)
    requires |a| % PAGE == 0
    ensures Padded(a) == a
  {
    RoundUpMultiple(|a|);
  }

  /** Whole pages followed by a padded rest. */
  lemma PaddedSplit(a: seq<Byte>, b: seq<Byte>)
    requires |a| % PAGE == 0
    ensures Padded(a + b) == a + Padded(b)
  {
    RoundUpSplit(|a|, |b|);
  }

  class StripeFiles {
    const files: array<seq<Byte>>
    const cursors: array<nat>

    ghost predicate Valid()
      reads this
    {
      files.Length == cursors.Length > 0
    }

    constructor (stripes: nat)
      requires stripes > 0
      ensures Valid() && fresh(files) && fresh(cursors) && files.Length == stripes
    {
      files := new seq<Byte>[stripes](_ => []);
      cursors := new nat[stripes](_ => 0);
    }

    /** Write a buffer, however many bytes each call takes. */
    method WriteBuffer(s: nat, off: nat, buf: seq<Byte>)
      requires Valid() && s < files.Length
      modifies files
      ensures Stored(old(files[s]), files[s], off, buf)
      ensures forall i | 0 <= i < files.Length && i != s :: files[i] == old(files[i])
    {
      var w := 0;
      while w < |buf|
        invariant 0 <= w <= |buf|
        invariant Stored(old(files[s]), files[s], off, buf[..w])
        invariant forall i | 0 <= i < files.Length && i != s :: files[i] == old(files[i])
      {
        var n :| 1 <= n <= |buf| - w;
        ghost var before := files[s];
        files[s] := WriteAt(files[s], off + w, buf[w..w + n]);
        StoredAppend(old(files[s]), before, files[s], off, buf[..w], buf[w..w + n]);
        assert buf[..w] + buf[w..w + n] == buf[..w + n];
        w := w + n;
      }
      assert buf[..w] == buf;
    }

    /** Write one block through the bounce buffer. */
    method WriteBlock(s: nat, off: nat, data: seq<Byte>, src: nat, len: nat, abuf: array<Byte>)
      requires Valid() && s < files.Length && src + len <= |data| && RoundUp(len) <= abuf.Length
      modifies files, abuf
      ensures Stored(old(files[s]), files[s], off, Padded(data[src..src + len]))
      ensures forall i | 0 <= i < files.Length && i != s :: files[i] == old(files[i])
    {
      FillBuffer(abuf, data, src, len);
      WriteBuffer(s, off, abuf[..RoundUp(len)]);
    }

    /** One more block of a segment. */
    method WriteNext(s: nat, base: nat, data: seq<Byte>, src: nat, seg: nat, written: nat, block: nat,
                     abuf: array<Byte>,
                     ghost f0: seq<Byte>) returns (w: nat)
      requires Valid() && s < files.Length && src + seg <= |data| && written < seg && written % PAGE == 0
      requires block > 0 && block % PAGE == 0 && abuf.Length == RoundUp(block)
      requires Stored(f0, files[s], base, SoFar(data, src, seg, written))
      modifies files, abuf
      ensures written < w <= seg && (w < seg ==> w % PAGE == 0)
      ensures Stored(f0, files[s], base, SoFar(data, src, seg, w))
      ensures forall i | 0 <= i < files.Length && i != s :: files[i] == old(files[i])
    {
      var len := Min(block, seg - written);
      RoundUpBlock(len, block);
      SoFarGrows(data, src, seg, written, block);
      WriteBlock(s, base + written, data, src + written, len, abuf);
      StoredThen(f0, old(files[s]), files[s], base, SoFar(data, src, seg, written),
                 Padded(data[src + written..src + written + len]), SoFar(data, src, seg, written + len), written);
      w := written + len;
    }

    /** Write one segment block by block. */
    method WriteSegment(s: nat, base: nat, data: seq<Byte>, src: nat, seg: nat, block: nat, abuf: array<Byte>)
      requires Valid() && s < files.Length && src + seg <= |data|
      requires block > 0 && block % PAGE == 0 && abuf.Length == RoundUp(block)
      modifies files, abuf
      ensures Stored(old(files[s]), files[s], base, Padded(data[src..src + seg]))
      ensures forall i | 0 <= i < files.Length && i != s :: files[i] == old(files[i])
    {
      var written := 0;
      NothingStored(files[s], base, data, src, seg);
      while written < seg
        invariant 0 <= written <= seg && (written < seg ==> written % PAGE == 0)
        invariant Stored(old(files[s]), files[s], base, SoFar(data, src, seg, written))
        invariant forall i | 0 <= i < files.Length && i != s :: files[i] == old(files[i])
        decreases seg - written
      {
        written := WriteNext(s, base, data, src, seg, written, block, abuf, old(files[s]));
      }
    }

    /** Take the stripe's region and write its segment there. */
    method WriteStripe(i: nat, data: seq<Byte>, segs: seq<nat>, block: nat, abuf: array<Byte>) returns (base: nat)
      requires Valid() && i < files.Length == |segs| && Sum(segs[..i]) + segs[i] <= |data|
      requires block > 0 && block % PAGE == 0 && abuf.Length == RoundUp(block)
      modifies files, cursors, abuf
      ensures base == old(cursors[i]) && cursors[..] == old(cursors[..])[i := base + RoundUp(segs[i])]
      ensures Stored(old(files[i]), files[i], base, SegmentData(data, segs, i))
      ensures files[..] == old(files[..])[i := files[i]]
    {
      base := cursors[i];
      cursors[i] := base + RoundUp(segs[i]);
      WriteSegment(i, base, data, Sum(segs[..i]), segs[i], block, abuf);
    }

    /** One stripe: an empty segment is skipped, except on the first. */
    method DrainOne(ghost f0: seq<seq<Byte>>, ghost c0: seq<nat>, data: seq<Byte>, segs: seq<nat>, i: nat, block: nat,
                    abuf: array<Byte>) returns (piece: seq<Chunk>)
      requires Valid() && block > 0 && block % PAGE == 0 && abuf.Length == RoundUp(block)
      requires i < |segs| == files.Length && Sum(segs) <= |data|
      requires DrainedTo(f0, files[..], c0, cursors[..], data, segs, i)
      modifies files, cursors, abuf
      ensures DrainedTo(f0, files[..], c0, cursors[..], data, segs, i + 1)
      ensures Chunks(segs, c0, i + 1) == Chunks(segs, c0, i) + piece
    {
      ghost var f, c := files[..], cursors[..];
      SegmentFits(data, segs, i);
      if segs[i] != 0 || i == 0 {
        var base := WriteStripe(i, data, segs, block, abuf);
        piece := [Chunk(i, base, segs[i])];
        DrainedNext(f0, f, files[..], c0, c, cursors[..], data, segs, i);
      } else {
        piece := [];
        DrainedSkip(f0, f, c0, c, data, segs, i);
      }
    }

    /** Stripe after stripe: region taken, segment written, chunk recorded. */
    method WriteStripes(data: seq<Byte>, segs: seq<nat>, block: nat) returns (chunks: seq<Chunk>)
      requires Valid() && block > 0 && block % PAGE == 0 && |segs| == files.Length && Sum(segs) <= |data|
      modifies files, cursors
      ensures chunks == Chunks(segs, old(cursors[..]), files.Length)
      ensures DrainedTo(old(files[..]), files[..], old(cursors[..]), cursors[..], data, segs, files.Length)
    {
      ghost var f0, c0 := files[..], cursors[..];
      var abuf := new Byte[RoundUp(block)](_ => 0);
      chunks := [];
      var i := 0;
      DrainedStart(f0, c0, data, segs);
      while i < files.Length
        invariant 0 <= i <= files.Length && chunks == Chunks(segs, c0, i)
        invariant DrainedTo(f0, files[..], c0, cursors[..], data, segs, i)
      {
        var piece := DrainOne(f0, c0, data, segs, i, block, abuf);
        chunks := chunks + piece;
        i := i + 1;
      }
    }

    /** The sequential engine. */
    method WritePwrite(data: seq<Byte>, block: nat) returns (chunks: seq<Chunk>)
      requires Valid() && block > 0 && block % PAGE == 0
      modifies files, cursors
      ensures var segs := Segments(|data|, files.Length);
        && chunks == Chunks(segs, old(cursors[..]), files.Length) && cursors[..] == Advanced(segs, old(cursors[..]))
        && Drained(old(files[..]), files[..], old(cursors[..]), data, segs)
    {
      var segs := StripeSegments(|data|, files.Length);
      SegmentsCover(|data|, files.Length);
      chunks := WriteStripes(data, segs[..], block);
      DrainedAll(old(files[..]), files[..], old(cursors[..]), cursors[..], data, Segments(|data|, files.Length));
    }

    // ------------------------------------------------------- sequential reads

    /** Read up to a buffer of bytes, however many each call returns, stopping at the end of the file. */
    method ReadBuffer(s: nat, off: nat, want: nat, abuf: array<Byte>)
      requires Valid() && s < files.Length && want <= abuf.Length
      modifies abuf
      ensures forall j | 0 <= j < abuf.Length ::
                abuf[j] == if j < want && off + j < |files[s]| then files[s][off + j] else old(abuf[j])
    {
      var r := 0;
      while r < want && off + r < |files[s]|
        invariant 0 <= r <= want && (r > 0 ==> off + r <= |files[s]|)
        invariant forall j | 0 <= j < r :: abuf[j] == files[s][off + j]
        invariant forall j | r <= j < abuf.Length :: abuf[j] == old(abuf[j])
        decreases want - r
      {
        var avail := Min(want - r, |files[s]| - (off + r));
        var n :| 1 <= n <= avail;
        forall i | 0 <= i < n { abuf[r + i] := files[s][off + r + i]; }
        r := r + n;
      }
    }

    /** Read block `p` through the bounce buffer, after those before it. */
    method ReadBlock(b: BlockIO, dst: array<Byte>, abuf: array<Byte>, ghost ios: seq<BlockIO>, ghost p: nat,
                     ghost first: seq<Byte>)
      requires Valid() && p < |ios| && ios[p] == b && b.stripe < files.Length && InOrder(ios, 0, dst.Length)
      requires RoundUp(b.len) <= abuf.Length && dst != abuf && ReadSoFar(files[..], ios, first, p, dst[..], abuf[..])
      modifies dst, abuf
      ensures ReadSoFar(files[..], ios, first, p + 1, dst[..], abuf[..])
    {
      assert Between(b, 0, dst.Length);
      ghost var before, held := dst[..], abuf[..];
      ReadBuffer(b.stripe, b.fileOff, RoundUp(b.len), abuf);
      BufferNext(files[..], ios, first, p, held, abuf[..]);
      CopyFront(abuf, dst, b.memOff, b.len);
      PlacedNext(files[..], ios, first, p, before, dst[..], abuf[..]);
    }

    /** Read one chunk block by block into memory; its blocks are the next ones, then come those of `after`. */
    method ReadInto(c: Chunk, dst: array<Byte>, mem: nat, block: nat, abuf: array<Byte>, ghost ios: seq<BlockIO>,
                    ghost p: nat, ghost after: seq<BlockIO>, ghost first: seq<Byte>)
      returns (ghost p': nat)
      requires Valid() && c.stripe < files.Length && block > 0 && abuf.Length == RoundUp(block) && dst != abuf
      requires InOrder(ios, 0, dst.Length) && Ahead(ios, p, c, mem, block, 0, after)
      requires ReadSoFar(files[..], ios, first, p, dst[..], abuf[..])
      modifies dst, abuf
      ensures p' <= |ios| && ios[p'..] == after && ReadSoFar(files[..], ios, first, p', dst[..], abuf[..])
    {
      var done := 0;
      p' := p;
      while done < c.length
        invariant 0 <= done <= c.length && Ahead(ios, p', c, mem, block, done, after)
        invariant ReadSoFar(files[..], ios, first, p', dst[..], abuf[..])
      {
        var b := NextBlock(c, mem, block, done);
        RoundUpBlock(b.len, block);
        ReadBlock(b, dst, abuf, ios, p', first);
        p', done := p' + 1, done + b.len;
      }
    }

    /**
     The sequential engine: chunk after chunk into consecutive memory. It reports success even when a
     file is too short for its chunk; then the missing bytes are what the bounce buffer had left from
     the blocks before, or, for the first ones, from whoever used the memory (`first`).
     */
    method ReadPread(chunks: seq<Chunk>, dst: array<Byte>, block: nat) returns (ok: bool, ghost first: seq<Byte>)
      requires Valid() && block > 0 && TotalLength(chunks) <= dst.Length
      requires forall c | c in chunks :: c.stripe < files.Length
      modifies dst
      ensures ok && |first| == RoundUp(block)
      ensures AllPlaced(files[..], AllBlocks(chunks, 0, block), first, dst[..])
      ensures dst[..TotalLength(chunks)] == ReadChunks(files[..], chunks) <==> AllThere(files[..], chunks)
    {
      var abuf := new Byte[RoundUp(block)];
      first := abuf[..];
      ghost var ios, p: nat := AllBlocks(chunks, 0, block), 0;
      ListInOrder(chunks, 0, block);
      Widen(ios, TotalLength(chunks), dst.Length);
      var consumed: nat, k := 0, 0;
      while k < |chunks|
        invariant 0 <= k <= |chunks| && p <= |ios| && ios[p..] == AllBlocks(chunks[k..], consumed, block)
        invariant ReadSoFar(files[..], ios, first, p, dst[..], abuf[..])
      {
        assert chunks[k..][0] == chunks[k] && chunks[k..][1..] == chunks[k + 1..];
        ghost var after := AllBlocks(chunks[k + 1..], consumed + chunks[k].length, block);
        AheadIs(ios, p, chunks[k], consumed, block, 0, after);
        p := ReadInto(chunks[k], dst, consumed, block, abuf, ios, p, after, first);
        consumed := consumed + chunks[k].length;
        k := k + 1;
      }
      PlacedIsChunksIff(files[..], ios, chunks, block, first, dst[..]);
      ok := true;
    }
  }

  method CopyFront(abuf: array<Byte>, dst: array<Byte>, at: nat, len: nat)
    requires at + len <= dst.Length && len <= abuf.Length && dst != abuf
    modifies dst
    ensures forall i | 0 <= i < dst.Length :: dst[i] == if at <= i < at + len then abuf[i - at] else old(dst[i])
  {
    forall i | 0 <= i < len { dst[at + i] := abuf[i]; }
  }

  // ---------------------------------------------------------------- short reads

  /** Byte `j` of the bounce buffer after the first `p` blocks: a short read leaves what was there before. */
  function Stale(files: seq<seq<Byte>>, ios: seq<BlockIO>, first: seq<Byte>, p: nat, j: nat): Byte
    requires p <= |ios|
  {
    if p == 0 then if j < |first| then first[j] else 0
    else
      var b := ios[p - 1];
      if b.stripe < |files| && j < RoundUp(b.len) && b.fileOff + j < |files[b.stripe]|
      then files[b.stripe][b.fileOff + j] else Stale(files, ios, first, p - 1, j)
  }

  /** The memory of block `q` is what the bounce buffer held after it. */
  ghost predicate Placed(files: seq<seq<Byte>>, ios: seq<BlockIO>, first: seq<Byte>, dst: seq<Byte>, q: nat)
    requires q < |ios|
  {
    var b := ios[q];
    && b.memOff + b.len <= |dst|
    && forall i | b.memOff <= i < b.memOff + b.len :: dst[i] == Stale(files, ios, first, q + 1, i - b.memOff)
  }

  ghost predicate AllPlaced(files: seq<seq<Byte>>, ios: seq<BlockIO>, first: seq<Byte>, dst: seq<Byte>) {
    forall q: nat | q < |ios| :: Placed(files, ios, first, dst, q)
  }

  lemma BufferNext(files: seq<seq<Byte>>, ios: seq<BlockIO>, first: seq<Byte>, p: nat, buf: seq<Byte>, buf': seq<Byte>)
    requires p < |ios| && ios[p].stripe < |files| && |buf| == |buf'|
    requires forall j | 0 <= j < |buf| :: buf[j] == Stale(files, ios, first, p, j)
    requires var b := ios[p]; var f := files[b.stripe];
      forall j | 0 <= j < |buf'| ::
        buf'[j] == if j < RoundUp(b.len) && b.fileOff + j < |f| then f[b.fileOff + j] else buf[j]
    ensures forall j | 0 <= j < |buf'| :: buf'[j] == Stale(files, ios, first, p + 1, j)
  {
  }

  lemma PlacedNext(files: seq<seq<Byte>>, ios: seq<BlockIO>, first: seq<Byte>, p: nat, dst: seq<Byte>, dst': seq<Byte>,
                   buf: seq<Byte>)
    requires p < |ios| && InOrder(ios, 0, |dst|) && |dst'| == |dst| && ios[p].len <= |buf|
    requires forall q: nat | q < p :: Placed(files, ios, first, dst, q)
    requires forall j | 0 <= j < |buf| :: buf[j] == Stale(files, ios, first, p + 1, j)
    requires var b := ios[p];
      forall i | 0 <= i < |dst| :: dst'[i] == if b.memOff <= i < b.memOff + b.len then buf[i - b.memOff] else dst[i]
    ensures forall q: nat | q < p + 1 :: Placed(files, ios, first, dst', q)
  {
    assert Between(ios[p], 0, |dst|);
    forall q: nat | q < p + 1 ensures Placed(files, ios, first, dst', q) {
      if q < p {
        assert Placed(files, ios, first, dst, q);
      }
    }
  }

  /** Memory and bounce buffer after the first `p` blocks. */
  ghost predicate ReadSoFar(files: seq<seq<Byte>>, ios: seq<BlockIO>, first: seq<Byte>, p: nat, dst: seq<Byte>,
                            buf: seq<Byte>) {
    && p <= |ios| && (forall q: nat | q < p :: Placed(files, ios, first, dst, q))
    && forall j | 0 <= j < |buf| :: buf[j] == Stale(files, ios, first, p, j)
  }

  /** The block of `c` at `off`. */
  function NextBlock(c: Chunk, mem: nat, block: nat, off: nat): (b: BlockIO)
    requires block > 0 && off < c.length
    ensures 0 < b.len <= block && off + b.len <= c.length
  {
    BlockIO(c.stripe, c.offset + off, mem + off, Min(block, c.length - off))
  }

  /** From `p` on come the blocks of `c` from `off` on, then those of `after`. */
  ghost predicate Ahead(ios: seq<BlockIO>, p: nat, c: Chunk, mem: nat, block: nat, off: nat, after: seq<BlockIO>)
    requires block > 0
    decreases c.length - off
  {
    p <= |ios| &&
    if off >= c.length then ios[p..] == after
    else
      var b := NextBlock(c, mem, block, off);
      p < |ios| && ios[p] == b && Ahead(ios, p + 1, c, mem, block, off + b.len, after)
  }

  lemma {:induction false} AheadIs(ios: seq<BlockIO>, p: nat, c: Chunk, mem: nat, block: nat, off: nat,
                                   after: seq<BlockIO>)
    requires block > 0 && p <= |ios| && ios[p..] == BlocksFrom(c, mem, block, off) + after
    ensures Ahead(ios, p, c, mem, block, off, after)
    decreases c.length - off
  {
    if off < c.length {
      var b := NextBlock(c, mem, block, off);
      assert ios[p] == ios[p..][0] == b;
      assert ios[p + 1..] == ios[p..][1..] == BlocksFrom(c, mem, block, off + b.len) + after;
      AheadIs(ios, p + 1, c, mem, block, off + b.len, after);
    }
  }

  /** A block that is in its file has arrived, whatever was in the buffer. */
  lemma PlacedIsFetched(files: seq<seq<Byte>>, ios: seq<BlockIO>, first: seq<Byte>, dst: seq<Byte>, q: nat)
    requires q < |ios| && Placed(files, ios, first, dst, q) && Readable(files, ios[q])
    ensures Fetched(files, dst, ios[q])
  {
    var b := ios[q];
    PageHasRoom(b.len);
    forall i | b.memOff <= i < b.memOff + b.len
      ensures dst[i] == files[b.stripe][b.fileOff + (i - b.memOff)]
    {
    }
  }

  lemma ReadableFetched(files: seq<seq<Byte>>, ios: seq<BlockIO>, first: seq<Byte>, dst: seq<Byte>)
    requires AllPlaced(files, ios, first, dst) && AllReadable(files, ios)
    ensures AllFetched(files, dst, ios)
  {
    forall p: nat | p < |ios| ensures Fetched(files, dst, ios[p]) {
      PlacedIsFetched(files, ios, first, dst, p);
    }
  }

  lemma PageHasRoom(n: nat)
    ensures n <= RoundUp(n)
  {
  }

  /** With every block placed, memory is the concatenation of the chunks exactly if no file is too short. */
  lemma PlacedIsChunksIff(files: seq<seq<Byte>>, ios: seq<BlockIO>, cs: seq<Chunk>, block: nat, first: seq<Byte>,
                          dst: seq<Byte>)
    requires block > 0 && ios == AllBlocks(cs, 0, block) && TotalLength(cs) <= |dst|
    requires AllPlaced(files, ios, first, dst)
    ensures dst[..TotalLength(cs)] == ReadChunks(files, cs) <==> AllThere(files, cs)
  {
    ReadLength(files, cs);
    if AllThere(files, cs) {
      ListReadable(files, cs, 0, block);
      ReadableFetched(files, ios, first, dst);
      AllArrived(files, cs, 0, block, dst);
      assert dst[0..0 + TotalLength(cs)] == dst[..TotalLength(cs)];
    }
  }

  /** What the region holds after `written` bytes of the segment. */
  function SoFar(data: seq<Byte>, src: nat, seg: nat, written: nat): seq<Byte>
    requires written <= seg && src + seg <= |data|
  {
    if written == seg then Padded(data[src..src + seg]) else data[src..src + written]
  }

  lemma SoFarGrows(data: seq<Byte>, src: nat, seg: nat, written: nat, block: nat)
    requires block > 0 && block % PAGE == 0 && written < seg && written % PAGE == 0 && src + seg <= |data|
    ensures var len := Min(block, seg - written);
      && |SoFar(data, src, seg, written)| == written
      && SoFar(data, src, seg, written) + Padded(data[src + written..src + written + len])
         == SoFar(data, src, seg, written + len)
      && (written + len < seg ==> (written + len) % PAGE == 0)
  {
    var len := Min(block, seg - written);
    BlockStep(Chunk(0, 0, seg), src, block, written);
    var head, tail := data[src..src + written], data[src + written..src + written + len];
    assert head + tail == data[src..src + written + len];
    PaddedSplit(head, tail);
    if written + len < seg {
      PaddedPages(tail);
    }
  }

  lemma StoredThen(f0: seq<Byte>, f1: seq<Byte>, f2: seq<Byte>, base: nat, a: seq<Byte>, b: seq<Byte>, ab: seq<Byte>,
                   n: nat)
    requires Stored(f0, f1, base, a) && |a| == n && Stored(f1, f2, base + n, b) && ab == a + b
    ensures Stored(f0, f2, base, ab)
  {
    StoredAppend(f0, f1, f2, base, a, b);
  }

  /** The first `n` stripes are done, the others untouched. */
  ghost predicate DrainedTo(f0: seq<seq<Byte>>, f: seq<seq<Byte>>, c0: seq<nat>, c: seq<nat>, data: seq<Byte>,
                            segs: seq<nat>, n: nat) {
    && |f| == |f0| == |c| == |c0| == |segs|
    && (forall i | 0 <= i < |f| :: c[i] == c0[i] + if i < n then RoundUp(segs[i]) else 0)
    && (forall i | 0 <= i < |f| && i < n ::
          Sum(segs[..i]) + segs[i] <= |data| && Stored(f0[i], f[i], c0[i], SegmentData(data, segs, i)))
    && (forall i | n <= i < |f| :: f[i] == f0[i])
  }

  lemma DrainedStart(f: seq<seq<Byte>>, c: seq<nat>, data: seq<Byte>, segs: seq<nat>)
    requires |f| == |c| == |segs|
    ensures DrainedTo(f, f, c, c, data, segs, 0)
  {
  }

  lemma DrainedNext(f0: seq<seq<Byte>>, f: seq<seq<Byte>>, f': seq<seq<Byte>>, c0: seq<nat>, c: seq<nat>, c': seq<nat>,
                    data: seq<Byte>, segs: seq<nat>, n: nat)
    requires DrainedTo(f0, f, c0, c, data, segs, n) && n < |f| && Sum(segs[..n]) + segs[n] <= |data|
    requires |f'| == |f| && f' == f[n := f'[n]] && Stored(f[n], f'[n], c[n], SegmentData(data, segs, n))
    requires c' == c[n := c[n] + RoundUp(segs[n])]
    ensures DrainedTo(f0, f', c0, c', data, segs, n + 1)
  {
  }

  lemma DrainedSkip(f0: seq<seq<Byte>>, f: seq<seq<Byte>>, c0: seq<nat>, c: seq<nat>, data: seq<Byte>,
                    segs: seq<nat>, n: nat)
    requires DrainedTo(f0, f, c0, c, data, segs, n) && n < |f| && segs[n] == 0 && Sum(segs[..n]) <= |data|
    ensures DrainedTo(f0, f, c0, c, data, segs, n + 1)
  {
    RoundUpMultiple(0);
    EmptyStored(f[n], c[n], data, Sum(segs[..n]));
  }

  lemma DrainedAll(f0: seq<seq<Byte>>, f: seq<seq<Byte>>, c0: seq<nat>, c: seq<nat>, data: seq<Byte>, segs: seq<nat>)
    requires DrainedTo(f0, f, c0, c, data, segs, |segs|)
    ensures Drained(f0, f, c0, data, segs) && c == Advanced(segs, c0)
  {
  }

  lemma RoundUpBlock(len: nat, block: nat)
    requires len <= block
    ensures RoundUp(len) <= RoundUp(block)
  {
  }

  lemma EmptyStored(f: seq<Byte>, off: nat, data: seq<Byte>, src: nat)
    requires src <= |data|
    ensures Stored(f, f, off, Padded(data[src..src]))
  {
    assert data[src..src] == [];
    PaddedPages([]);
  }

  lemma NothingStored(f: seq<Byte>, off: nat, data: seq<Byte>, src: nat, seg: nat)
    requires src + seg <= |data|
    ensures Stored(f, f, off, SoFar(data, src, seg, 0))
  {
    EmptyStored(f, off, data, src);
    PaddedPages([]);
    assert data[src..src] == [];
  }

  lemma {:induction false} ReadSnoc(files: seq<seq<Byte>>, cs: seq<Chunk>, c: Chunk)
    ensures ReadChunks(files, cs + [c]) == ReadChunks(files, cs) + ReadChunk(files, c)
    decreases |cs|
  {
    if cs == [] {
      assert cs + [c] == [c] && [c][1..] == [];
      assert ReadChunks(files, [c]) == ReadChunk(files, c) + [];
    } else {
      assert (cs + [c])[1..] == cs[1..] + [c];
      ReadSnoc(files, cs[1..], c);
    }
  }

  // ------------------------------------------------------- writes, then reads

  lemma {:induction false} ChunksTotal(segs: seq<nat>, cursors: seq<nat>, n: nat)
    requires n <= |segs| == |cursors|
    ensures TotalLength(Chunks(segs, cursors, n)) == Sum(segs[..n])
  {
    if n > 0 {
      ChunksTotal(segs, cursors, n - 1);
      SumNext(segs, n - 1);
      if Used(segs, n - 1) {
        TotalOfOne(Chunks(segs, cursors, n - 1), Chunk(n - 1, cursors[n - 1], segs[n - 1]));
      } else {
        assert Chunks(segs, cursors, n - 1) + [] == Chunks(segs, cursors, n - 1);
      }
    }
  }

  lemma SegmentRead(f0: seq<Byte>, f: seq<Byte>, off: nat, data: seq<Byte>, src: nat, len: nat)
    requires src + len <= |data| && Stored(f0, f, off, Padded(data[src..src + len]))
    ensures ReadAt(f, off, len) == data[src..src + len]
  {
    var bytes := Padded(data[src..src + len]);
    if len > 0 {
      StoredIsRead(f0, f, off, bytes);
      assert f[off..off + len] == f[off..off + |bytes|][..len];
    }
  }

  lemma ChunkRead(files0: seq<seq<Byte>>, files: seq<seq<Byte>>, cursors: seq<nat>, data: seq<Byte>, segs: seq<nat>,
                  i: nat)
    requires Drained(files0, files, cursors, data, segs) && i < |segs|
    ensures Sum(segs[..i]) + segs[i] <= |data|
    ensures ReadChunk(files, Chunk(i, cursors[i], segs[i])) == data[Sum(segs[..i])..Sum(segs[..i]) + segs[i]]
  {
    assert Stored(files0[i], files[i], cursors[i], SegmentData(data, segs, i));
    SegmentRead(files0[i], files[i], cursors[i], data, Sum(segs[..i]), segs[i]);
  }

  lemma ChunksRead(files: seq<seq<Byte>>, segs: seq<nat>, cursors: seq<nat>, n: nat)
    requires n < |segs| == |cursors|
    ensures ReadChunks(files, Chunks(segs, cursors, n + 1))
      == ReadChunks(files, Chunks(segs, cursors, n)) + ReadChunk(files, Chunk(n, cursors[n], segs[n]))
  {
    var prev := Chunks(segs, cursors, n);
    if Used(segs, n) {
      ReadSnoc(files, prev, Chunk(n, cursors[n], segs[n]));
    } else {
      assert prev + [] == prev;
      assert ReadChunk(files, Chunk(n, cursors[n], segs[n])) == [];
      assert ReadChunks(files, prev) + [] == ReadChunks(files, prev);
    }
  }

  lemma JoinSlices(data: seq<Byte>, a: nat, b: nat)
    requires a + b <= |data|
    ensures data[..a] + data[a..a + b] == data[..a + b]
  {
  }

  /** Segment `i` is read back from its chunk. */
  ghost predicate SegmentBack(files: seq<seq<Byte>>, cursors: seq<nat>, data: seq<Byte>, segs: seq<nat>, i: nat) {
    && i < |segs| == |cursors| && Sum(segs[..i]) + segs[i] <= |data|
    && ReadChunk(files, Chunk(i, cursors[i], segs[i])) == data[Sum(segs[..i])..Sum(segs[..i]) + segs[i]]
  }

  /** The first `n` chunks hold the first `n` segments. */
  ghost predicate ReadTo(files: seq<seq<Byte>>, cursors: seq<nat>, data: seq<Byte>, segs: seq<nat>, n: nat) {
    && n <= |segs| == |cursors| && Sum(segs[..n]) <= |data|
    && ReadChunks(files, Chunks(segs, cursors, n)) == data[..Sum(segs[..n])]
  }

  lemma ReadToStart(files: seq<seq<Byte>>, cursors: seq<nat>, data: seq<Byte>, segs: seq<nat>)
    requires |segs| == |cursors|
    ensures ReadTo(files, cursors, data, segs, 0)
  {
    assert segs[..0] == [];
  }

  lemma ReadToNext(files: seq<seq<Byte>>, cursors: seq<nat>, data: seq<Byte>, segs: seq<nat>, n: nat)
    requires SegmentBack(files, cursors, data, segs, n) && ReadTo(files, cursors, data, segs, n)
    ensures ReadTo(files, cursors, data, segs, n + 1)
  {
    SumNext(segs, n);
    ChunksRead(files, segs, cursors, n);
    JoinSlices(data, Sum(segs[..n]), segs[n]);
  }

  lemma PrefixRead(files: seq<seq<Byte>>, cursors: seq<nat>, data: seq<Byte>, segs: seq<nat>)
    requires |segs| == |cursors| && forall i: nat | i < |segs| :: SegmentBack(files, cursors, data, segs, i)
    ensures ReadTo(files, cursors, data, segs, |segs|)
  {
    ReadToStart(files, cursors, data, segs);
    for n := 0 to |segs|
      invariant ReadTo(files, cursors, data, segs, n)
    {
      ReadToNext(files, cursors, data, segs, n);
    }
  }

  /** What either engine wrote, read back through its chunk list, is the tensor. */
  lemma DrainedReads(files0: seq<seq<Byte>>, files: seq<seq<Byte>>, cursors: seq<nat>, data: seq<Byte>, segs: seq<nat>)
    requires Drained(files0, files, cursors, data, segs) && Sum(segs) == |data|
    ensures var cs := Chunks(segs, cursors, |segs|);
      TotalLength(cs) == |data| && AllThere(files, cs) && ReadChunks(files, cs) == data
  {
    forall i: nat | i < |segs| ensures SegmentBack(files, cursors, data, segs, i) {
      ChunkRead(files0, files, cursors, data, segs, i);
    }
    PrefixRead(files, cursors, data, segs);
    assert segs[..|segs|] == segs && data[..|data|] == data;
    ChunksTotal(segs, cursors, |segs|);
    ReadLength(files, Chunks(segs, cursors, |segs|));
  }
}

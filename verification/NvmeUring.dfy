/**
 The asynchronous engine leaves and reads exactly what the sequential one does,
 for any order in which the kernel completes the requests in flight.
 */
module NvmeUring {
  import opened Bits
  import opened NvmeLayout
  import opened NvmeBlocks
  import opened NvmeRegions
  import opened NvmeEngines
  import opened NvmeWindow

  // ------------------------------------------------------ chunks and stripes

  ghost predicate AtCursor(c: Chunk, segs: seq<nat>, cursors: seq<nat>, n: nat) {
    c.stripe < n <= |segs| == |cursors| && c == Chunk(c.stripe, cursors[c.stripe], segs[c.stripe])
  }

  /** Stripes below `n` in ascending order, each at its cursor. */
  ghost predicate Ascending(cs: seq<Chunk>, segs: seq<nat>, cursors: seq<nat>, n: nat) {
    && (forall j | 0 <= j < |cs| :: AtCursor(cs[j], segs, cursors, n))
    && (forall i, j | 0 <= i < j < |cs| :: cs[i].stripe < cs[j].stripe)
  }

  lemma AscendingNext(cs: seq<Chunk>, segs: seq<nat>, cursors: seq<nat>, n: nat)
    requires n < |segs| == |cursors| && Ascending(cs, segs, cursors, n)
    ensures Ascending(cs, segs, cursors, n + 1)
    ensures Ascending(cs + [Chunk(n, cursors[n], segs[n])], segs, cursors, n + 1)
  {
    var more := cs + [Chunk(n, cursors[n], segs[n])];
    forall j | 0 <= j < |more| ensures AtCursor(more[j], segs, cursors, n + 1) {
      assert j < |cs| ==> AtCursor(cs[j], segs, cursors, n);
    }
  }

  /** The chunk list in detail: used stripes in order, each at its cursor. */
  lemma {:induction false} ChunksAre(segs: seq<nat>, cursors: seq<nat>, n: nat)
    requires n <= |segs| == |cursors|
    ensures Ascending(Chunks(segs, cursors, n), segs, cursors, n)
  {
    if n > 0 {
      ChunksAre(segs, cursors, n - 1);
      var prev := Chunks(segs, cursors, n - 1);
      AscendingNext(prev, segs, cursors, n - 1);
      assert prev + [] == prev;
    }
  }

  /** The chunk of a used stripe, and where its bytes are in memory. */
  lemma {:induction false} ChunkOfStripe(segs: seq<nat>, cursors: seq<nat>, n: nat, s: nat) returns (j: nat)
    requires s < n <= |segs| == |cursors| && Used(segs, s)
    ensures var cs := Chunks(segs, cursors, n);
      j < |cs| && cs[j] == Chunk(s, cursors[s], segs[s]) && MemOf(cs, j) == Sum(segs[..s])
    decreases n
  {
    var cs, prev := Chunks(segs, cursors, n), Chunks(segs, cursors, n - 1);
    assert prev <= cs;
    if s == n - 1 {
      j := |prev|;
      ChunksTotal(segs, cursors, n - 1);
      assert cs[..j] == prev;
    } else {
      j := ChunkOfStripe(segs, cursors, n - 1, s);
      assert cs[..j] == prev[..j];
    }
  }

  // ----------------------------------------------------- what has been written

  /** The landed blocks are on disk. */
  ghost predicate LandedOnDisk(files: seq<seq<Byte>>, data: seq<Byte>, ios: seq<BlockIO>, landed: set<nat>) {
    forall b: nat | b in landed && b < |ios| :: OnDisk(files, data, ios[b], RoundUp(ios[b].len))
  }

  /** Nothing changed outside the regions that were taken. */
  ghost predicate OutsideKept(f0: seq<seq<Byte>>, f: seq<seq<Byte>>, cursors: seq<nat>, segs: seq<nat>) {
    && |f| == |f0| == |cursors| == |segs|
    && forall s: nat | s < |f| :: FileKept(f0[s], f[s], cursors[s], RoundUp(segs[s]))
  }

  ghost predicate FileKept(f0: seq<Byte>, f: seq<Byte>, off: nat, len: nat) {
    && |f0| <= |f| <= (if len == 0 then |f0| else Max(|f0|, off + len))
    && forall i: nat | !(off <= i < off + len) :: ByteAt(f, i) == ByteAt(f0, i)
  }

  /** Blocks to be moved, as both engines lay them out. */
  ghost predicate Plan(ios: seq<BlockIO>, data: seq<Byte>, segs: seq<nat>, cursors: seq<nat>, block: nat) {
    && block > 0 && block % PAGE == 0 && |segs| == |cursors| > 0 && Sum(segs) == |data|
    && ios == AllBlocks(Chunks(segs, cursors, |segs|), 0, block)
  }

  /** Each planned block lies in its stripe's region and is part of the tensor. */
  lemma PlannedBlock(ios: seq<BlockIO>, data: seq<Byte>, segs: seq<nat>, cursors: seq<nat>, block: nat, k: nat)
    requires Plan(ios, data, segs, cursors, block) && k < |ios|
    ensures var b := ios[k];
      && b.stripe < |segs| && b.memOff + b.len <= |data| && b.len > 0
      && cursors[b.stripe] <= b.fileOff && b.fileOff + RoundUp(b.len) <= cursors[b.stripe] + RoundUp(segs[b.stripe])
  {
    var cs := Chunks(segs, cursors, |segs|);
    ChunksAre(segs, cursors, |segs|);
    ChunksTotal(segs, cursors, |segs|);
    assert segs[..|segs|] == segs;
    var j := HomeOf(cs, 0, block, k);
    assert AtCursor(cs[j], segs, cursors, |segs|);
  }

  lemma PlannedApart(ios: seq<BlockIO>, data: seq<Byte>, segs: seq<nat>, cursors: seq<nat>, block: nat)
    requires Plan(ios, data, segs, cursors, block)
    ensures AllApart(ios)
  {
    ChunksAre(segs, cursors, |segs|);
    ListApart(Chunks(segs, cursors, |segs|), 0, block);
  }

  /** A landing puts its block on disk and disturbs neither what has landed nor what lies outside. */
  lemma LandWrites(f0: seq<seq<Byte>>, f: seq<seq<Byte>>, ios: seq<BlockIO>, data: seq<Byte>, segs: seq<nat>,
                   cursors: seq<nat>,
                   block: nat, landed: set<nat>, k: nat)
    requires Plan(ios, data, segs, cursors, block) && k < |ios| && OutsideKept(f0, f, cursors, segs)
    requires LandedOnDisk(f, data, ios, landed)
    ensures var b := ios[k]; b.stripe < |f| && b.memOff + b.len <= |data|
    ensures var f' := WrittenFiles(f, data, ios[k], 0, RoundUp(ios[k].len));
      OutsideKept(f0, f', cursors, segs) && LandedOnDisk(f', data, ios, landed + {k})
  {
    PlannedBlock(ios, data, segs, cursors, block, k);
    PlannedApart(ios, data, segs, cursors, block);
    var b := ios[k];
    var f' := WrittenFiles(f, data, b, 0, RoundUp(b.len));
    forall m: nat | m in landed + {k} && m < |ios| ensures OnDisk(f', data, ios[m], RoundUp(ios[m].len)) {
      if m == k {
        WriteHere(f, data, b, 0, RoundUp(b.len));
      } else {
        assert Apart(b, ios[m]);
        WriteApart(f, data, b, 0, RoundUp(b.len), data, ios[m], RoundUp(ios[m].len));
      }
    }
    forall s: nat | s < |f| ensures FileKept(f0[s], f'[s], cursors[s], RoundUp(segs[s])) {
      assert FileKept(f0[s], f[s], cursors[s], RoundUp(segs[s]));
    }
  }

  /** The block that carries place `i` of a used stripe's region. */
  lemma CarrierOf(ios: seq<BlockIO>, data: seq<Byte>, segs: seq<nat>, cursors: seq<nat>, block: nat, s: nat,
                  i: nat) returns (k: nat)
    requires Plan(ios, data, segs, cursors, block) && s < |segs| && segs[s] > 0 && Sum(segs[..s]) + segs[s] <= |data|
    requires cursors[s] <= i < cursors[s] + RoundUp(segs[s])
    ensures k < |ios| && Carries(data, Chunk(s, cursors[s], segs[s]), Sum(segs[..s]), ios[k], i)
  {
    var cs := Chunks(segs, cursors, |segs|);
    var j := ChunkOfStripe(segs, cursors, |segs|, s);
    var q := BlocksCover(data, cs[j], MemOf(cs, j), block, 0, i);
    k := PlaceOf(cs, 0, block, j, q);
  }

  /** When every block has landed, each place of a used stripe's region holds the segment's byte. */
  lemma RegionFilled(f: seq<seq<Byte>>, ios: seq<BlockIO>, data: seq<Byte>, segs: seq<nat>, cursors: seq<nat>,
                     block: nat, s: nat, i: nat)
    requires Plan(ios, data, segs, cursors, block) && |f| == |segs| && s < |segs| && segs[s] > 0
    requires forall k: nat | k < |ios| :: OnDisk(f, data, ios[k], RoundUp(ios[k].len))
    requires cursors[s] <= i < cursors[s] + RoundUp(segs[s])
    ensures Sum(segs[..s]) + segs[s] <= |data| && i < |f[s]|
    ensures ByteAt(f[s], i) == SegmentData(data, segs, s)[i - cursors[s]]
  {
    SegmentFits(data, segs, s);
    var k := CarrierOf(ios, data, segs, cursors, block, s, i);
    assert OnDisk(f, data, ios[k], RoundUp(ios[k].len));
  }

  lemma StripeDrained(f0: seq<seq<Byte>>, f: seq<seq<Byte>>, ios: seq<BlockIO>, data: seq<Byte>, segs: seq<nat>,
                      cursors: seq<nat>, block: nat, s: nat)
    requires Plan(ios, data, segs, cursors, block) && OutsideKept(f0, f, cursors, segs) && s < |segs|
    requires forall k: nat | k < |ios| :: OnDisk(f, data, ios[k], RoundUp(ios[k].len))
    ensures Sum(segs[..s]) + segs[s] <= |data| && Stored(f0[s], f[s], cursors[s], SegmentData(data, segs, s))
  {
    SegmentFits(data, segs, s);
    assert FileKept(f0[s], f[s], cursors[s], RoundUp(segs[s]));
    if segs[s] == 0 {
      RoundUpMultiple(0);
    } else {
      forall i: nat | cursors[s] <= i < cursors[s] + RoundUp(segs[s])
        ensures i < |f[s]| && ByteAt(f[s], i) == SegmentData(data, segs, s)[i - cursors[s]]
      {
        RegionFilled(f, ios, data, segs, cursors, block, s, i);
      }
      RegionFilled(f, ios, data, segs, cursors, block, s, cursors[s] + RoundUp(segs[s]) - 1);
    }
  }

  lemma AllDrained(f0: seq<seq<Byte>>, f: seq<seq<Byte>>, ios: seq<BlockIO>, data: seq<Byte>, segs: seq<nat>,
                   cursors: seq<nat>, block: nat)
    requires Plan(ios, data, segs, cursors, block) && OutsideKept(f0, f, cursors, segs)
    requires forall k: nat | k < |ios| :: OnDisk(f, data, ios[k], RoundUp(ios[k].len))
    ensures Drained(f0, f, cursors, data, segs)
  {
    forall s | 0 <= s < |f|
      ensures Sum(segs[..s]) + segs[s] <= |data| && Stored(f0[s], f[s], cursors[s], SegmentData(data, segs, s))
    {
      StripeDrained(f0, f, ios, data, segs, cursors, block, s);
    }
  }

  // ------------------------------------------------------------------ writing

  /** Take every stripe's region and record the chunks. */
  method ReserveAll(disk: StripeFiles, segs: seq<nat>) returns (chunks: seq<Chunk>)
    requires disk.Valid() && |segs| == disk.files.Length
    modifies disk.cursors
    ensures chunks == Chunks(segs, old(disk.cursors[..]), |segs|)
    ensures disk.cursors[..] == Advanced(segs, old(disk.cursors[..]))
  {
    chunks := [];
    ghost var c0 := disk.cursors[..];
    for i := 0 to |segs|
      invariant chunks == Chunks(segs, c0, i)
      invariant forall j | 0 <= j < |segs| :: disk.cursors[j] == c0[j] + if j < i then RoundUp(segs[j]) else 0
    {
      if segs[i] != 0 || i == 0 {
        chunks := chunks + [Chunk(i, disk.cursors[i], segs[i])];
        disk.cursors[i] := disk.cursors[i] + RoundUp(segs[i]);
      } else {
        RoundUpMultiple(0);
      }
    }
  }

  /** The flat list of block requests. */
  method BuildBlocks(chunks: seq<Chunk>, block: nat) returns (ios: seq<BlockIO>)
    requires block > 0
    ensures ios == AllBlocks(chunks, 0, block)
  {
    ios := [];
    var consumed, k := 0, 0;
    while k < |chunks|
      invariant 0 <= k <= |chunks| && consumed == MemOf(chunks, k) && ios == AllBlocks(chunks[..k], 0, block)
    {
      var bs := BuildChunk(chunks[k], consumed, block);
      assert chunks[..k + 1] == chunks[..k] + [chunks[k]];
      AllBlocksAppend(chunks[..k], chunks[k], 0, block);
      MemNext(chunks, k);
      ios := ios + bs;
      consumed := consumed + chunks[k].length;
      k := k + 1;
    }
    assert chunks[..|chunks|] == chunks;
  }

  lemma IosAssoc(a: seq<BlockIO>, b: BlockIO, c: seq<BlockIO>)
    ensures a + ([b] + c) == a + [b] + c
  {
  }

  method BuildChunk(c: Chunk, mem: nat, block: nat) returns (bs: seq<BlockIO>)
    requires block > 0
    ensures bs == BlocksFrom(c, mem, block, 0)
  {
    bs := [];
    var off := 0;
    while off < c.length
      invariant 0 <= off && bs + BlocksFrom(c, mem, block, off) == BlocksFrom(c, mem, block, 0)
      decreases c.length - off
    {
      var len := Min(block, c.length - off);
      var b := BlockIO(c.stripe, c.offset + off, mem + off, len);
      assert BlocksFrom(c, mem, block, off) == [b] + BlocksFrom(c, mem, block, off + len);
      IosAssoc(bs, b, BlocksFrom(c, mem, block, off + len));
      bs := bs + [b];
      off := off + len;
    }
    assert bs + [] == bs;
  }

  /** Bounce buffers of the requests in flight hold their blocks. */
  ghost predicate Loaded(w: Window, pool: seq<seq<Byte>>, data: seq<Byte>, ios: seq<BlockIO>, qd: nat) {
    && |pool| == qd
    && forall s | s in w.flying :: s.buf < qd && s.blk < |ios| && ios[s.blk].memOff + ios[s.blk].len <= |data|
         && pool[s.buf] == BlockData(data, ios[s.blk])
  }

  lemma LoadMore(w: Window, pool: seq<seq<Byte>>, data: seq<Byte>, ios: seq<BlockIO>, qd: nat)
    requires Loaded(w, pool, data, ios, qd) && FreeOk(w, qd) && w.free != [] && w.next < |ios| && |w.iov| == IOV_SLOTS
    requires ios[w.next].memOff + ios[w.next].len <= |data|
    ensures Loaded(Submit(w, ios[w.next]), pool[w.free[|w.free| - 1] := BlockData(data, ios[w.next])], data, ios, qd)
  {
  }

  /** The window and its buffers, between two completions. */
  ghost predicate Ready(w: Window, pool: seq<seq<Byte>>, data: seq<Byte>, ios: seq<BlockIO>, qd: nat,
                        landed: set<nat>) {
    WindowOk(w, ios, qd, landed) && Loaded(w, pool, data, ios, qd)
  }

  /** The next block, loaded into the buffer on top of the free list. */
  lemma SubmitReady(w: Window, pool: seq<seq<Byte>>, data: seq<Byte>, ios: seq<BlockIO>, qd: nat, landed: set<nat>)
    requires Ready(w, pool, data, ios, qd, landed) && w.next < |ios| && w.free != []
    requires ios[w.next].memOff + ios[w.next].len <= |data|
    ensures var top := w.free[|w.free| - 1];
      && top < |pool| && |w.iov| == IOV_SLOTS
      && Ready(Submit(w, ios[w.next]), pool[top := BlockData(data, ios[w.next])], data, ios, qd, landed)
  {
    SubmitOk(w, ios, qd, landed);
    LoadMore(w, pool, data, ios, qd);
  }

  /** Copy the next block into a free buffer and hand it to the kernel. */
  method SubmitNext(w: Window, pool: seq<seq<Byte>>, data: seq<Byte>, ios: seq<BlockIO>, qd: nat,
                    ghost landed: set<nat>)
    returns (w': Window, pool': seq<seq<Byte>>)
    requires Ready(w, pool, data, ios, qd, landed) && w.next < |ios| && w.free != []
    requires ios[w.next].memOff + ios[w.next].len <= |data|
    ensures Ready(w', pool', data, ios, qd, landed) && w'.next == w.next + 1
  {
    SubmitReady(w, pool, data, ios, qd, landed);
    var b := ios[w.next];
    pool' := pool[w.free[|w.free| - 1] := BlockData(data, b)];
    w' := Submit(w, b);
  }

  lemma ReadyFlies(w: Window, pool: seq<seq<Byte>>, data: seq<Byte>, ios: seq<BlockIO>, qd: nat, landed: set<nat>)
    requires Ready(w, pool, data, ios, qd, landed) && |landed| < |ios| && (w.next >= |ios| || w.free == [])
    ensures w.flying != {} && Settled(w, ios, qd)
  {
    PipeNotEmpty(w, ios, qd, landed);
  }

  /** Fill the pipe. */
  method FillPipe(w0: Window, pool0: seq<seq<Byte>>, data: seq<Byte>, ios: seq<BlockIO>, qd: nat,
                  ghost landed: set<nat>)
    returns (w: Window, pool: seq<seq<Byte>>)
    requires Ready(w0, pool0, data, ios, qd, landed) && |landed| < |ios| && InTensor(ios, data)
    ensures Ready(w, pool, data, ios, qd, landed) && w.flying != {} && Settled(w, ios, qd)
  {
    w, pool := w0, pool0;
    while w.next < |ios| && w.free != []
      invariant Ready(w, pool, data, ios, qd, landed)
      decreases |ios| - w.next
    {
      w, pool := SubmitNext(w, pool, data, ios, qd, landed);
    }
    ReadyFlies(w, pool, data, ios, qd, landed);
  }

  ghost predicate InTensor(ios: seq<BlockIO>, data: seq<Byte>) {
    forall k: nat | k < |ios| :: ios[k].memOff + ios[k].len <= |data|
  }

  /** The kernel executes request `s` from its vector, and reports its cookie. */
  method Perform(disk: StripeFiles, w: Window, pool: seq<seq<Byte>>, s: Sqe, ghost data: seq<Byte>,
                 ghost ios: seq<BlockIO>, ghost qd: nat)
    returns (cookie: nat)
    requires disk.Valid() && s in w.flying && Flies(w, ios, qd, s) && Loaded(w, pool, data, ios, qd)
    requires s.stripe < disk.files.Length
    modifies disk.files
    ensures disk.files[..] == WrittenFiles(old(disk.files[..]), data, ios[s.blk], 0, RoundUp(ios[s.blk].len))
    ensures cookie == Cookie(s.blk, s.buf)
  {
    var v := w.iov[s.slot];
    disk.files[s.stripe] := WriteAt(disk.files[s.stripe], s.off, pool[v.buf][..v.len]);
    cookie := Cookie(s.blk, s.buf);
    assert BlockData(data, ios[s.blk])[0..0 + RoundUp(ios[s.blk].len)] == pool[v.buf][..v.len];
  }

  /** Everything the write loop keeps. */
  ghost predicate Writing(f0: seq<seq<Byte>>, f: seq<seq<Byte>>, w: Window, pool: seq<seq<Byte>>, data: seq<Byte>,
                          ios: seq<BlockIO>, qd: nat, landed: set<nat>, segs: seq<nat>, cursors: seq<nat>) {
    && Ready(w, pool, data, ios, qd, landed)
    && LandedOnDisk(f, data, ios, landed) && OutsideKept(f0, f, cursors, segs)
  }

  lemma RetireLoaded(w: Window, pool: seq<seq<Byte>>, data: seq<Byte>, ios: seq<BlockIO>, qd: nat, s: Sqe)
    requires Loaded(w, pool, data, ios, qd)
    ensures Loaded(Retire(w, s, s.buf), pool, data, ios, qd)
  {
  }

  /** One completion: whichever request the kernel reports next. */
  method LandOne(disk: StripeFiles, w: Window, pool: seq<seq<Byte>>, ios: seq<BlockIO>, ghost data: seq<Byte>,
                 ghost qd: nat,
                 ghost landed: set<nat>, ghost f0: seq<seq<Byte>>, ghost segs: seq<nat>, ghost cursors: seq<nat>,
                   ghost block: nat)
    returns (w': Window, blk: nat)
    requires disk.Valid() && Plan(ios, data, segs, cursors, block) && w.flying != {} && Settled(w, ios, qd)
    requires Writing(f0, disk.files[..], w, pool, data, ios, qd, landed, segs, cursors)
    modifies disk.files
    ensures blk < |ios| && blk !in landed
    ensures Writing(f0, disk.files[..], w', pool, data, ios, qd, landed + {blk}, segs, cursors)
  {
    var s :| s in w.flying;
    assert Flies(w, ios, qd, s);
    PlannedBlock(ios, data, segs, cursors, block, s.blk);
    LandWrites(f0, disk.files[..], ios, data, segs, cursors, block, landed, s.blk);
    var cookie := Perform(disk, w, pool, s, data, ios, qd);
    CookieExactIff(s.blk, s.buf);
    blk := BlkOf(cookie);
    w' := Retire(w, s, BufOf(cookie));
    RetireOk(w, ios, qd, landed, s);
    RetireLoaded(w, pool, data, ios, qd, s);
  }

  lemma PlanFits(ios: seq<BlockIO>, data: seq<Byte>, segs: seq<nat>, cursors: seq<nat>, block: nat)
    requires Plan(ios, data, segs, cursors, block)
    ensures InTensor(ios, data)
  {
    forall k: nat | k < |ios| ensures ios[k].memOff + ios[k].len <= |data| {
      PlannedBlock(ios, data, segs, cursors, block, k);
    }
  }

  /** Fill the pipe and take one completion. */
  method Turn(disk: StripeFiles, w: Window, pool: seq<seq<Byte>>, ios: seq<BlockIO>, data: seq<Byte>, qd: nat,
              ghost landed: set<nat>, ghost f0: seq<seq<Byte>>, ghost segs: seq<nat>, ghost cursors: seq<nat>,
                ghost block: nat)
    returns (w': Window, pool': seq<seq<Byte>>, blk: nat)
    requires disk.Valid() && Plan(ios, data, segs, cursors, block) && |landed| < |ios| && InTensor(ios, data)
    requires Writing(f0, disk.files[..], w, pool, data, ios, qd, landed, segs, cursors)
    modifies disk.files
    ensures blk !in landed
    ensures Writing(f0, disk.files[..], w', pool', data, ios, qd, landed + {blk}, segs, cursors)
  {
    w', pool' := FillPipe(w, pool, data, ios, qd, landed);
    w', blk := LandOne(disk, w', pool', ios, data, qd, landed, f0, segs, cursors, block);
  }

  lemma WritingStarts(f: seq<seq<Byte>>, data: seq<Byte>, ios: seq<BlockIO>, qd: nat, segs: seq<nat>, cursors: seq<nat>)
    requires Fits(qd, |ios|) && |f| == |segs| == |cursors|
    ensures Writing(f, f, Fresh(qd), seq(qd, _ => []), data, ios, qd, {}, segs, cursors)
  {
    FreshOk(ios, qd);
  }

  lemma WritingEnds(f0: seq<seq<Byte>>, f: seq<seq<Byte>>, w: Window, pool: seq<seq<Byte>>, data: seq<Byte>,
                    ios: seq<BlockIO>, qd: nat, landed: set<nat>, segs: seq<nat>, cursors: seq<nat>, block: nat)
    requires Plan(ios, data, segs, cursors, block) && |landed| == |ios|
    requires Writing(f0, f, w, pool, data, ios, qd, landed, segs, cursors)
    ensures Drained(f0, f, cursors, data, segs)
  {
    AllLanded(w, ios, qd, landed);
    AllDrained(f0, f, ios, data, segs, cursors, block);
  }

  /** The sliding window over all blocks. */
  method WriteWindow(disk: StripeFiles, data: seq<Byte>, ios: seq<BlockIO>, qd: nat, ghost segs: seq<nat>,
                     ghost cursors: seq<nat>, ghost block: nat)
    requires disk.Valid() && Plan(ios, data, segs, cursors, block) && Fits(qd, |ios|)
    requires disk.files.Length == |segs|
    modifies disk.files
    ensures Drained(old(disk.files[..]), disk.files[..], cursors, data, segs)
  {
    ghost var f0 := disk.files[..];
    var w := Fresh(qd);
    var pool: seq<seq<Byte>> := seq(qd, _ => []);
    ghost var landed: set<nat> := {};
    var done := 0;
    WritingStarts(f0, data, ios, qd, segs, cursors);
    PlanFits(ios, data, segs, cursors, block);
    while done < |ios|
      invariant done == |landed| <= |ios|
      invariant Writing(f0, disk.files[..], w, pool, data, ios, qd, landed, segs, cursors)
    {
      var blk;
      w, pool, blk := Turn(disk, w, pool, ios, data, qd, landed, f0, segs, cursors, block);
      landed, done := landed + {blk}, done + 1;
    }
    WritingEnds(f0, disk.files[..], w, pool, data, ios, qd, landed, segs, cursors, block);
  }

  /** The asynchronous engine: same chunk list, same cursors, same contents as the sequential one. */
  method WriteUring(disk: StripeFiles, data: seq<Byte>, block: nat, qd: nat) returns (chunks: seq<Chunk>)
    requires disk.Valid() && block > 0 && block % PAGE == 0
    requires var k := disk.files.Length;
      Fits(qd, |AllBlocks(Chunks(Segments(|data|, k), disk.cursors[..], k), 0, block)|)
    modifies disk.files, disk.cursors
    ensures var segs := Segments(|data|, disk.files.Length);
      && chunks == Chunks(segs, old(disk.cursors[..]), disk.files.Length)
      && disk.cursors[..] == Advanced(segs, old(disk.cursors[..]))
      && Drained(old(disk.files[..]), disk.files[..], old(disk.cursors[..]), data, segs)
  {
    var segsArray := StripeSegments(|data|, disk.files.Length);
    var segs := segsArray[..];
    SegmentsCover(|data|, disk.files.Length);
    chunks := ReserveAll(disk, segs);
    var ios := BuildBlocks(chunks, block);
    WriteWindow(disk, data, ios, qd, segs, old(disk.cursors[..]), block);
  }
}

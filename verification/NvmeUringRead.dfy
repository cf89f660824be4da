/**
 The asynchronous read: blocks arrive in any order, each is copied to its place,
 and a file too short for its chunk is noticed.
 */
module NvmeUringRead {
  import opened Bits
  import opened NvmeLayout
  import opened NvmeRegions
  import opened NvmeFetch
  import opened NvmeEngines
  import opened NvmeWindow
  import opened NvmeUring

  // -------------------------------------------------------------- the engine

  /** Landed blocks are in place. */
  ghost predicate LandedInMemory(files: seq<seq<Byte>>, dst: seq<Byte>, ios: seq<BlockIO>, landed: set<nat>) {
    forall b: nat | b in landed && b < |ios| :: Fetched(files, dst, ios[b])
  }

  /** Copying block `k` to its place leaves the others in theirs. */
  lemma CopyKeeps(files: seq<seq<Byte>>, dst: seq<Byte>, dst': seq<Byte>, ios: seq<BlockIO>, landed: set<nat>, k: nat)
    requires LandedInMemory(files, dst, ios, landed) && InOrder(ios, 0, |dst|) && k < |ios| && k !in landed
      && |dst'| == |dst|
    requires Fetched(files, dst', ios[k])
    requires forall i | 0 <= i < |dst| && !(ios[k].memOff <= i < ios[k].memOff + ios[k].len) :: dst'[i] == dst[i]
    ensures LandedInMemory(files, dst', ios, landed + {k})
  {
    forall b: nat | b in landed + {k} && b < |ios| ensures Fetched(files, dst', ios[b]) {
      if b != k {
        assert Fetched(files, dst, ios[b]);
        var x := ios[b];
        assert dst'[x.memOff..x.memOff + x.len] == dst[x.memOff..x.memOff + x.len];
      }
    }
  }

  /** Hand reads to the kernel until the pipe is full. */
  method FillReads(w0: Window, ios: seq<BlockIO>, qd: nat, ghost landed: set<nat>) returns (w: Window)
    requires WindowOk(w0, ios, qd, landed) && |landed| < |ios|
    ensures WindowOk(w, ios, qd, landed) && w.flying != {} && Settled(w, ios, qd)
  {
    w := w0;
    while w.next < |ios| && w.free != []
      invariant WindowOk(w, ios, qd, landed)
      decreases |ios| - w.next
    {
      SubmitOk(w, ios, qd, landed);
      w := Submit(w, ios[w.next]);
    }
    PipeNotEmpty(w, ios, qd, landed);
  }

  /** A read of the padded length is long enough exactly when the block is in the file. */
  lemma ReadIsLong(f: seq<Byte>, b: BlockIO)
    requires b.len > 0
    ensures var r := ReadAt(f, b.fileOff, RoundUp(b.len));
      && (|r| >= b.len <==> b.fileOff + b.len <= |f|)
      && (|r| >= b.len ==> r[..b.len] == f[b.fileOff..b.fileOff + b.len])
  {
  }

  /** Copy a block out of its bounce buffer. */
  method CopyOut(buf: seq<Byte>, dst: array<Byte>, off: nat, len: nat)
    requires len <= |buf| && off + len <= dst.Length
    modifies dst
    ensures dst[off..off + len] == buf[..len]
    ensures forall i | 0 <= i < dst.Length && !(off <= i < off + len) :: dst[i] == old(dst[i])
  {
    var old0 := dst[..];
    for i := 0 to len
      invariant dst[off..off + i] == buf[..i]
      invariant forall k | 0 <= k < dst.Length && !(off <= k < off + i) :: dst[k] == old0[k]
    {
      dst[off + i] := buf[i];
      assert dst[off..off + i + 1] == dst[off..off + i] + [buf[i]];
    }
  }

  /** The kernel fills the request's buffer from its file and reports its cookie. */
  method Fetch(disk: StripeFiles, w: Window, pool: seq<seq<Byte>>, s: Sqe, ghost ios: seq<BlockIO>, qd: nat)
    returns (pool': seq<seq<Byte>>, cookie: nat)
    requires disk.Valid() && Flies(w, ios, qd, s) && |pool| == qd && s.stripe < disk.files.Length
    ensures |pool'| == qd && s.blk < |ios| && s.stripe == ios[s.blk].stripe
    ensures pool'[s.buf] == ReadAt(disk.files[s.stripe], ios[s.blk].fileOff, RoundUp(ios[s.blk].len))
    ensures cookie == Cookie(s.blk, s.buf)
  {
    var v := w.iov[s.slot];
    pool' := pool[v.buf := ReadAt(disk.files[s.stripe], s.off, v.len)];
    cookie := Cookie(s.blk, s.buf);
  }

  /** Copy a block to its place, unless the read was short. */
  method Deliver(ghost files: seq<seq<Byte>>, buf: seq<Byte>, ios: seq<BlockIO>, k: nat, dst: array<Byte>,
                 ghost landed: set<nat>)
    returns (ok: bool)
    requires InOrder(ios, 0, dst.Length) && LandedInMemory(files, dst[..], ios, landed) && k < |ios| && k !in landed
    requires ios[k].stripe < |files| && buf == ReadAt(files[ios[k].stripe], ios[k].fileOff, RoundUp(ios[k].len))
    modifies dst
    ensures ok <==> Readable(files, ios[k])
    ensures ok ==> LandedInMemory(files, dst[..], ios, landed + {k})
  {
    ghost var before := dst[..];
    var b := ios[k];
    assert Between(b, 0, dst.Length);
    ReadIsLong(files[b.stripe], b);
    ok := |buf| >= b.len;
    if ok {
      CopyOut(buf, dst, b.memOff, b.len);
      assert Fetched(files, dst[..], b);
      CopyKeeps(files, before, dst[..], ios, landed, k);
    }
  }

  /** One completion: the bytes are in the request's buffer; a short read is an error. */
  method LandRead(disk: StripeFiles, w: Window, pool: seq<seq<Byte>>, ios: seq<BlockIO>, dst: array<Byte>, qd: nat,
                  ghost landed: set<nat>)
    returns (w': Window, pool': seq<seq<Byte>>, blk: nat, ok: bool)
    requires disk.Valid() && WindowOk(w, ios, qd, landed) && w.flying != {} && Settled(w, ios, qd) && |pool| == qd
    requires InOrder(ios, 0, dst.Length) && LandedInMemory(disk.files[..], dst[..], ios, landed)
    requires StripesBelow(ios, disk.files.Length)
    modifies dst
    ensures |pool'| == qd && blk < |ios| && blk !in landed && WindowOk(w', ios, qd, landed + {blk})
    ensures ok <==> Readable(disk.files[..], ios[blk])
    ensures ok ==> LandedInMemory(disk.files[..], dst[..], ios, landed + {blk})
  {
    var s :| s in w.flying;
    assert Flies(w, ios, qd, s);
    RetireOk(w, ios, qd, landed, s);
    CookieExactIff(s.blk, s.buf);
    var cookie;
    pool', cookie := Fetch(disk, w, pool, s, ios, qd);
    blk := BlkOf(cookie);
    ok := Deliver(disk.files[..], pool'[BufOf(cookie)], ios, blk, dst, landed);
    w' := Retire(w, s, BufOf(cookie));
  }

  /** The sliding window over all blocks; stops at the first short read. */
  method ReadWindow(disk: StripeFiles, ios: seq<BlockIO>, dst: array<Byte>, qd: nat) returns (ok: bool)
    requires disk.Valid() && Fits(qd, |ios|) && InOrder(ios, 0, dst.Length)
    requires StripesBelow(ios, disk.files.Length)
    modifies dst
    ensures ok ==> AllFetched(disk.files[..], dst[..], ios)
    ensures !ok ==> !AllReadable(disk.files[..], ios)
  {
    var w := Fresh(qd);
    var pool: seq<seq<Byte>> := seq(qd, _ => []);
    ghost var landed: set<nat> := {};
    var done := 0;
    ok := true;
    FreshOk(ios, qd);
    while done < |ios| && ok
      invariant done == |landed| <= |ios| && |pool| == qd && WindowOk(w, ios, qd, landed)
      invariant ok ==> LandedInMemory(disk.files[..], dst[..], ios, landed)
      invariant !ok ==> !AllReadable(disk.files[..], ios)
      decreases |ios| - done
    {
      w := FillReads(w, ios, qd, landed);
      var blk;
      w, pool, blk, ok := LandRead(disk, w, pool, ios, dst, qd, landed);
      landed, done := landed + {blk}, done + 1;
    }
    if ok {
      AllLanded(w, ios, qd, landed);
    }
  }

  /** The asynchronous read: succeeds exactly when every chunk is in its file, and then delivers them in order. */
  method ReadUring(disk: StripeFiles, chunks: seq<Chunk>, dst: array<Byte>, block: nat, qd: nat) returns (ok: bool)
    requires disk.Valid() && block > 0 && TotalLength(chunks) <= dst.Length
    requires Fits(qd, |AllBlocks(chunks, 0, block)|) && forall c | c in chunks :: c.stripe < disk.files.Length
    modifies dst
    ensures ok <==> AllThere(disk.files[..], chunks)
    ensures ok ==> dst[..TotalLength(chunks)] == ReadChunks(disk.files[..], chunks)
  {
    var ios := BuildBlocks(chunks, block);
    ListInOrder(chunks, 0, block);
    Widen(ios, TotalLength(chunks), dst.Length);
    StripesKnown(chunks, 0, block, disk.files.Length);
    ok := ReadWindow(disk, ios, dst, qd);
    if ok {
      AllArrived(disk.files[..], chunks, 0, block, dst[..]);
    } else if AllThere(disk.files[..], chunks) {
      ListReadable(disk.files[..], chunks, 0, block);
    }
  }

  ghost predicate StripesBelow(bs: seq<BlockIO>, n: nat) { forall k: nat | k < |bs| :: bs[k].stripe < n }

  lemma {:induction false} StripeKnown(c: Chunk, mem: nat, block: nat, off: nat, n: nat)
    requires block > 0 && c.stripe < n
    ensures StripesBelow(BlocksFrom(c, mem, block, off), n)
    decreases c.length - off
  {
    if off < c.length {
      StripeKnown(c, mem, block, off + Min(block, c.length - off), n);
    }
  }

  lemma {:induction false} StripesKnown(cs: seq<Chunk>, mem: nat, block: nat, n: nat)
    requires block > 0 && forall c | c in cs :: c.stripe < n
    ensures StripesBelow(AllBlocks(cs, mem, block), n)
    decreases |cs|
  {
    if cs != [] {
      assert cs[0] in cs;
      StripeKnown(cs[0], mem, block, 0, n);
      StripesKnown(cs[1..], mem + cs[0].length, block, n);
    }
  }

  lemma {:induction false} ChunkStripes(segs: seq<nat>, cursors: seq<nat>, n: nat)
    requires n <= |segs| == |cursors|
    ensures forall c | c in Chunks(segs, cursors, n) :: c.stripe < |segs|
  {
    if n > 0 {
      ChunkStripes(segs, cursors, n - 1);
    }
  }

  /** Either write, then either read: the tensor comes back. */
  method StoreAndLoad(disk: StripeFiles, data: seq<Byte>, block: nat, qd: nat, dst: array<Byte>, uringWrite: bool,
                      uringRead: bool)
    returns (ok: bool)
    requires disk.Valid() && block > 0 && block % PAGE == 0 && |data| <= dst.Length
    requires var k := disk.files.Length;
      Fits(qd, |AllBlocks(Chunks(Segments(|data|, k), disk.cursors[..], k), 0, block)|)
    modifies disk.files, disk.cursors, dst
    ensures ok && dst[..|data|] == data
  {
    ghost var segs, c0 := Segments(|data|, disk.files.Length), disk.cursors[..];
    ghost var f0 := disk.files[..];
    var chunks;
    if uringWrite {
      chunks := WriteUring(disk, data, block, qd);
    } else {
      chunks := disk.WritePwrite(data, block);
    }
    SegmentsCover(|data|, disk.files.Length);
    DrainedReads(f0, disk.files[..], c0, data, segs);
    ChunkStripes(segs, c0, |segs|);
    if uringRead {
      ok := ReadUring(disk, chunks, dst, block, qd);
    } else {
      ghost var first;
      ok, first := disk.ReadPread(chunks, dst, block);
    }
  }
}

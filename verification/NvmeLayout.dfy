/**
 Where a drained tensor goes on the striped cold store: one segment per stripe
 file, each in a region padded to 4096 bytes, each written in blocks.
 */
module NvmeLayout {
  import opened Bits

  const PAGE: nat := 4096

  /** `n` rounded up to whole pages. */
  function RoundUp(n: nat): (r: nat)
    ensures n <= r < n + PAGE
  {
    if n == 0 then 0 else if n <= PAGE then PAGE else PAGE + RoundUp(n - PAGE)
  }

  /** As the daemon computes it. */
  lemma {:induction false} RoundUpIs(n: nat)
    ensures RoundUp(n) == (n + PAGE - 1) / PAGE * PAGE && RoundUp(n) % PAGE == 0
  {
    if n > PAGE {
      RoundUpIs(n - PAGE);
    }
  }

  lemma RoundUpMultiple(n: nat)
    requires n % PAGE == 0
    ensures RoundUp(n) == n
  {
    RoundUpIs(n);
  }

  /** A whole-page prefix can be split off before rounding. */
  lemma RoundUpSplit(a: nat, b: nat)
    requires a % PAGE == 0
    ensures RoundUp(a + b) == a + RoundUp(b)
  {
    RoundUpIs(a + b);
    RoundUpIs(b);
  }

  // -------------------------------------------------------------------- files

  function Max(a: nat, b: nat): nat { if a < b then b else a }

  function Min(a: nat, b: nat): nat { if a < b then a else b }

  /** Contents of a file, read past its end as zeros. */
  function ByteAt(f: seq<Byte>, i: nat): Byte { if i < |f| then f[i] else 0 }

  /** A positioned write; a gap before it reads as zeros. */
  function WriteAt(f: seq<Byte>, off: nat, data: seq<Byte>): (r: seq<Byte>)
    ensures |r| == Max(|f|, off + |data|)
    ensures forall i: nat :: ByteAt(r, i) == if off <= i < off + |data| then data[i - off] else ByteAt(f, i)
  {
    seq(Max(|f|, off + |data|), i requires 0 <= i =>
      if off <= i < off + |data| then data[i - off] else ByteAt(f, i))
  }

  /** A positioned read; short at the end of the file. */
  function ReadAt(f: seq<Byte>, off: nat, n: nat): (r: seq<Byte>)
    ensures |r| <= n
  {
    if off < |f| then f[off..Min(off + n, |f|)] else []
  }

  /** `data` followed by zeros up to whole pages. */
  function Padded(data: seq<Byte>): (r: seq<Byte>)
    ensures |r| == RoundUp(|data|) && r[..|data|] == data
  {
    data + seq(RoundUp(|data|) - |data|, _ => 0)
  }

  /** File `f'` is `f` with `bytes` at `off`: contents and length. */
  ghost predicate Stored(f: seq<Byte>, f': seq<Byte>, off: nat, bytes: seq<Byte>) {
    && |f'| == (if bytes == [] then |f| else Max(|f|, off + |bytes|))
    && forall i: nat :: ByteAt(f', i) == if off <= i < off + |bytes| then bytes[i - off] else ByteAt(f, i)
  }

  /** What was stored is read back. */
  lemma StoredIsRead(f: seq<Byte>, f': seq<Byte>, off: nat, bytes: seq<Byte>)
    requires Stored(f, f', off, bytes) && bytes != []
    ensures off + |bytes| <= |f'| && f'[off..off + |bytes|] == bytes
  {
    forall i | 0 <= i < |bytes| ensures f'[off..off + |bytes|][i] == bytes[i] {
      assert ByteAt(f', off + i) == bytes[i];
    }
  }

  /** Two consecutive stores are one. */
  lemma StoredAppend(f: seq<Byte>, f1: seq<Byte>, f2: seq<Byte>, off: nat, a: seq<Byte>, b: seq<Byte>)
    requires Stored(f, f1, off, a) && Stored(f1, f2, off + |a|, b)
    ensures Stored(f, f2, off, a + b)
  {
  }

  // ----------------------------------------------------------------- segments

  /** Segment sizes of a tensor: equal shares, the last stripe takes what is left. */
  function Segments(nbytes: nat, stripes: nat): (segs: seq<nat>)
    requires stripes > 0
    ensures |segs| == stripes
  {
    seq(stripes, i requires 0 <= i < stripes =>
      if i == stripes - 1 then nbytes - (stripes - 1) * (nbytes / stripes) else nbytes / stripes)
  }

  function Sum(s: seq<nat>): nat {
    if s == [] then 0 else Sum(s[..|s| - 1]) + s[|s| - 1]
  }

  lemma {:induction false} SumOfEqual(s: seq<nat>, v: nat)
    requires forall i | 0 <= i < |s| :: s[i] == v
    ensures Sum(s) == |s| * v
    decreases |s|
  {
    if s != [] {
      SumOfEqual(s[..|s| - 1], v);
      assert (|s| - 1) * v + v == |s| * v;
    }
  }

  /** The segments share out the tensor exactly. */
  lemma SegmentsCover(nbytes: nat, stripes: nat)
    requires stripes > 0
    ensures Sum(Segments(nbytes, stripes)) == nbytes
  {
    var s := Segments(nbytes, stripes);
    SumOfEqual(s[..stripes - 1], nbytes / stripes);
  }

  /** The loop of the daemon. */
  method StripeSegments(nbytes: nat, stripes: nat) returns (segs: array<nat>)
    requires stripes > 0
    ensures fresh(segs) && segs[..] == Segments(nbytes, stripes)
  {
    segs := new nat[stripes](_ => 0);
    var per := nbytes / stripes;
    assert per * stripes <= nbytes;
    var consumed := 0;
    for i := 0 to stripes
      invariant consumed == if i < stripes then i * per else nbytes
      invariant forall k | 0 <= k < i :: segs[k] == Segments(nbytes, stripes)[k]
    {
      assert i * per <= (stripes - 1) * per by { MulMono(i, stripes - 1, per); }
      assert (stripes - 1) * per + per == stripes * per;
      segs[i] := if i == stripes - 1 then nbytes - consumed else per;
      consumed := consumed + segs[i];
    }
  }

  lemma MulMono(a: nat, b: nat, m: nat)
    requires a <= b
    ensures a * m <= b * m
  {
  }

  // ------------------------------------------------------------ chunks, blocks

  datatype Chunk = Chunk(stripe: nat, offset: nat, length: nat)

  datatype BlockIO = BlockIO(stripe: nat, fileOff: nat, memOff: nat, len: nat)

  /** An empty segment is left out, except on the first stripe. */
  predicate Used(segs: seq<nat>, i: nat)
    requires i < |segs|
  {
    segs[i] != 0 || i == 0
  }

  /** Chunk list of the first `n` stripes, given where each file's free space begins. */
  function Chunks(segs: seq<nat>, cursors: seq<nat>, n: nat): seq<Chunk>
    requires n <= |segs| == |cursors|
  {
    if n == 0 then []
    else Chunks(segs, cursors, n - 1) + if Used(segs, n - 1) then [Chunk(n - 1, cursors[n - 1], segs[n - 1])] else []
  }

  /** Free space after the regions of `segs` have been taken. */
  function Advanced(segs: seq<nat>, cursors: seq<nat>): seq<nat>
    requires |segs| == |cursors|
  {
    seq(|segs|, i requires 0 <= i < |segs| => cursors[i] + RoundUp(segs[i]))
  }

  /** Blocks of one chunk from offset `off` of it on; `mem` is where its bytes are in memory. */
  function BlocksFrom(c: Chunk, mem: nat, block: nat, off: nat): seq<BlockIO>
    requires block > 0
    decreases c.length - off
  {
    if off >= c.length then []
    else
      var len := Min(block, c.length - off);
      [BlockIO(c.stripe, c.offset + off, mem + off, len)] + BlocksFrom(c, mem, block, off + len)
  }

  /** All blocks of a chunk list whose bytes start at `mem`. */
  function AllBlocks(cs: seq<Chunk>, mem: nat, block: nat): seq<BlockIO>
    requires block > 0
  {
    if cs == [] then [] else BlocksFrom(cs[0], mem, block, 0) + AllBlocks(cs[1..], mem + cs[0].length, block)
  }

  function TotalLength(cs: seq<Chunk>): nat {
    if cs == [] then 0 else cs[0].length + TotalLength(cs[1..])
  }
}

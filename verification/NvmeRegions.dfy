/**
 Any number of drains at work on the same stripe files: each takes its regions
 by advancing the files' append cursors, then writes its blocks in any order
 and in parts, as either engine does. What a finished drain recorded is read
 back unchanged for ever.
 */
module NvmeRegions {
  import opened Bits
  import opened NvmeLayout
  import opened NvmeBlocks

  /** One drain: the tensor, the regions taken so far, and how much of each padded block is on disk. */
  datatype Op = Op(data: seq<Byte>, segs: seq<nat>, next: nat, chunks: seq<Chunk>,
                   blocks: seq<BlockIO>, progress: seq<nat>, finished: bool)

  datatype Disk = Disk(block: nat, files: seq<seq<Byte>>, cursors: seq<nat>, ops: map<nat, Op>)

  datatype Step =
    | Start(id: nat, data: seq<Byte>)
    | Reserve(id: nat)
    | WritePart(id: nat, k: nat, n: nat)
    | Finish(id: nat)
    | Forget(id: nat)

  predicate CanWrite(d: Disk, id: nat, k: nat, n: nat) {
    && id in d.ops && !d.ops[id].finished && k < |d.ops[id].blocks| == |d.ops[id].progress|
    && var b := d.ops[id].blocks[k];
    && b.stripe < |d.files| && b.memOff + b.len <= |d.ops[id].data|
    && d.ops[id].progress[k] + n <= RoundUp(b.len)
  }

  /** Everything is on disk. */
  predicate Complete(op: Op) {
    && op.next == |op.segs| && |op.progress| == |op.blocks|
    && forall k | 0 <= k < |op.blocks| :: op.progress[k] == RoundUp(op.blocks[k].len)
  }

  /** The files after a part of block `b` is written. */
  function WrittenFiles(files: seq<seq<Byte>>, data: seq<Byte>, b: BlockIO, p: nat, n: nat): seq<seq<Byte>>
    requires b.stripe < |files| && b.memOff + b.len <= |data| && p + n <= RoundUp(b.len)
  {
    files[b.stripe := WriteAt(files[b.stripe], b.fileOff + p, BlockData(data, b)[p..p + n])]
  }

  function Zeros(n: nat): seq<nat> { seq(n, _ => 0) }

  function Reserved(d: Disk, op: Op): Op
    requires d.block > 0 && op.next < |op.segs| && op.next < |d.cursors|
  {
    if !Used(op.segs, op.next) then op.(next := op.next + 1)
    else
      var c := Chunk(op.next, d.cursors[op.next], op.segs[op.next]);
      var bs := BlocksFrom(c, TotalLength(op.chunks), d.block, 0);
      op.(next := op.next + 1, chunks := op.chunks + [c], blocks := op.blocks + bs,
        progress := op.progress + Zeros(|bs|))
  }

  function Next(d: Disk, a: Step): Disk {
    match a
    case Start(id, data) =>
      if id in d.ops || d.files == [] then d
      else d.(ops := d.ops[id := Op(data, Segments(|data|, |d.files|), 0, [], [], [], false)])
    case Reserve(id) =>
      if id !in d.ops || d.block == 0 || d.ops[id].finished
         || d.ops[id].next >= |d.ops[id].segs| || d.ops[id].next >= |d.cursors| then d
      else
        var op := d.ops[id];
        d.(ops := d.ops[id := Reserved(d, op)],
           cursors := d.cursors[op.next := d.cursors[op.next] + RoundUp(op.segs[op.next])])
    case WritePart(id, k, n) =>
      if !CanWrite(d, id, k, n) then d
      else
        var op := d.ops[id];
        d.(files := WrittenFiles(d.files, op.data, op.blocks[k], op.progress[k], n),
           ops := d.ops[id := op.(progress := op.progress[k := op.progress[k] + n])])
    case Finish(id) =>
      if id in d.ops && Complete(d.ops[id]) then d.(ops := d.ops[id := d.ops[id].(finished := true)]) else d
    case Forget(id) => d.(ops := d.ops - {id})
  }

  // -------------------------------------------------------------- invariant

  /** Regions that do not overlap; an empty one overlaps nothing. */
  ghost predicate RegionsApart(a: Chunk, b: Chunk) {
    a.stripe != b.stripe || a.offset + RoundUp(a.length) <= b.offset || b.offset + RoundUp(b.length) <= a.offset
  }

  ghost predicate Shape(d: Disk) {
    |d.cursors| == |d.files| > 0 && d.block > 0 && d.block % PAGE == 0
  }

  ghost predicate LayoutOk(d: Disk, op: Op)
    requires Shape(d)
  {
    && op.segs == Segments(|op.data|, |d.files|) && op.next <= |op.segs|
    && TotalLength(op.chunks) == Sum(op.segs[..op.next])
    && op.blocks == AllBlocks(op.chunks, 0, d.block) && |op.progress| == |op.blocks|
    && (forall i | 0 <= i < |op.chunks| ::
          && op.chunks[i].stripe < op.next && op.chunks[i].length == op.segs[op.chunks[i].stripe]
          && op.chunks[i].offset + RoundUp(op.chunks[i].length) <= d.cursors[op.chunks[i].stripe])
    && (forall i, j | 0 <= i < j < |op.chunks| :: op.chunks[i].stripe < op.chunks[j].stripe)
  }

  /** What the progress of block `b` says is on disk, is. */
  ghost predicate OnDisk(files: seq<seq<Byte>>, data: seq<Byte>, b: BlockIO, p: nat) {
    && b.memOff + b.len <= |data| && b.stripe < |files| && p <= RoundUp(b.len)
    && (p > 0 ==> b.fileOff + p <= |files[b.stripe]|)
    && (forall i: nat | b.fileOff <= i < b.fileOff + p ::
          ByteAt(files[b.stripe], i) == BlockData(data, b)[i - b.fileOff])
  }

  ghost predicate OpOk(d: Disk, op: Op)
    requires Shape(d)
  {
    && LayoutOk(d, op)
    && (forall k | 0 <= k < |op.blocks| :: OnDisk(d.files, op.data, op.blocks[k], op.progress[k]))
    && (op.finished ==> Complete(op))
  }

  ghost predicate OpsApart(a: Op, b: Op) {
    forall i, j | 0 <= i < |a.chunks| && 0 <= j < |b.chunks| :: RegionsApart(a.chunks[i], b.chunks[j])
  }

  ghost predicate DiskInv(d: Disk) {
    && Shape(d)
    && (forall id | id in d.ops :: OpOk(d, d.ops[id]))
    && (forall x, y | x in d.ops && y in d.ops && x != y :: OpsApart(d.ops[x], d.ops[y]))
  }

  // ------------------------------------------------ blocks and their chunks

  /** Which chunk a block of the list belongs to. */
  lemma {:induction false} HomeOf(cs: seq<Chunk>, mem: nat, block: nat, k: nat) returns (j: nat)
    requires block > 0 && block % PAGE == 0 && k < |AllBlocks(cs, mem, block)|
    ensures j < |cs| && InRegion(AllBlocks(cs, mem, block)[k], cs[j], mem + MemOf(cs, j))
    ensures mem + MemOf(cs, j) + cs[j].length <= mem + TotalLength(cs)
    decreases |cs|
  {
    var first := BlocksFrom(cs[0], mem, block, 0);
    if k < |first| {
      BlocksInRegion(cs[0], mem, block, 0);
      j := 0;
      assert cs[..0] == [];
    } else {
      var r := HomeOf(cs[1..], mem + cs[0].length, block, k - |first|);
      j := r + 1;
      assert cs[..j][1..] == cs[1..][..r];
    }
  }

  /** Where the blocks of a chunk are in the list. */
  lemma {:induction false} PlaceOf(cs: seq<Chunk>, mem: nat, block: nat, j: nat, r: nat) returns (k: nat)
    requires block > 0 && j < |cs| && r < |BlocksFrom(cs[j], mem + MemOf(cs, j), block, 0)|
    ensures k < |AllBlocks(cs, mem, block)|
    ensures AllBlocks(cs, mem, block)[k] == BlocksFrom(cs[j], mem + MemOf(cs, j), block, 0)[r]
    decreases |cs|
  {
    if j == 0 {
      assert cs[..0] == [];
      k := r;
    } else {
      assert cs[..j][1..] == cs[1..][..j - 1];
      var i := PlaceOf(cs[1..], mem + cs[0].length, block, j - 1, r);
      k := |BlocksFrom(cs[0], mem, block, 0)| + i;
    }
  }

  /** Blocks of a list whose chunks are on different stripes are apart. */
  lemma {:induction false} ListApart(cs: seq<Chunk>, mem: nat, block: nat)
    requires block > 0 && block % PAGE == 0
    requires forall i, j | 0 <= i < j < |cs| :: cs[i].stripe < cs[j].stripe
    ensures AllApart(AllBlocks(cs, mem, block))
    decreases |cs|
  {
    if cs != [] {
      var first, rest := BlocksFrom(cs[0], mem, block, 0), AllBlocks(cs[1..], mem + cs[0].length, block);
      BlocksInRegion(cs[0], mem, block, 0);
      ListApart(cs[1..], mem + cs[0].length, block);
      forall a, b | 0 <= a < |first| && 0 <= b < |rest| ensures Apart(first[a], rest[b]) {
        var j := HomeOf(cs[1..], mem + cs[0].length, block, b);
        assert cs[1..][j] == cs[j + 1];
      }
      ConcatApart(first, rest);
    }
  }

  lemma ConcatApart(a: seq<BlockIO>, b: seq<BlockIO>)
    requires AllApart(a) && AllApart(b) && forall i, j | 0 <= i < |a| && 0 <= j < |b| :: Apart(a[i], b[j])
    ensures AllApart(a + b)
  {
  }

  // ------------------------------------------------------------- single steps

  lemma {:induction false} SumPrefix(s: seq<nat>, n: nat)
    requires n <= |s|
    ensures Sum(s[..n]) <= Sum(s)
    decreases |s|
  {
    if n < |s| {
      SumPrefix(s[..|s| - 1], n);
      assert s[..|s| - 1][..n] == s[..n];
    } else {
      assert s[..n] == s;
    }
  }

  lemma SumNext(s: seq<nat>, n: nat)
    requires n < |s|
    ensures Sum(s[..n + 1]) == Sum(s[..n]) + s[n]
  {
    assert s[..n + 1][..n] == s[..n];
  }

  /** The regions taken so far are for a prefix of the tensor. */
  lemma PrefixFits(d: Disk, op: Op, n: nat)
    requires Shape(d) && LayoutOk(d, op) && op.next <= n <= |op.segs|
    ensures Sum(op.segs[..n]) <= |op.data|
  {
    SegmentsCover(|op.data|, |d.files|);
    SumPrefix(op.segs, n);
  }

  lemma CursorsGrow(d: Disk, d': Disk, op: Op)
    requires Shape(d) && OpOk(d, op)
    requires d'.files == d.files && d'.block == d.block && |d'.cursors| == |d.cursors|
    requires forall i | 0 <= i < |d.cursors| :: d.cursors[i] <= d'.cursors[i]
    ensures OpOk(d', op)
  {
  }

  lemma TotalOfOne(cs: seq<Chunk>, c: Chunk)
    ensures TotalLength(cs + [c]) == TotalLength(cs) + c.length
  {
    TotalLengthAppend(cs, [c]);
    assert TotalLength([c]) == c.length by { assert [c][1..] == []; }
  }

  /** A new region at the cursor of the next stripe fits the layout. */
  lemma AppendChunk(d: Disk, op: Op, c: Chunk, op': Op, d': Disk)
    requires Shape(d) && LayoutOk(d, op) && op.next < |op.segs|
      && c == Chunk(op.next, d.cursors[op.next], op.segs[op.next])
    requires op' == op.(next := op.next + 1, chunks := op.chunks + [c], blocks := op'.blocks, progress := op'.progress)
    requires op'.blocks == AllBlocks(op'.chunks, 0, d.block) && |op'.progress| == |op'.blocks|
    requires d' == d.(cursors := d.cursors[op.next := d.cursors[op.next] + RoundUp(op.segs[op.next])])
    ensures LayoutOk(d', op')
  {
    SumNext(op.segs, op.next);
    TotalOfOne(op.chunks, c);
  }

  lemma ReservedLayout(d: Disk, op: Op)
    requires Shape(d) && LayoutOk(d, op) && op.next < |op.segs|
    ensures var s := op.next;
      LayoutOk(d.(cursors := d.cursors[s := d.cursors[s] + RoundUp(op.segs[s])]), Reserved(d, op))
  {
    var s := op.next;
    var d' := d.(cursors := d.cursors[s := d.cursors[s] + RoundUp(op.segs[s])]);
    if Used(op.segs, s) {
      var c := Chunk(s, d.cursors[s], op.segs[s]);
      AllBlocksAppend(op.chunks, c, 0, d.block);
      AppendChunk(d, op, c, Reserved(d, op), d');
    } else {
      SumNext(op.segs, s);
    }
  }

  lemma ReservedOnDisk(d: Disk, op: Op, k: nat)
    requires Shape(d) && OpOk(d, op) && !op.finished && op.next < |op.segs| && k < |Reserved(d, op).blocks|
    requires |Reserved(d, op).progress| == |Reserved(d, op).blocks|
    ensures OnDisk(d.files, op.data, Reserved(d, op).blocks[k], Reserved(d, op).progress[k])
  {
    var s := op.next;
    if Used(op.segs, s) && k >= |op.blocks| {
      var c := Chunk(s, d.cursors[s], op.segs[s]);
      SumNext(op.segs, s);
      PrefixFits(d, op, s + 1);
      BlocksInRegion(c, TotalLength(op.chunks), d.block, 0);
    }
  }

  lemma ReservedApart(d: Disk, op: Op, other: Op)
    requires Shape(d) && OpOk(d, op) && OpOk(d, other) && OpsApart(op, other) && op.next < |op.segs|
    ensures OpsApart(Reserved(d, op), other) && OpsApart(other, Reserved(d, op))
  {
  }

  function AfterReserve(d: Disk, op: Op): Disk
    requires Shape(d) && op.next < |op.segs| && op.next < |d.cursors|
  {
    d.(cursors := d.cursors[op.next := d.cursors[op.next] + RoundUp(op.segs[op.next])])
  }

  lemma ReservedOk(d: Disk, op: Op)
    requires Shape(d) && OpOk(d, op) && !op.finished && op.next < |op.segs|
    ensures OpOk(AfterReserve(d, op), Reserved(d, op))
  {
    ReservedLayout(d, op);
    var op' := Reserved(d, op);
    forall k | 0 <= k < |op'.blocks| ensures OnDisk(d.files, op.data, op'.blocks[k], op'.progress[k]) {
      ReservedOnDisk(d, op, k);
    }
  }

  lemma ReservedApartAll(d: Disk, id: nat, op': Op)
    requires DiskInv(d) && id in d.ops && d.ops[id].next < |d.ops[id].segs| && op' == Reserved(d, d.ops[id])
    ensures var ops' := d.ops[id := op']; forall x, y | x in ops' && y in ops' && x != y :: OpsApart(ops'[x], ops'[y])
  {
    var ops' := d.ops[id := op'];
    forall x, y | x in ops' && y in ops' && x != y ensures OpsApart(ops'[x], ops'[y]) {
      if x == id {
        ReservedApart(d, d.ops[id], d.ops[y]);
      } else if y == id {
        assert OpsApart(d.ops[y], d.ops[x]);
        ReservedApart(d, d.ops[id], d.ops[x]);
      }
    }
  }

  lemma StepReserve(d: Disk, id: nat)
    requires DiskInv(d)
    ensures DiskInv(Next(d, Reserve(id)))
  {
    if id in d.ops && !d.ops[id].finished && d.ops[id].next < |d.ops[id].segs| {
      var op, d' := d.ops[id], Next(d, Reserve(id));
      assert OpOk(d, op);
      ReservedOk(d, op);
      ReservedApartAll(d, id, Reserved(d, op));
      forall x | x in d'.ops ensures OpOk(d', d'.ops[x]) {
        if x == id {
          CursorsGrow(AfterReserve(d, op), d', d'.ops[x]);
        } else {
          CursorsGrow(d, d', d.ops[x]);
        }
      }
    }
  }

  // ------------------------------------------------------------------- writes

  /** A write outside a block's range leaves what the block has on disk. */
  lemma WriteElsewhere(files: seq<seq<Byte>>, data: seq<Byte>, b: BlockIO, p: nat, s: nat, off: nat, bytes: seq<Byte>)
    requires OnDisk(files, data, b, p) && s < |files|
    requires b.stripe != s || off + |bytes| <= b.fileOff || b.fileOff + p <= off
    ensures OnDisk(files[s := WriteAt(files[s], off, bytes)], data, b, p)
  {
  }

  /** A write that goes on where the block's progress ends advances it. */
  lemma WriteHere(files: seq<seq<Byte>>, data: seq<Byte>, b: BlockIO, p: nat, n: nat)
    requires OnDisk(files, data, b, p) && p + n <= RoundUp(b.len)
    ensures OnDisk(WrittenFiles(files, data, b, p, n), data, b, p + n)
  {
    var f := files[b.stripe];
    var f' := WriteAt(f, b.fileOff + p, BlockData(data, b)[p..p + n]);
    forall i: nat | b.fileOff <= i < b.fileOff + p + n ensures ByteAt(f', i) == BlockData(data, b)[i - b.fileOff] {
      assert i < b.fileOff + p ==> ByteAt(f, i) == BlockData(data, b)[i - b.fileOff];
    }
  }

  /** Blocks of different drains are apart. */
  lemma OtherOpApart(d: Disk, a: Op, k: nat, b: Op, m: nat)
    requires Shape(d) && OpOk(d, a) && OpOk(d, b) && OpsApart(a, b) && k < |a.blocks| && m < |b.blocks|
    ensures Apart(a.blocks[k], b.blocks[m])
  {
    var i := HomeOf(a.chunks, 0, d.block, k);
    var j := HomeOf(b.chunks, 0, d.block, m);
    assert RegionsApart(a.chunks[i], b.chunks[j]);
  }

  lemma SameOpApart(d: Disk, a: Op, k: nat, m: nat)
    requires Shape(d) && OpOk(d, a) && k < |a.blocks| && m < |a.blocks| && k != m
    ensures Apart(a.blocks[k], a.blocks[m])
  {
    ListApart(a.chunks, 0, d.block);
  }

  /** Contents of a block after a part of another block, apart from it, is written. */
  lemma WriteApart(files: seq<seq<Byte>>, data: seq<Byte>, b: BlockIO, p: nat, n: nat, data2: seq<Byte>, b2: BlockIO,
                   p2: nat)
    requires OnDisk(files, data, b, p) && p + n <= RoundUp(b.len) && OnDisk(files, data2, b2, p2) && Apart(b, b2)
    ensures OnDisk(WrittenFiles(files, data, b, p, n), data2, b2, p2)
  {
    WriteElsewhere(files, data2, b2, p2, b.stripe, b.fileOff + p, BlockData(data, b)[p..p + n]);
  }

  /** Another block of the same drain keeps what it has on disk; the written one advances. */
  lemma WriteKeepsOwn(d: Disk, op: Op, k: nat, n: nat, m: nat)
    requires Shape(d) && OpOk(d, op) && k < |op.blocks| && m < |op.blocks|
      && op.progress[k] + n <= RoundUp(op.blocks[k].len)
    ensures OnDisk(WrittenFiles(d.files, op.data, op.blocks[k], op.progress[k], n), op.data, op.blocks[m],
                   op.progress[m] + if m == k then n else 0)
  {
    if m == k {
      WriteHere(d.files, op.data, op.blocks[k], op.progress[k], n);
    } else {
      SameOpApart(d, op, k, m);
      WriteApart(d.files, op.data, op.blocks[k], op.progress[k], n, op.data, op.blocks[m], op.progress[m]);
    }
  }

  lemma WriteKeepsOther(d: Disk, op: Op, k: nat, n: nat, other: Op, m: nat)
    requires Shape(d) && OpOk(d, op) && OpOk(d, other) && OpsApart(op, other) && k < |op.blocks| && m < |other.blocks|
    requires op.progress[k] + n <= RoundUp(op.blocks[k].len)
    ensures OnDisk(WrittenFiles(d.files, op.data, op.blocks[k], op.progress[k], n), other.data, other.blocks[m],
      other.progress[m])
  {
    OtherOpApart(d, op, k, other, m);
    WriteApart(d.files, op.data, op.blocks[k], op.progress[k], n, other.data, other.blocks[m], other.progress[m]);
  }

  /** Progress and contents of any drain's block after a part of block `k` of drain `id` is written. */
  lemma WriteKeeps(d: Disk, id: nat, k: nat, n: nat, x: nat, m: nat)
    requires DiskInv(d) && CanWrite(d, id, k, n) && x in d.ops && m < |d.ops[x].blocks|
    ensures var d' := Next(d, WritePart(id, k, n));
      OnDisk(d'.files, d.ops[x].data, d.ops[x].blocks[m], d'.ops[x].progress[m])
  {
    assert OpOk(d, d.ops[id]) && OpOk(d, d.ops[x]);
    if x == id {
      WriteKeepsOwn(d, d.ops[id], k, n, m);
    } else {
      WriteKeepsOther(d, d.ops[id], k, n, d.ops[x], m);
    }
  }

  lemma WriteLayout(d: Disk, id: nat, k: nat, n: nat, x: nat)
    requires DiskInv(d) && CanWrite(d, id, k, n) && x in d.ops
    ensures var d' := Next(d, WritePart(id, k, n)); |d'.files| == |d.files| && LayoutOk(d', d'.ops[x])
  {
    assert OpOk(d, d.ops[x]);
  }

  lemma WriteOpOk(d: Disk, id: nat, k: nat, n: nat, x: nat)
    requires DiskInv(d) && CanWrite(d, id, k, n) && x in d.ops
    ensures var d' := Next(d, WritePart(id, k, n)); Shape(d') && x in d'.ops && OpOk(d', d'.ops[x])
  {
    var d' := Next(d, WritePart(id, k, n));
    WriteLayout(d, id, k, n, x);
    forall m | 0 <= m < |d'.ops[x].blocks|
      ensures OnDisk(d'.files, d'.ops[x].data, d'.ops[x].blocks[m], d'.ops[x].progress[m])
    {
      WriteKeeps(d, id, k, n, x, m);
    }
    if x != id {
      assert OpOk(d, d.ops[x]);
    }
  }

  lemma StepWrite(d: Disk, id: nat, k: nat, n: nat)
    requires DiskInv(d)
    ensures DiskInv(Next(d, WritePart(id, k, n)))
  {
    if CanWrite(d, id, k, n) {
      var d' := Next(d, WritePart(id, k, n));
      WriteOpOk(d, id, k, n, id);
      forall x | x in d'.ops ensures OpOk(d', d'.ops[x]) {
        WriteOpOk(d, id, k, n, x);
      }
      forall x, y | x in d'.ops && y in d'.ops && x != y ensures OpsApart(d'.ops[x], d'.ops[y]) {
        assert OpsApart(d.ops[x], d.ops[y]);
      }
    }
  }

  /** A drain that has reserved nothing yet. */
  lemma FreshOp(d: Disk, data: seq<Byte>)
    requires Shape(d) && d.files != []
    ensures OpOk(d, Op(data, Segments(|data|, |d.files|), 0, [], [], [], false))
  {
    assert Segments(|data|, |d.files|)[..0] == [];
  }

  lemma StepStart(d: Disk, id: nat, data: seq<Byte>)
    requires DiskInv(d)
    ensures DiskInv(Next(d, Start(id, data)))
  {
    if id !in d.ops && d.files != [] {
      var d' := Next(d, Start(id, data));
      forall x | x in d'.ops ensures OpOk(d', d'.ops[x]) {
        if x != id {
          assert OpOk(d, d.ops[x]);
          CursorsGrow(d, d', d.ops[x]);
        } else {
          FreshOp(d', data);
        }
      }
    }
  }

  lemma StepFinish(d: Disk, id: nat)
    requires DiskInv(d)
    ensures DiskInv(Next(d, Finish(id)))
  {
    if id in d.ops && Complete(d.ops[id]) {
      assert OpOk(d, d.ops[id].(finished := true)) by { assert OpOk(d, d.ops[id]); }
      ReplaceOp(d, id, d.ops[id].(finished := true));
    }
  }

  /** A record may change in what is neither layout nor progress. */
  lemma ReplaceOp(d: Disk, id: nat, op: Op)
    requires DiskInv(d) && id in d.ops && OpOk(d, op) && op.chunks == d.ops[id].chunks
    ensures DiskInv(d.(ops := d.ops[id := op]))
  {
    var d' := d.(ops := d.ops[id := op]);
    forall x | x in d'.ops ensures OpOk(d', d'.ops[x]) {
      CursorsGrow(d, d', d'.ops[x]);
    }
    forall x, y | x in d'.ops && y in d'.ops && x != y ensures OpsApart(d'.ops[x], d'.ops[y]) {
      assert OpsApart(d.ops[x], d.ops[y]);
    }
  }

  lemma StepForget(d: Disk, id: nat)
    requires DiskInv(d)
    ensures DiskInv(Next(d, Forget(id)))
  {
    var d' := d.(ops := d.ops - {id});
    forall x | x in d'.ops ensures OpOk(d', d'.ops[x]) {
      CursorsGrow(d, d', d.ops[x]);
    }
  }

  lemma StepInv(d: Disk, a: Step)
    requires DiskInv(d)
    ensures DiskInv(Next(d, a))
  {
    match a
    case Start(id, data) => StepStart(d, id, data);
    case Reserve(id) => StepReserve(d, id);
    case WritePart(id, k, n) => StepWrite(d, id, k, n);
    case Finish(id) => StepFinish(d, id);
    case Forget(id) => StepForget(d, id);
  }

  // --------------------------------------------------------------- reading back

  /** Reading the chunks in order, as recorded. */
  function ReadChunks(files: seq<seq<Byte>>, cs: seq<Chunk>): seq<Byte> {
    if cs == [] then [] else ReadChunk(files, cs[0]) + ReadChunks(files, cs[1..])
  }

  function ReadChunk(files: seq<seq<Byte>>, c: Chunk): seq<Byte> {
    if c.stripe < |files| then ReadAt(files[c.stripe], c.offset, c.length) else []
  }

  /** The block that carries byte `r` of chunk `j`. */
  lemma ByteCarrier(cs: seq<Chunk>, data: seq<Byte>, block: nat, j: nat, r: nat) returns (k: nat)
    requires block > 0 && block % PAGE == 0 && j < |cs| && r < cs[j].length && MemOf(cs, j) + cs[j].length <= |data|
    ensures k < |AllBlocks(cs, 0, block)|
    ensures Carries(data, cs[j], MemOf(cs, j), AllBlocks(cs, 0, block)[k], cs[j].offset + r)
  {
    var q := BlocksCover(data, cs[j], MemOf(cs, j), block, 0, cs[j].offset + r);
    k := PlaceOf(cs, 0, block, j, q);
  }

  /** What a carried byte is, on disk and in memory. */
  lemma CarriedByte(files: seq<seq<Byte>>, data: seq<Byte>, c: Chunk, mem: nat, b: BlockIO, r: nat)
    requires r < c.length && Carries(data, c, mem, b, c.offset + r) && OnDisk(files, data, b, RoundUp(b.len))
    ensures c.stripe < |files| && c.offset + r < |files[c.stripe]| && files[c.stripe][c.offset + r] == data[mem + r]
  {
    assert ByteAt(files[c.stripe], c.offset + r) == BlockData(data, b)[c.offset + r - b.fileOff];
    assert ChunkData(data, c, mem)[r] == data[mem..mem + c.length][r];
  }

  /** Each byte of a complete drain's region is on disk. */
  lemma RegionByte(d: Disk, op: Op, j: nat, r: nat)
    requires Shape(d) && OpOk(d, op) && Complete(op) && j < |op.chunks| && r < op.chunks[j].length
    ensures var c, mem := op.chunks[j], MemOf(op.chunks, j);
      && mem + c.length <= |op.data| && c.stripe < |d.files| && c.offset + r < |d.files[c.stripe]|
      && d.files[c.stripe][c.offset + r] == op.data[mem + r]
  {
    MemFits(d, op, j);
    var k := ByteCarrier(op.chunks, op.data, d.block, j, r);
    assert OnDisk(d.files, op.data, op.blocks[k], op.progress[k]);
    CarriedByte(d.files, op.data, op.chunks[j], MemOf(op.chunks, j), op.blocks[k], r);
  }

  lemma MemFits(d: Disk, op: Op, j: nat)
    requires Shape(d) && OpOk(d, op) && j < |op.chunks|
    ensures MemOf(op.chunks, j) + op.chunks[j].length <= TotalLength(op.chunks) <= |op.data|
  {
    PrefixFits(d, op, op.next);
    assert op.chunks == op.chunks[..j] + op.chunks[j..];
    TotalLengthAppend(op.chunks[..j], op.chunks[j..]);
  }

  ghost predicate Agrees(f: seq<Byte>, off: nat, bytes: seq<Byte>, i: nat) {
    i < |bytes| ==> off + i < |f| && f[off + i] == bytes[i]
  }

  /** A stretch of a file that agrees byte by byte is what a read of it returns. */
  lemma StretchRead(f: seq<Byte>, off: nat, bytes: seq<Byte>)
    requires forall i: nat :: Agrees(f, off, bytes, i)
    ensures ReadAt(f, off, |bytes|) == bytes
  {
    if |bytes| > 0 {
      assert Agrees(f, off, bytes, |bytes| - 1);
      forall i | 0 <= i < |bytes| ensures f[off..off + |bytes|][i] == bytes[i] {
        assert Agrees(f, off, bytes, i);
      }
    }
  }

  lemma ChunkRead(d: Disk, op: Op, j: nat)
    requires Shape(d) && OpOk(d, op) && Complete(op) && j < |op.chunks|
    ensures var c, mem := op.chunks[j], MemOf(op.chunks, j);
      mem + c.length <= |op.data| && ReadChunk(d.files, c) == op.data[mem..mem + c.length]
  {
    var c, mem := op.chunks[j], MemOf(op.chunks, j);
    MemFits(d, op, j);
    var bytes := op.data[mem..mem + c.length];
    forall i: nat ensures Agrees(d.files[c.stripe], c.offset, bytes, i) {
      if i < |bytes| {
        RegionByte(d, op, j, i);
        assert bytes[i] == op.data[mem + i];
      }
    }
    StretchRead(d.files[c.stripe], c.offset, bytes);
  }

  lemma MemNext(cs: seq<Chunk>, j: nat)
    requires j < |cs|
    ensures MemOf(cs, j + 1) == MemOf(cs, j) + cs[j].length
  {
    assert cs[..j + 1] == cs[..j] + [cs[j]];
    TotalLengthAppend(cs[..j], [cs[j]]);
    assert TotalLength([cs[j]]) == cs[j].length by { assert [cs[j]][1..] == []; }
  }

  lemma AllRead(d: Disk, op: Op)
    requires Shape(d) && OpOk(d, op) && Complete(op)
    ensures MemOf(op.chunks, |op.chunks|) == |op.data|
  {
    assert op.chunks[..|op.chunks|] == op.chunks;
    SegmentsCover(|op.data|, |d.files|);
    assert op.segs[..op.next] == op.segs;
  }

  lemma ReadCons(files: seq<seq<Byte>>, cs: seq<Chunk>, data: seq<Byte>, mem: nat)
    requires cs != [] && mem + cs[0].length <= |data|
    requires ReadChunk(files, cs[0]) == data[mem..mem + cs[0].length]
    requires ReadChunks(files, cs[1..]) == data[mem + cs[0].length..]
    ensures ReadChunks(files, cs) == data[mem..]
  {
    assert data[mem..] == data[mem..mem + cs[0].length] + data[mem + cs[0].length..];
  }

  /** Reading from chunk `j` on gives the rest of the tensor. */
  lemma {:induction false} ReadFrom(d: Disk, op: Op, j: nat)
    requires Shape(d) && OpOk(d, op) && Complete(op) && j <= |op.chunks|
    ensures MemOf(op.chunks, j) <= |op.data| && ReadChunks(d.files, op.chunks[j..]) == op.data[MemOf(op.chunks, j)..]
    decreases |op.chunks| - j
  {
    if j == |op.chunks| {
      AllRead(d, op);
    } else {
      var c, mem := op.chunks[j], MemOf(op.chunks, j);
      ChunkRead(d, op, j);
      ReadFrom(d, op, j + 1);
      MemNext(op.chunks, j);
      assert op.chunks[j..][1..] == op.chunks[j + 1..];
      ReadCons(d.files, op.chunks[j..], op.data, mem);
    }
  }

  // --------------------------------------------------------------------- runs

  ghost predicate Init(d: Disk) {
    Shape(d) && d.ops == map[]
  }

  function Exec(d: Disk, acts: seq<Step>): Disk
    decreases |acts|
  {
    if acts == [] then d else Exec(Next(d, acts[0]), acts[1..])
  }

  lemma {:induction false} ExecInv(d: Disk, acts: seq<Step>)
    requires DiskInv(d)
    ensures DiskInv(Exec(d, acts))
    decreases |acts|
  {
    if acts != [] {
      StepInv(d, acts[0]);
      ExecInv(Next(d, acts[0]), acts[1..]);
    }
  }

  /** A finished drain's record does not change as long as it is kept. */
  lemma {:induction false} RecordKept(d: Disk, acts: seq<Step>, id: nat)
    requires id in d.ops && d.ops[id].finished
    requires forall k | 0 <= k < |acts| :: acts[k] != Forget(id)
    ensures id in Exec(d, acts).ops && Exec(d, acts).ops[id] == d.ops[id]
    decreases |acts|
  {
    if acts != [] {
      assert acts[0] != Forget(id);
      assert d.ops[id].(finished := true) == d.ops[id];
      RecordKept(Next(d, acts[0]), acts[1..], id);
    }
  }

  /**
   Whatever other drains reserve and write, before and after, a finished drain's chunks read back as
   its tensor, in every later state in which its record is kept.
   */
  lemma EntriesIntact(d0: Disk, before: seq<Step>, after: seq<Step>, id: nat)
    requires Init(d0)
    requires var d := Exec(d0, before); id in d.ops && d.ops[id].finished
    requires forall k | 0 <= k < |after| :: after[k] != Forget(id)
    ensures var d := Exec(d0, before);
      ReadChunks(Exec(d, after).files, d.ops[id].chunks) == d.ops[id].data
  {
    var d := Exec(d0, before);
    ExecInv(d0, before);
    ExecInv(d, after);
    RecordKept(d, after, id);
    var d', op := Exec(d, after), d.ops[id];
    assert OpOk(d', op);
    ReadFrom(d', op, 0);
    assert op.chunks[0..] == op.chunks && op.chunks[..0] == [];
  }
}

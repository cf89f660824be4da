/**
 The window of the asynchronous engine: up to `qd` block requests in flight, a
 bounce buffer and an I/O vector slot for each, completions in any order.
 */
module NvmeWindow {
  import opened Bits
  import opened NvmeLayout

  /** I/O vectors live in an array of this size, indexed by buffer number modulo the size. */
  const IOV_SLOTS: nat := 64

  /** The kernel sets up no ring for more requests in flight than this. */
  const RING_MAX: nat := 32768

  /** What the engine gets through: cookies name their `n` blocks, and no two requests in flight share a vector. */
  predicate Fits(qd: nat, n: nat) { 1 <= qd <= RING_MAX && n <= W32 && (qd <= IOV_SLOTS || n <= IOV_SLOTS) }

  datatype Iov = Iov(buf: nat, len: nat)

  /**
   A submitted request: file, vector slot and file offset; block and buffer number are what its cookie
   packs, the word that comes back with its completion.
   */
  datatype Sqe = Sqe(stripe: nat, slot: nat, off: nat, blk: nat, buf: nat)

  datatype Window = Window(next: nat, free: seq<nat>, flying: set<Sqe>, iov: seq<Iov>)

  // ----------------------------------------------------------------- cookies

  /** Block number in the upper bits, buffer number in the lower 16, in one 64-bit word. */
  function Cookie(blk: nat, buf: nat): nat { (blk * 65536 + buf) % W64 }

  function BufOf(cookie: nat): nat { cookie % 65536 }

  /** The block number is taken back as a 32-bit value. */
  function BlkOf(cookie: nat): nat { cookie / 65536 % W32 }

  /** A cookie names its block exactly below 2^32 blocks. */
  lemma CookieExactIff(blk: nat, buf: nat)
    requires buf < 65536 && blk < 0x1_0000_0000_0000
    ensures BufOf(Cookie(blk, buf)) == buf
    ensures BlkOf(Cookie(blk, buf)) == blk <==> blk < W32
  {
    ModUnique(blk * 65536 + buf, W64, 0, blk * 65536 + buf);
    ModUnique(blk * 65536 + buf, 65536, blk, buf);
    if blk < W32 {
      ModUnique(blk, W32, 0, blk);
    }
  }

  /** Every buffer has a vector slot of its own exactly up to 64 buffers. */
  lemma SlotsDistinctIff(qd: nat)
    ensures (forall a, b | 0 <= a < b < qd :: a % IOV_SLOTS != b % IOV_SLOTS) <==> qd <= IOV_SLOTS
  {
    if qd > IOV_SLOTS {
      assert 0 % IOV_SLOTS == IOV_SLOTS % IOV_SLOTS;
    }
  }

  /** Buffers less than 64 apart have different slots. */
  lemma NearSlots(a: nat, b: nat)
    requires a < b < a + IOV_SLOTS
    ensures a % IOV_SLOTS != b % IOV_SLOTS
  {
  }

  // -------------------------------------------------------------- transitions

  /** Hand block `w.next` to the kernel, in the buffer on top of the free list. */
  function Submit(w: Window, b: BlockIO): Window
    requires w.free != [] && |w.iov| == IOV_SLOTS
  {
    var bi := w.free[|w.free| - 1];
    var slot := bi % IOV_SLOTS;
    Window(w.next + 1, w.free[..|w.free| - 1], w.flying + {Sqe(b.stripe, slot, b.fileOff, w.next, bi)},
           w.iov[slot := Iov(bi, RoundUp(b.len))])
  }

  /** The kernel reports request `s`, whose cookie named buffer `buf`. */
  function Retire(w: Window, s: Sqe, buf: nat): Window {
    w.(flying := w.flying - {s}, free := w.free + [buf])
  }

  // --------------------------------------------------------------- invariant

  /** Request `s` is for its block and its buffer, and its vector is intact. */
  ghost predicate Flies(w: Window, ios: seq<BlockIO>, qd: nat, s: Sqe) {
    && s.buf < qd && |w.iov| == IOV_SLOTS && s.blk < w.next <= |ios|
    && s.slot == s.buf % IOV_SLOTS && w.iov[s.slot] == Iov(s.buf, RoundUp(ios[s.blk].len))
    && s.stripe == ios[s.blk].stripe && s.off == ios[s.blk].fileOff
  }

  /** No two requests share a buffer or a block. */
  ghost predicate OneEach(flying: set<Sqe>) {
    forall s, t | s in flying && t in flying && s != t :: s.buf != t.buf && s.blk != t.blk
  }

  ghost predicate FreeOk(w: Window, qd: nat) {
    && |w.free| + |w.flying| == qd
    && (forall i | 0 <= i < |w.free| :: w.free[i] < qd)
    && (forall i, j | 0 <= i < j < |w.free| :: w.free[i] != w.free[j])
    && (forall s, i | s in w.flying && 0 <= i < |w.free| :: s.buf != w.free[i])
  }

  function FlyingBlocks(flying: set<Sqe>): set<nat> { set s | s in flying :: s.blk }

  /** Every block handed out so far has landed or is in flight, and not both. */
  ghost predicate Accounted(w: Window, landed: set<nat>) {
    && |landed| + |w.flying| == w.next
    && (forall b | b in landed :: b < w.next)
    && (forall s | s in w.flying :: s.blk !in landed)
    && (forall b: nat | b < w.next && b !in landed :: b in FlyingBlocks(w.flying))
  }

  /** No completion yet: buffers were handed out from the last one down, a block each. */
  ghost predicate FirstPass(w: Window, qd: nat) {
    && |w.free| + w.next == qd && (forall i | 0 <= i < |w.free| :: w.free[i] == i)
    && forall s | s in w.flying :: s.buf + s.blk + 1 == qd
  }

  /** With more buffers than vectors, completions wait until every block is handed out. */
  ghost predicate Settled(w: Window, ios: seq<BlockIO>, qd: nat) { qd <= IOV_SLOTS || w.next == |ios| }

  ghost predicate WindowOk(w: Window, ios: seq<BlockIO>, qd: nat, landed: set<nat>) {
    && Fits(qd, |ios|) && w.next <= |ios| && |w.iov| == IOV_SLOTS
    && (forall s | s in w.flying :: Flies(w, ios, qd, s))
    && OneEach(w.flying) && FreeOk(w, qd) && Accounted(w, landed)
    && (Settled(w, ios, qd) || FirstPass(w, qd))
  }

  /** The request that block `w.next` becomes. */
  function Request(w: Window, b: BlockIO): Sqe
    requires w.free != []
  {
    var bi := w.free[|w.free| - 1];
    Sqe(b.stripe, bi % IOV_SLOTS, b.fileOff, w.next, bi)
  }

  /** A request in flight and the buffer on top of the free list use different vectors. */
  lemma SlotsApart(w: Window, ios: seq<BlockIO>, qd: nat, s: Sqe)
    requires w.next < |ios| && w.free != [] && Fits(qd, |ios|) && FreeOk(w, qd)
    requires s in w.flying && s.buf < qd && s.blk < w.next && (Settled(w, ios, qd) || FirstPass(w, qd))
    ensures s.buf % IOV_SLOTS != w.free[|w.free| - 1] % IOV_SLOTS
  {
    var top := w.free[|w.free| - 1];
    if s.buf < top {
      NearSlots(s.buf, top);
    } else {
      NearSlots(top, s.buf);
    }
  }

  /** Requests in flight keep their vectors when another buffer's slot is filled. */
  lemma SubmitFlies(w: Window, ios: seq<BlockIO>, qd: nat, s: Sqe)
    requires w.next < |ios| && w.free != [] && |w.iov| == IOV_SLOTS && Fits(qd, |ios|) && FreeOk(w, qd)
    requires Settled(w, ios, qd) || FirstPass(w, qd)
    requires s == Request(w, ios[w.next]) || (s in w.flying && Flies(w, ios, qd, s))
    ensures Flies(Submit(w, ios[w.next]), ios, qd, s)
  {
    if s in w.flying && Flies(w, ios, qd, s) {
      SlotsApart(w, ios, qd, s);
    }
  }

  lemma SubmitPasses(w: Window, b: BlockIO, qd: nat)
    requires FirstPass(w, qd) && w.free != [] && |w.iov| == IOV_SLOTS
    ensures FirstPass(Submit(w, b), qd)
  {
  }

  lemma SubmitAccounts(w: Window, ios: seq<BlockIO>, qd: nat, landed: set<nat>)
    requires WindowOk(w, ios, qd, landed) && w.next < |ios| && w.free != []
    ensures var w' := Submit(w, ios[w.next]); OneEach(w'.flying) && FreeOk(w', qd) && Accounted(w', landed)
  {
    var w', bi := Submit(w, ios[w.next]), w.free[|w.free| - 1];
    var s0 := Request(w, ios[w.next]);
    forall s | s in w.flying ensures s.blk < w.next && s.buf != bi {
      assert Flies(w, ios, qd, s);
    }
    assert s0 !in w.flying;
    forall b: nat | b < w'.next && b !in landed ensures b in FlyingBlocks(w'.flying) {
      if b == w.next {
        assert s0 in w'.flying;
      } else {
        assert b in FlyingBlocks(w.flying);
      }
    }
  }

  lemma SubmitOk(w: Window, ios: seq<BlockIO>, qd: nat, landed: set<nat>)
    requires WindowOk(w, ios, qd, landed) && w.next < |ios| && w.free != []
    ensures WindowOk(Submit(w, ios[w.next]), ios, qd, landed)
  {
    var w' := Submit(w, ios[w.next]);
    forall s | s in w'.flying ensures Flies(w', ios, qd, s) {
      SubmitFlies(w, ios, qd, s);
    }
    SubmitAccounts(w, ios, qd, landed);
    if FirstPass(w, qd) {
      SubmitPasses(w, ios[w.next], qd);
    }
  }

  lemma RetireAccounts(w: Window, landed: set<nat>, s: Sqe)
    requires Accounted(w, landed) && OneEach(w.flying) && s in w.flying && s.blk < w.next
    ensures Accounted(Retire(w, s, s.buf), landed + {s.blk})
  {
    var w' := Retire(w, s, s.buf);
    forall b: nat | b < w'.next && b !in landed + {s.blk} ensures b in FlyingBlocks(w'.flying) {
      assert b in FlyingBlocks(w.flying);
      var t :| t in w.flying && t.blk == b;
      assert t in w'.flying;
    }
  }

  lemma RetireFree(w: Window, qd: nat, s: Sqe)
    requires FreeOk(w, qd) && OneEach(w.flying) && s in w.flying && s.buf < qd
    ensures FreeOk(Retire(w, s, s.buf), qd)
  {
  }

  lemma RetireOk(w: Window, ios: seq<BlockIO>, qd: nat, landed: set<nat>, s: Sqe)
    requires WindowOk(w, ios, qd, landed) && s in w.flying && Settled(w, ios, qd)
    ensures WindowOk(Retire(w, s, s.buf), ios, qd, landed + {s.blk})
  {
    var w' := Retire(w, s, s.buf);
    assert Flies(w, ios, qd, s);
    forall t | t in w'.flying ensures Flies(w', ios, qd, t) {
      assert Flies(w, ios, qd, t);
    }
    RetireFree(w, qd, s);
    RetireAccounts(w, landed, s);
  }

  /** When everything has landed, every block has, once. */
  lemma AllLanded(w: Window, ios: seq<BlockIO>, qd: nat, landed: set<nat>)
    requires WindowOk(w, ios, qd, landed) && |landed| == |ios|
    ensures w.next == |ios| && w.flying == {} && forall b: nat :: b in landed <==> b < |ios|
  {
    assert |w.flying| == 0;
    assert FlyingBlocks(w.flying) == {};
  }

  /** Nothing handed out and every buffer free. */
  function Fresh(qd: nat): Window {
    Window(0, seq(qd, i requires 0 <= i < qd => i), {}, seq(IOV_SLOTS, _ => Iov(0, 0)))
  }

  lemma FreshOk(ios: seq<BlockIO>, qd: nat)
    requires Fits(qd, |ios|)
    ensures WindowOk(Fresh(qd), ios, qd, {}) && FirstPass(Fresh(qd), qd)
  {
  }

  /** With blocks still to land, a full or exhausted pipe has a request in flight. */
  lemma PipeNotEmpty(w: Window, ios: seq<BlockIO>, qd: nat, landed: set<nat>)
    requires WindowOk(w, ios, qd, landed) && |landed| < |ios| && (w.next == |ios| || w.free == [])
    ensures w.flying != {} && Settled(w, ios, qd)
  {
    assert |w.flying| > 0;
  }

  // ------------------------------------------------------- beyond the vectors

  /** The window after the first pass handed out `n` blocks. */
  function Pass(ios: seq<BlockIO>, qd: nat, n: nat): (w: Window)
    requires n <= qd && n <= |ios|
    ensures |w.iov| == IOV_SLOTS && w.next == n && |w.free| == qd - n
    ensures forall i | 0 <= i < |w.free| :: w.free[i] == i
  {
    if n == 0 then Fresh(qd) else Submit(Pass(ios, qd, n - 1), ios[n - 1])
  }

  /** Every request in flight finds the vector that was made for it. */
  ghost predicate Intact(w: Window, ios: seq<BlockIO>) {
    |w.iov| == IOV_SLOTS
    && forall s | s in w.flying :: s.slot < IOV_SLOTS && s.blk < |ios|
         && w.iov[s.slot] == Iov(s.buf, RoundUp(ios[s.blk].len))
  }

  lemma {:induction false} PassOk(ios: seq<BlockIO>, qd: nat, n: nat)
    requires n <= qd && n <= |ios| && Fits(qd, |ios|)
    ensures WindowOk(Pass(ios, qd, n), ios, qd, {})
  {
    if n == 0 {
      FreshOk(ios, qd);
    } else {
      PassOk(ios, qd, n - 1);
      SubmitOk(Pass(ios, qd, n - 1), ios, qd, {});
    }
  }

  /** The request of block 0, which takes the last buffer. */
  function FirstRequest(ios: seq<BlockIO>, qd: nat): Sqe
    requires ios != [] && qd > 0
  {
    Sqe(ios[0].stripe, (qd - 1) % IOV_SLOTS, ios[0].fileOff, 0, qd - 1)
  }

  lemma {:induction false} FirstFlies(ios: seq<BlockIO>, qd: nat, n: nat)
    requires 0 < n <= qd && n <= |ios|
    ensures FirstRequest(ios, qd) in Pass(ios, qd, n).flying
  {
    if n > 1 {
      FirstFlies(ios, qd, n - 1);
    }
  }

  /** Block 64 takes over the vector of block 0, and no later block gives it back. */
  lemma {:induction false} FirstOverwritten(ios: seq<BlockIO>, qd: nat, n: nat)
    requires IOV_SLOTS < n <= qd && n <= |ios|
    ensures Pass(ios, qd, n).iov[(qd - 1) % IOV_SLOTS].buf != qd - 1
  {
    if n > IOV_SLOTS + 1 {
      FirstOverwritten(ios, qd, n - 1);
    } else {
      assert (qd - 1) % IOV_SLOTS == (qd - 1 - IOV_SLOTS) % IOV_SLOTS;
    }
  }

  /**
   When the first pass hands its requests to the kernel, each finds its own vector exactly if there are
   at most 64 buffers or at most 64 blocks. Otherwise block 0 is written from another block's buffer.
   */
  lemma FirstPassIntactIff(ios: seq<BlockIO>, qd: nat)
    requires 1 <= qd <= RING_MAX && |ios| <= W32
    ensures Intact(Pass(ios, qd, Min(qd, |ios|)), ios) <==> qd <= IOV_SLOTS || |ios| <= IOV_SLOTS
  {
    var n := Min(qd, |ios|);
    if Fits(qd, |ios|) {
      PassOk(ios, qd, n);
      forall s | s in Pass(ios, qd, n).flying ensures Flies(Pass(ios, qd, n), ios, qd, s) {
      }
    } else {
      FirstFlies(ios, qd, n);
      FirstOverwritten(ios, qd, n);
    }
  }
}

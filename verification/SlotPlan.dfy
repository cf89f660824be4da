/**
 From a validated configuration to the slot table: each arena is carved into
 slots of one granule, window after window. The sums of the validation and the
 slot counts are machine words, so a configuration can pass and still not fit.
 */
module SlotPlan {
  import opened Bits
  import Allocator

  datatype GpuWindow = GpuWindow(gpu: nat, bytes: U64)

  datatype Arena = Arena(numa: nat, size: U64, windows: seq<GpuWindow>, overflow: U64)

  datatype Piece = Piece(gpu: nat, isOverflow: bool, bytes: U64)

  function GpuPieces(ws: seq<GpuWindow>): seq<Piece> {
    seq(|ws|, i requires 0 <= i < |ws| => Piece(ws[i].gpu, false, ws[i].bytes))
  }

  /** What is carved, in order: the windows, then the overflow. */
  function Pieces(a: Arena): seq<Piece> {
    GpuPieces(a.windows) + [Piece(Allocator.OVERFLOW_GPU, true, a.overflow)]
  }

  // ------------------------------------------------------------------ granules

  /** Whole granules in a number of bytes. */
  function Granules(bytes: nat, gran: nat): nat
    requires gran > 0
    decreases bytes
  {
    if bytes < gran then 0 else 1 + Granules(bytes - gran, gran)
  }

  lemma {:induction false} GranulesIs(bytes: nat, gran: nat)
    requires gran > 0
    ensures Granules(bytes, gran) == bytes / gran
    ensures Granules(bytes, gran) * gran <= bytes < Granules(bytes, gran) * gran + gran
    decreases bytes
  {
    if bytes >= gran {
      GranulesIs(bytes - gran, gran);
      assert (Granules(bytes - gran, gran) + 1) * gran == Granules(bytes - gran, gran) * gran + gran;
    }
    ModUnique(bytes, gran, Granules(bytes, gran), bytes - Granules(bytes, gran) * gran);
  }

  /** Byte offset of the `q`-th granule of an arena, in a 64-bit word. */
  function Offset(q: nat, gran: nat): (r: nat)
    ensures r < W64
  {
    if q == 0 then 0 else (Offset(q - 1, gran) + gran) % W64
  }

  lemma {:induction false} OffsetIs(q: nat, gran: nat)
    ensures Offset(q, gran) == q * gran % W64
  {
    if q > 0 {
      OffsetIs(q - 1, gran);
      AddThenWrap((q - 1) * gran, gran);
      assert (q - 1) * gran + gran == q * gran;
    }
  }

  lemma AddThenWrap(a: nat, b: nat)
    ensures (a % W64 + b) % W64 == (a + b) % W64
  {
    var q := a / W64;
    var r := a % W64;
    ModUnique(a + b, W64, q + (r + b) / W64, (r + b) % W64);
  }

  // --------------------------------------------------------------- exact sums

  function Bytes(ps: seq<Piece>): nat {
    if ps == [] then 0 else Bytes(ps[..|ps| - 1]) + ps[|ps| - 1].bytes
  }

  function Count(ps: seq<Piece>, gran: nat): nat
    requires gran > 0
  {
    if ps == [] then 0 else Count(ps[..|ps| - 1], gran) + Granules(ps[|ps| - 1].bytes, gran)
  }

  function Capacity(arenas: seq<Arena>, gran: nat): nat
    requires gran > 0
  {
    if arenas == [] then 0 else Capacity(arenas[..|arenas| - 1], gran) + Granules(arenas[|arenas| - 1].size, gran)
  }

  function Carved(arenas: seq<Arena>, gran: nat): nat
    requires gran > 0
  {
    if arenas == [] then 0 else Carved(arenas[..|arenas| - 1], gran) + Count(Pieces(arenas[|arenas| - 1]), gran)
  }

  /** `n` whole granules fit exactly when their bytes do. */
  lemma WholeGranules(n: nat, size: nat, g: nat)
    requires g > 0
    ensures n <= Granules(size, g) <==> n * g <= size
  {
    var m := Granules(size, g);
    GranulesIs(size, g);
    if n <= m {
      MulLe(n, m, g);
    } else {
      MulLe(m + 1, n, g);
      assert (m + 1) * g == m * g + g;
    }
  }

  lemma MulLe(a: nat, b: nat, m: nat)
    requires a <= b
    ensures a * m <= b * m
  {
  }

  lemma OneMorePiece(c: nat, bytes: nat, n: nat, m: nat, last: nat, gran: nat)
    requires c * gran <= bytes <= c * gran + n * gran && m * gran <= last < m * gran + gran
    ensures (c + m) * gran <= bytes + last < (c + m) * gran + (n + 1) * gran
  {
    Distribute(c, m, gran);
    Distribute(n, 1, gran);
  }

  lemma Distribute(a: nat, b: nat, g: nat)
    ensures (a + b) * g == a * g + b * g
  {
  }

  /** Carving loses less than a granule per piece. */
  lemma {:induction false} CountBounds(ps: seq<Piece>, gran: nat)
    requires gran > 0
    ensures Count(ps, gran) * gran <= Bytes(ps) <= Count(ps, gran) * gran + |ps| * gran
    ensures ps != [] ==> Bytes(ps) < Count(ps, gran) * gran + |ps| * gran
    decreases |ps|
  {
    if ps != [] {
      var init, last := ps[..|ps| - 1], ps[|ps| - 1].bytes;
      CountBounds(init, gran);
      GranulesIs(last, gran);
      OneMorePiece(Count(init, gran), Bytes(init), |init|, Granules(last, gran), last, gran);
    }
  }

  // ------------------------------------------------------------------ validation

  /** Accepted by the configuration reader. */
  predicate Accepted(arenas: seq<Arena>, gran: nat) {
    && gran != 0 && arenas != []
    && forall i | 0 <= i < |arenas| :: arenas[i].size != 0 && Bytes(Pieces(arenas[i])) % W64 <= arenas[i].size
  }

  lemma {:induction false} BytesAppend(ps: seq<Piece>, p: Piece)
    ensures Bytes(ps + [p]) == Bytes(ps) + p.bytes
  {
    assert (ps + [p])[..|ps|] == ps;
  }

  /** The checks of the configuration reader, with 64-bit sums. */
  method Validate(arenas: seq<Arena>, gran: U64) returns (ok: bool)
    ensures ok <==> Accepted(arenas, gran)
  {
    if gran == 0 || arenas == [] { return false; }
    for i := 0 to |arenas|
      invariant forall j | 0 <= j < i :: arenas[j].size != 0 && Bytes(Pieces(arenas[j])) % W64 <= arenas[j].size
    {
      var needed := Needed(arenas[i]);
      if arenas[i].size == 0 || needed > arenas[i].size { return false; }
    }
    ok := true;
  }

  method Needed(a: Arena) returns (needed: nat)
    ensures needed == Bytes(Pieces(a)) % W64
  {
    var total := 0;
    ghost var ps := GpuPieces(a.windows);
    for k := 0 to |a.windows|
      invariant total == Bytes(ps[..k]) % W64
    {
      assert ps[..k + 1][..k] == ps[..k];
      AddThenWrap(Bytes(ps[..k]), a.windows[k].bytes);
      total := (total + a.windows[k].bytes) % W64;
    }
    assert ps[..|ps|] == ps;
    BytesAppend(ps, Piece(Allocator.OVERFLOW_GPU, true, a.overflow));
    AddThenWrap(Bytes(ps), a.overflow);
    needed := (total + a.overflow) % W64;
  }

  // ------------------------------------------------------------------- the table

  function NumSlots(arenas: seq<Arena>, gran: nat): (n: nat)
    requires gran > 0
    ensures n < W32
  {
    Capacity(arenas, gran) % W32
  }

  lemma AddThenWrap32(a: nat, b: nat)
    ensures (a % W32 + b % W32) % W32 == (a + b) % W32
  {
    var q, r := a / W32, a % W32;
    var q', r' := b / W32, b % W32;
    ModUnique(a + b, W32, q + q' + (r + r') / W32, (r + r') % W32);
  }

  /** Slots of the table: 32-bit counts of the arenas' whole granules. */
  method CountSlots(arenas: seq<Arena>, gran: U64) returns (n: nat)
    requires gran > 0
    ensures n == NumSlots(arenas, gran)
  {
    n := 0;
    for i := 0 to |arenas|
      invariant n == NumSlots(arenas[..i], gran)
    {
      assert arenas[..i + 1][..i] == arenas[..i];
      GranulesIs(arenas[i].size, gran);
      AddThenWrap32(Capacity(arenas[..i], gran), arenas[i].size / gran);
      n := (n + arenas[i].size / gran % W32) % W32;
    }
    assert arenas[..|arenas|] == arenas;
  }

  // -------------------------------------------------------------------- the plan

  datatype Slot = Slot(arena: nat, offset: nat, gpu: nat, borrowable: bool)

  /** Slots of one piece that begins at granule `q` of its arena. */
  function PieceSlots(p: Piece, gran: nat, arena: nat, q: nat): seq<Slot>
    requires gran > 0
  {
    seq(Granules(p.bytes, gran), s requires 0 <= s => Slot(arena, Offset(q + s, gran), p.gpu, !p.isOverflow))
  }

  function PiecesSlots(ps: seq<Piece>, gran: nat, arena: nat): (plan: seq<Slot>)
    requires gran > 0
  {
    if ps == [] then []
    else
      var init := ps[..|ps| - 1];
      PiecesSlots(init, gran, arena) + PieceSlots(ps[|ps| - 1], gran, arena, Count(init, gran))
  }

  function Plan(arenas: seq<Arena>, gran: nat): seq<Slot>
    requires gran > 0
  {
    if arenas == [] then []
    else
      var n := |arenas| - 1;
      Plan(arenas[..n], gran) + PiecesSlots(Pieces(arenas[n]), gran, n)
  }

  /** Slot `k` of an arena is its `k`-th granule, whatever the windows are. */
  lemma {:induction false} ArenaSlots(ps: seq<Piece>, gran: nat, arena: nat)
    requires gran > 0
    ensures |PiecesSlots(ps, gran, arena)| == Count(ps, gran)
    ensures forall k: nat | k < Count(ps, gran) ::
      PiecesSlots(ps, gran, arena)[k].arena == arena && PiecesSlots(ps, gran, arena)[k].offset == Offset(k, gran)
    decreases |ps|
  {
    if ps != [] {
      ArenaSlots(ps[..|ps| - 1], gran, arena);
    }
  }

  /** Number of slots before arena `i`. */
  function Before(arenas: seq<Arena>, gran: nat, i: nat): nat
    requires gran > 0 && i <= |arenas|
  {
    Carved(arenas[..i], gran)
  }

  ghost predicate SlotAt(plan: seq<Slot>, k: nat, arena: nat, granule: nat, gran: nat) {
    k < |plan| && plan[k].arena == arena && plan[k].offset == Offset(granule, gran)
  }

  lemma {:induction false} PlanLength(arenas: seq<Arena>, gran: nat)
    requires gran > 0
    ensures |Plan(arenas, gran)| == Carved(arenas, gran)
    decreases |arenas|
  {
    if arenas != [] {
      var n := |arenas| - 1;
      PlanLength(arenas[..n], gran);
      ArenaSlots(Pieces(arenas[n]), gran, n);
    }
  }

  lemma SlotLeft(a: seq<Slot>, b: seq<Slot>, k: nat, arena: nat, granule: nat, gran: nat)
    requires SlotAt(a, k, arena, granule, gran)
    ensures SlotAt(a + b, k, arena, granule, gran)
  {
  }

  lemma SlotRight(a: seq<Slot>, b: seq<Slot>, k: nat, arena: nat, granule: nat, gran: nat)
    requires SlotAt(b, k, arena, granule, gran)
    ensures SlotAt(a + b, |a| + k, arena, granule, gran)
  {
  }

  lemma ArenaGranule(ps: seq<Piece>, gran: nat, arena: nat, q: nat)
    requires gran > 0 && q < Count(ps, gran)
    ensures SlotAt(PiecesSlots(ps, gran, arena), q, arena, q, gran)
  {
    ArenaSlots(ps, gran, arena);
  }

  /** Every slot is some granule of some arena, and the plan lists them in order. */
  lemma {:induction false} SlotIs(arenas: seq<Arena>, gran: nat, k: nat) returns (i: nat, q: nat)
    requires gran > 0 && k < Carved(arenas, gran)
    ensures i < |arenas| && q < Count(Pieces(arenas[i]), gran) && k == Before(arenas, gran, i) + q
    ensures SlotAt(Plan(arenas, gran), k, i, q, gran)
    decreases |arenas|
  {
    var n := |arenas| - 1;
    PlanLength(arenas[..n], gran);
    var a, b := Plan(arenas[..n], gran), PiecesSlots(Pieces(arenas[n]), gran, n);
    assert Plan(arenas, gran) == a + b;
    if k < |a| {
      i, q := SlotIs(arenas[..n], gran, k);
      assert arenas[..n][..i] == arenas[..i];
      SlotLeft(a, b, k, i, q, gran);
    } else {
      i, q := n, k - |a|;
      ArenaGranule(Pieces(arenas[n]), gran, n, q);
      SlotRight(a, b, q, n, q, gran);
    }
  }

  /** Every granule that the windows ask for is in the plan. */
  lemma {:induction false} GranuleIs(arenas: seq<Arena>, gran: nat, i: nat, q: nat) returns (k: nat)
    requires gran > 0 && i < |arenas| && q < Count(Pieces(arenas[i]), gran)
    ensures SlotAt(Plan(arenas, gran), k, i, q, gran)
    decreases |arenas|
  {
    var n := |arenas| - 1;
    var a, b := Plan(arenas[..n], gran), PiecesSlots(Pieces(arenas[n]), gran, n);
    assert Plan(arenas, gran) == a + b;
    if i < n {
      k := GranuleIs(arenas[..n], gran, i, q);
      SlotLeft(a, b, k, i, q, gran);
    } else {
      ArenaGranule(Pieces(arenas[n]), gran, n, q);
      SlotRight(a, b, q, n, q, gran);
      k := |a| + q;
    }
  }

  // --------------------------------------------------------- what it should be

  ghost predicate InArena(s: Slot, arenas: seq<Arena>, gran: nat) {
    s.arena < |arenas| && s.offset + gran <= arenas[s.arena].size
  }

  ghost predicate AllInArena(plan: seq<Slot>, arenas: seq<Arena>, gran: nat) {
    forall k | 0 <= k < |plan| :: InArena(plan[k], arenas, gran)
  }

  ghost predicate Apart(s: Slot, t: Slot, gran: nat) {
    s.arena != t.arena || s.offset + gran <= t.offset || t.offset + gran <= s.offset
  }

  ghost predicate AllApart(plan: seq<Slot>, gran: nat) {
    forall j, k | 0 <= j < k < |plan| :: Apart(plan[j], plan[k], gran)
  }

  /** Slot numbers are 32-bit: the `k`-th slot carved gets the number `k` modulo 2^32. */
  ghost predicate InTable(n: nat, slots: nat) {
    && (forall k: nat | k < n :: k % W32 < slots)
    && (forall j: nat, k: nat | j < k < n :: j % W32 != k % W32)
  }

  /** Every arena has a granule for each slot its windows ask for. */
  ghost predicate ArenasFit(arenas: seq<Arena>, gran: nat)
    requires gran > 0
  {
    forall i | 0 <= i < |arenas| :: ArenaFits(arenas[i], gran)
  }

  predicate ArenaFits(a: Arena, gran: nat)
    requires gran > 0
  {
    Count(Pieces(a), gran) <= Granules(a.size, gran)
  }

  lemma TableIff(n: nat, slots: nat)
    requires slots < W32
    ensures InTable(n, slots) <==> n <= slots
  {
    if n <= slots {
      forall k: nat | k < n ensures k % W32 == k {
        ModUnique(k, W32, 0, k);
      }
    } else {
      ModUnique(slots, W32, 0, slots);
      assert slots < n && slots % W32 == slots;
    }
  }

  /** A granule below the arena's capacity is inside the arena and its offset does not wrap. */
  lemma GranuleInside(size: U64, gran: nat, q: nat)
    requires gran > 0 && q < Granules(size, gran)
    ensures Offset(q, gran) == q * gran && q * gran + gran <= size
  {
    WholeGranules(q + 1, size, gran);
    assert (q + 1) * gran == q * gran + gran;
    OffsetIs(q, gran);
    ModUnique(q * gran, W64, 0, q * gran);
  }

  /** The first granule beyond the capacity sticks out. */
  lemma GranuleOutside(size: U64, gran: nat)
    requires gran > 0
    ensures Offset(Granules(size, gran), gran) + gran > size
  {
    var q := Granules(size, gran);
    GranulesIs(size, gran);
    OffsetIs(q, gran);
    ModUnique(q * gran, W64, 0, q * gran);
  }

  lemma FitsInside(arenas: seq<Arena>, gran: nat, k: nat)
    requires gran > 0 && ArenasFit(arenas, gran) && k < |Plan(arenas, gran)|
    ensures InArena(Plan(arenas, gran)[k], arenas, gran)
  {
    PlanLength(arenas, gran);
    var i, q := SlotIs(arenas, gran, k);
    assert ArenaFits(arenas[i], gran);
    GranuleInside(arenas[i].size, gran, q);
  }

  lemma SticksOut(arenas: seq<Arena>, gran: nat, i: nat)
    requires gran > 0 && i < |arenas| && !ArenaFits(arenas[i], gran)
    ensures !AllInArena(Plan(arenas, gran), arenas, gran)
  {
    var k := GranuleIs(arenas, gran, i, Granules(arenas[i].size, gran));
    GranuleOutside(arenas[i].size, gran);
    assert !InArena(Plan(arenas, gran)[k], arenas, gran);
  }

  /** The plan stays inside its arenas exactly when every arena has room for its windows' granules. */
  lemma InArenaIff(arenas: seq<Arena>, gran: nat)
    requires gran > 0
    ensures AllInArena(Plan(arenas, gran), arenas, gran) <==> ArenasFit(arenas, gran)
  {
    if ArenasFit(arenas, gran) {
      forall k | 0 <= k < |Plan(arenas, gran)| ensures InArena(Plan(arenas, gran)[k], arenas, gran) {
        FitsInside(arenas, gran, k);
      }
    } else {
      var i :| 0 <= i < |arenas| && !ArenaFits(arenas[i], gran);
      SticksOut(arenas, gran, i);
    }
  }

  /** Slots that stay inside their arenas do not overlap. */
  lemma FittingIsApart(arenas: seq<Arena>, gran: nat)
    requires gran > 0 && ArenasFit(arenas, gran)
    ensures AllApart(Plan(arenas, gran), gran)
  {
    var plan := Plan(arenas, gran);
    PlanLength(arenas, gran);
    forall j, k | 0 <= j < k < |plan| ensures Apart(plan[j], plan[k], gran) {
      var a, p := SlotIs(arenas, gran, j);
      var b, q := SlotIs(arenas, gran, k);
      assert ArenaFits(arenas[a], gran) && ArenaFits(arenas[b], gran);
      GranuleInside(arenas[a].size, gran, p);
      GranuleInside(arenas[b].size, gran, q);
      if a == b {
        MulLe(p + 1, q, gran);
        assert (p + 1) * gran == p * gran + gran;
      }
    }
  }

  /**
   The plan is in the arenas, without overlap, and in the table, if and only if the windows' granules fit
   their arenas and all of them fit the table.
   */
  lemma PlanGoodIff(arenas: seq<Arena>, gran: nat)
    requires gran > 0
    ensures AllInArena(Plan(arenas, gran), arenas, gran) && AllApart(Plan(arenas, gran), gran)
      && InTable(|Plan(arenas, gran)|, NumSlots(arenas, gran))
      <==> ArenasFit(arenas, gran) && Carved(arenas, gran) <= NumSlots(arenas, gran)
  {
    InArenaIff(arenas, gran);
    PlanLength(arenas, gran);
    TableIff(Carved(arenas, gran), NumSlots(arenas, gran));
    if ArenasFit(arenas, gran) {
      FittingIsApart(arenas, gran);
    }
  }

  // ------------------------------------------------------------------ the loops

  datatype Window = Window(numa: nat, gpu: nat, isOverflow: bool, ids: seq<nat>)

  function Range(from: nat, n: nat): seq<nat> { seq(n, i requires 0 <= i => from + i) }

  function AllIds(ws: seq<Window>): seq<nat> {
    if ws == [] then [] else AllIds(ws[..|ws| - 1]) + ws[|ws| - 1].ids
  }

  /** The window of one piece; a piece smaller than a granule makes none. */
  function PieceWindow(p: Piece, gran: nat, numa: nat, next: nat): seq<Window>
    requires gran > 0
  {
    var n := Granules(p.bytes, gran);
    if n == 0 then [] else [Window(numa, p.gpu, p.isOverflow, Range(next, n))]
  }

  function ArenaWindows(ps: seq<Piece>, gran: nat, numa: nat, next: nat): seq<Window>
    requires gran > 0
  {
    if ps == [] then []
    else
      var init := ps[..|ps| - 1];
      ArenaWindows(init, gran, numa, next) + PieceWindow(ps[|ps| - 1], gran, numa, next + Count(init, gran))
  }

  function Windows(arenas: seq<Arena>, gran: nat): seq<Window>
    requires gran > 0
  {
    if arenas == [] then []
    else
      var n := |arenas| - 1;
      Windows(arenas[..n], gran) + ArenaWindows(Pieces(arenas[n]), gran, arenas[n].numa, Carved(arenas[..n], gran))
  }

  lemma {:induction false} IdsJoin(a: seq<Window>, b: seq<Window>)
    ensures AllIds(a + b) == AllIds(a) + AllIds(b)
    decreases |b|
  {
    if b == [] {
      assert a + b == a;
    } else {
      assert (a + b)[..|a + b| - 1] == a + b[..|b| - 1];
      IdsJoin(a, b[..|b| - 1]);
    }
  }

  /** `ids` are the `n` numbers from `from` on. */
  ghost predicate Covers(ids: seq<nat>, from: nat, n: nat) {
    |ids| == n && forall i | 0 <= i < n :: ids[i] == from + i
  }

  lemma IdsGrow(a: seq<Window>, b: seq<Window>, from: nat, mid: nat, n: nat)
    requires from <= mid && Covers(AllIds(a), from, mid - from) && Covers(AllIds(b), mid, n)
    ensures Covers(AllIds(a + b), from, mid - from + n)
  {
    IdsJoin(a, b);
  }

  lemma PieceIds(p: Piece, gran: nat, numa: nat, next: nat)
    requires gran > 0
    ensures Covers(AllIds(PieceWindow(p, gran, numa, next)), next, Granules(p.bytes, gran))
  {
    var w := PieceWindow(p, gran, numa, next);
    if w != [] {
      assert w[..0] == [];
      assert AllIds(w) == [] + w[0].ids;
    }
  }

  lemma OnePieceMore(ws: seq<Window>, c: nat, p: Piece, gran: nat, numa: nat, next: nat)
    requires gran > 0 && Covers(AllIds(ws), next, c)
    ensures Covers(AllIds(ws + PieceWindow(p, gran, numa, next + c)), next, c + Granules(p.bytes, gran))
  {
    PieceIds(p, gran, numa, next + c);
    IdsGrow(ws, PieceWindow(p, gran, numa, next + c), next, next + c, Granules(p.bytes, gran));
  }

  lemma {:induction false} ArenaIds(ps: seq<Piece>, gran: nat, numa: nat, next: nat)
    requires gran > 0
    ensures Covers(AllIds(ArenaWindows(ps, gran, numa, next)), next, Count(ps, gran))
    decreases |ps|
  {
    if ps == [] {
      assert ArenaWindows(ps, gran, numa, next) == [];
    } else {
      var init := ps[..|ps| - 1];
      ArenaIds(init, gran, numa, next);
      var ws, c, p := ArenaWindows(init, gran, numa, next), Count(init, gran), ps[|ps| - 1];
      OnePieceMore(ws, c, p, gran, numa, next);
      assert ArenaWindows(ps, gran, numa, next) == ws + PieceWindow(p, gran, numa, next + c);
    }
  }

  /** The windows hold the numbers of all slots in order, each once. */
  lemma {:induction false} WindowsCover(arenas: seq<Arena>, gran: nat)
    requires gran > 0
    ensures Covers(AllIds(Windows(arenas, gran)), 0, Carved(arenas, gran))
    decreases |arenas|
  {
    if arenas != [] {
      var init, last := arenas[..|arenas| - 1], arenas[|arenas| - 1];
      var mid := Carved(init, gran);
      WindowsCover(init, gran);
      ArenaIds(Pieces(last), gran, last.numa, mid);
      var a, b := Windows(init, gran), ArenaWindows(Pieces(last), gran, last.numa, mid);
      IdsGrow(a, b, 0, mid, Count(Pieces(last), gran));
      assert Windows(arenas, gran) == a + b;
    }
  }

  /** The window as the allocator sees it. */
  function AsAllocated(w: Window): Allocator.Window
    requires |w.ids| > 0
  {
    Allocator.Window(w.numa, w.gpu, w.isOverflow, w.ids[0], |w.ids|)
  }

  /** A window that the allocator can scan in a table of `n` slots: consecutive slots, all of them there. */
  ghost predicate Scannable(w: Window, n: nat) {
    |w.ids| > 0 && Covers(w.ids, w.ids[0], |w.ids|) && Allocator.WindowOk(AsAllocated(w), n)
  }

  ghost predicate AllScannable(ws: seq<Window>, n: nat) {
    forall i | 0 <= i < |ws| :: Scannable(ws[i], n)
  }

  lemma MoreScannable(a: seq<Window>, m: nat, b: seq<Window>, n: nat)
    requires AllScannable(a, m) && m <= n && AllScannable(b, n)
    ensures AllScannable(a + b, n)
  {
    forall i | 0 <= i < |a + b| ensures Scannable((a + b)[i], n) {
      if i < |a| {
        assert Scannable(a[i], m);
      } else {
        assert (a + b)[i] == b[i - |a|];
      }
    }
  }

  ghost predicate OverflowMarked(ps: seq<Piece>) {
    forall i | 0 <= i < |ps| :: ps[i].isOverflow ==> ps[i].gpu == Allocator.OVERFLOW_GPU
  }

  lemma {:induction false} ArenaScannable(ps: seq<Piece>, gran: nat, numa: nat, next: nat)
    requires gran > 0 && OverflowMarked(ps)
    ensures AllScannable(ArenaWindows(ps, gran, numa, next), next + Count(ps, gran))
    decreases |ps|
  {
    if ps != [] {
      var init, p := ps[..|ps| - 1], ps[|ps| - 1];
      ArenaScannable(init, gran, numa, next);
      var mid := next + Count(init, gran);
      var a, b := ArenaWindows(init, gran, numa, next), PieceWindow(p, gran, numa, mid);
      assert AllScannable(b, mid + Granules(p.bytes, gran));
      MoreScannable(a, mid, b, mid + Granules(p.bytes, gran));
      assert ArenaWindows(ps, gran, numa, next) == a + b;
    }
  }

  /** Every window of the plan is one the allocator can scan. */
  lemma {:induction false} WindowsScannable(arenas: seq<Arena>, gran: nat)
    requires gran > 0
    ensures AllScannable(Windows(arenas, gran), Carved(arenas, gran))
    decreases |arenas|
  {
    if arenas != [] {
      var init, last := arenas[..|arenas| - 1], arenas[|arenas| - 1];
      WindowsScannable(init, gran);
      ArenaScannable(Pieces(last), gran, last.numa, Carved(init, gran));
      var a, b := Windows(init, gran), ArenaWindows(Pieces(last), gran, last.numa, Carved(init, gran));
      MoreScannable(a, Carved(init, gran), b, Carved(arenas, gran));
      assert Windows(arenas, gran) == a + b;
    }
  }

  lemma NextOffset(q: nat, s: nat, gran: nat)
    ensures (Offset(q, gran) + s * gran) % W64 == Offset(q + s, gran)
  {
    OffsetIs(q, gran);
    OffsetIs(q + s, gran);
    AddThenWrap(q * gran, s * gran);
    assert q * gran + s * gran == (q + s) * gran;
  }

  method WholeGranulesIn(bytes: U64, gran: U64) returns (n: nat)
    requires gran > 0
    ensures n == Granules(bytes, gran)
  {
    GranulesIs(bytes, gran);
    n := bytes / gran;
  }

  /** The offset `s` granules after the cursor, in a 64-bit word. */
  method Ahead(cursor: nat, s: nat, gran: U64, ghost q: nat) returns (offset: nat)
    requires cursor == Offset(q, gran)
    ensures offset == Offset(q + s, gran)
  {
    NextOffset(q, s, gran);
    offset := (cursor + s * gran) % W64;
  }

  lemma OneSlotMore(was: seq<Slot>, want: seq<Slot>, s: nat)
    requires s < |want|
    ensures was + want[..s] + [want[s]] == was + want[..s + 1]
  {
  }

  /** Carve one piece, from slot number `next` on; `q` granules of the arena are taken. */
  method CarveWindow(p: Piece, gran: U64, arena: nat, numa: nat, cursor: nat, next: nat, slots: array<Slot>,
                     ghost q: nat)
    returns (cursor': nat, next': nat, ws: seq<Window>)
    requires gran > 0 && cursor == Offset(q, gran) && next + Granules(p.bytes, gran) <= slots.Length
    modifies slots
    ensures next' == next + Granules(p.bytes, gran) && cursor' == Offset(q + Granules(p.bytes, gran), gran)
    ensures slots[..next'] == old(slots[..next]) + PieceSlots(p, gran, arena, q)
    ensures ws == PieceWindow(p, gran, numa, next)
  {
    var n := WholeGranulesIn(p.bytes, gran);
    ghost var was, want := slots[..next], PieceSlots(p, gran, arena, q);
    var ids: seq<nat> := [];
    next' := next;
    for s := 0 to n
      invariant next' == next + s && ids == Range(next, s) && slots[..next'] == was + want[..s]
    {
      var offset := Ahead(cursor, s, gran, q);
      ghost var before := slots[..next'];
      slots[next'] := Slot(arena, offset, p.gpu, !p.isOverflow);
      assert slots[..next' + 1] == before + [want[s]];
      OneSlotMore(was, want, s);
      ids, next' := ids + [next'], next' + 1;
    }
    cursor' := Ahead(cursor, n, gran, q);
    ws := if n == 0 then [] else [Window(numa, p.gpu, p.isOverflow, ids)];
    assert want[..n] == want;
  }

  lemma CountNext(ps: seq<Piece>, gran: nat, k: nat)
    requires gran > 0 && k < |ps|
    ensures Count(ps[..k + 1], gran) == Count(ps[..k], gran) + Granules(ps[k].bytes, gran)
  {
    assert ps[..k + 1][..k] == ps[..k];
  }

  lemma PiecesNext(was: seq<Slot>, ps: seq<Piece>, gran: nat, arena: nat, k: nat)
    requires gran > 0 && k < |ps|
    ensures was + PiecesSlots(ps[..k], gran, arena) + PieceSlots(ps[k], gran, arena, Count(ps[..k], gran))
      == was + PiecesSlots(ps[..k + 1], gran, arena)
  {
    assert ps[..k + 1][..k] == ps[..k];
    SlotsAssoc(was, PiecesSlots(ps[..k], gran, arena), PieceSlots(ps[k], gran, arena, Count(ps[..k], gran)));
  }

  lemma SlotsAssoc(a: seq<Slot>, b: seq<Slot>, c: seq<Slot>)
    ensures a + b + c == a + (b + c)
  {
  }

  /** Where carving stands after the first `k` pieces of an arena that began with slot `first`. */
  ghost predicate Carving(ps: seq<Piece>, gran: nat, arena: nat, numa: nat, k: nat, cursor: nat, first: nat, next: nat,
                          was: seq<Slot>, now: seq<Slot>, ws: seq<Window>)
    requires gran > 0 && k <= |ps|
  {
    && next == first + Count(ps[..k], gran) && cursor == Offset(Count(ps[..k], gran), gran)
    && now == was + PiecesSlots(ps[..k], gran, arena) && ws == ArenaWindows(ps[..k], gran, numa, first)
  }

  lemma WindowsNext(ps: seq<Piece>, gran: nat, numa: nat, first: nat, k: nat)
    requires gran > 0 && k < |ps|
    ensures ArenaWindows(ps[..k], gran, numa, first) + PieceWindow(ps[k], gran, numa, first + Count(ps[..k], gran))
      == ArenaWindows(ps[..k + 1], gran, numa, first)
  {
    assert ps[..k + 1][..k] == ps[..k];
  }

  lemma CarvingNext(ps: seq<Piece>, gran: nat, arena: nat, numa: nat, k: nat, cursor: nat, first: nat, next: nat,
                    was: seq<Slot>, now: seq<Slot>, ws: seq<Window>)
    requires gran > 0 && k < |ps| && Carving(ps, gran, arena, numa, k, cursor, first, next, was, now, ws)
    ensures var q, n := Count(ps[..k], gran), Granules(ps[k].bytes, gran);
      Carving(ps, gran, arena, numa, k + 1, Offset(q + n, gran), first, next + n, was,
              now + PieceSlots(ps[k], gran, arena, q), ws + PieceWindow(ps[k], gran, numa, next))
  {
    CountNext(ps, gran, k);
    PiecesNext(was, ps, gran, arena, k);
    WindowsNext(ps, gran, numa, first, k);
  }

  /** Carve piece `k` of an arena after those before it. */
  method CarvePiece(ps: seq<Piece>, gran: U64, arena: nat, numa: nat, k: nat, cursor: nat, next: nat,
                    slots: array<Slot>,
                    ws: seq<Window>, ghost was: seq<Slot>, ghost first: nat)
    returns (cursor': nat, next': nat, ws': seq<Window>)
    requires gran > 0 && k < |ps| && first + Count(ps, gran) <= slots.Length && next <= slots.Length
    requires Carving(ps, gran, arena, numa, k, cursor, first, next, was, slots[..next], ws)
    modifies slots
    ensures next' <= slots.Length
    ensures Carving(ps, gran, arena, numa, k + 1, cursor', first, next', was, slots[..next'], ws')
  {
    CountNext(ps, gran, k);
    CountMonotone(ps, gran, k + 1);
    ghost var now := slots[..next];
    var more;
    cursor', next', more := CarveWindow(ps[k], gran, arena, numa, cursor, next, slots, Count(ps[..k], gran));
    CarvingNext(ps, gran, arena, numa, k, cursor, first, next, was, now, ws);
    ws' := ws + more;
  }

  lemma CarvingStarts(ps: seq<Piece>, gran: nat, arena: nat, numa: nat, first: nat, was: seq<Slot>)
    requires gran > 0
    ensures Carving(ps, gran, arena, numa, 0, 0, first, first, was, was, [])
  {
    assert was + [] == was;
  }

  /** Carve one arena. */
  method CarveArena(ps: seq<Piece>, gran: U64, arena: nat, numa: nat, next: nat, slots: array<Slot>)
    returns (next': nat, ws: seq<Window>)
    requires gran > 0 && next + Count(ps, gran) <= slots.Length
    modifies slots
    ensures next' == next + Count(ps, gran)
    ensures slots[..next'] == old(slots[..next]) + PiecesSlots(ps, gran, arena)
    ensures ws == ArenaWindows(ps, gran, numa, next)
  {
    var cursor := 0;
    next', ws := next, [];
    ghost var was := slots[..next];
    CarvingStarts(ps, gran, arena, numa, next, was);
    for k := 0 to |ps|
      invariant next' <= slots.Length && Carving(ps, gran, arena, numa, k, cursor, next, next', was, slots[..next'], ws)
    {
      cursor, next', ws := CarvePiece(ps, gran, arena, numa, k, cursor, next', slots, ws, was, next);
    }
    assert ps[..|ps|] == ps;
  }

  lemma {:induction false} CountMonotone(ps: seq<Piece>, gran: nat, k: nat)
    requires gran > 0 && k <= |ps|
    ensures Count(ps[..k], gran) <= Count(ps, gran)
    decreases |ps| - k
  {
    if k == |ps| {
      assert ps[..k] == ps;
    } else {
      CountNext(ps, gran, k);
      CountMonotone(ps, gran, k + 1);
    }
  }

  lemma {:induction false} CarvedMonotone(arenas: seq<Arena>, gran: nat, i: nat)
    requires gran > 0 && i <= |arenas|
    ensures Carved(arenas[..i], gran) <= Carved(arenas, gran)
    decreases |arenas| - i
  {
    if i == |arenas| {
      assert arenas[..i] == arenas;
    } else {
      PlanNext(arenas, gran, i);
      CarvedMonotone(arenas, gran, i + 1);
    }
  }

  lemma PlanNext(arenas: seq<Arena>, gran: nat, i: nat)
    requires gran > 0 && i < |arenas|
    ensures Carved(arenas[..i + 1], gran) == Carved(arenas[..i], gran) + Count(Pieces(arenas[i]), gran)
    ensures Plan(arenas[..i + 1], gran) == Plan(arenas[..i], gran) + PiecesSlots(Pieces(arenas[i]), gran, i)
    ensures Windows(arenas[..i + 1], gran)
      == Windows(arenas[..i], gran) + ArenaWindows(Pieces(arenas[i]), gran, arenas[i].numa, Carved(arenas[..i], gran))
  {
    assert arenas[..i + 1][..i] == arenas[..i];
  }

  /** Where the table stands after the first `i` arenas. */
  ghost predicate Filling(arenas: seq<Arena>, gran: nat, i: nat, next: nat, now: seq<Slot>, ws: seq<Window>)
    requires gran > 0 && i <= |arenas|
  {
    next == Carved(arenas[..i], gran) && now == Plan(arenas[..i], gran) && ws == Windows(arenas[..i], gran)
  }

  /** Carve arena `i` after those before it. */
  method PlanArena(arenas: seq<Arena>, gran: U64, i: nat, next: nat, slots: array<Slot>, ws: seq<Window>)
    returns (next': nat, ws': seq<Window>)
    requires gran > 0 && i < |arenas| && Carved(arenas, gran) <= slots.Length && next <= slots.Length
    requires Filling(arenas, gran, i, next, slots[..next], ws)
    modifies slots
    ensures next' <= slots.Length && Filling(arenas, gran, i + 1, next', slots[..next'], ws')
  {
    PlanNext(arenas, gran, i);
    CarvedMonotone(arenas, gran, i + 1);
    var more;
    next', more := CarveArena(Pieces(arenas[i]), gran, i, arenas[i].numa, next, slots);
    ws' := ws + more;
  }

  /** Fill the table. */
  method BuildSlotPlan(arenas: seq<Arena>, gran: U64, slots: array<Slot>) returns (next: nat, ws: seq<Window>)
    requires gran > 0 && Carved(arenas, gran) <= slots.Length < W32
    modifies slots
    ensures next == Carved(arenas, gran) && slots[..next] == Plan(arenas, gran)
    ensures ws == Windows(arenas, gran)
  {
    next, ws := 0, [];
    for i := 0 to |arenas|
      invariant next <= slots.Length && Filling(arenas, gran, i, next, slots[..next], ws)
    {
      next, ws := PlanArena(arenas, gran, i, next, slots, ws);
    }
    assert arenas[..|arenas|] == arenas;
  }

  // ------------------------------------------------- what validation guarantees

  /** No arena's windows add up to 2^64 bytes or more. */
  ghost predicate NoWrap(arenas: seq<Arena>) {
    forall i | 0 <= i < |arenas| :: Bytes(Pieces(arenas[i])) < W64
  }

  lemma UnwrappedFits(a: Arena, gran: nat)
    requires gran > 0 && Bytes(Pieces(a)) <= a.size
    ensures ArenaFits(a, gran)
  {
    CountBounds(Pieces(a), gran);
    WholeGranules(Count(Pieces(a), gran), a.size, gran);
  }

  lemma {:induction false} CarvedFits(arenas: seq<Arena>, gran: nat)
    requires gran > 0 && ArenasFit(arenas, gran)
    ensures Carved(arenas, gran) <= Capacity(arenas, gran)
    decreases |arenas|
  {
    if arenas != [] {
      var n := |arenas| - 1;
      assert ArenaFits(arenas[n], gran);
      assert ArenasFit(arenas[..n], gran);
      CarvedFits(arenas[..n], gran);
    }
  }

  /** An accepted configuration whose sums do not wrap gives a good plan. */
  lemma AcceptedIsGood(arenas: seq<Arena>, gran: nat)
    requires Accepted(arenas, gran) && NoWrap(arenas) && Capacity(arenas, gran) < W32
    ensures AllInArena(Plan(arenas, gran), arenas, gran) && AllApart(Plan(arenas, gran), gran)
    ensures InTable(|Plan(arenas, gran)|, NumSlots(arenas, gran))
  {
    forall i | 0 <= i < |arenas| ensures ArenaFits(arenas[i], gran) {
      var b := Bytes(Pieces(arenas[i]));
      ModUnique(b, W64, 0, b);
      UnwrappedFits(arenas[i], gran);
    }
    CarvedFits(arenas, gran);
    ModUnique(Capacity(arenas, gran), W32, 0, Capacity(arenas, gran));
    PlanGoodIff(arenas, gran);
  }

  /** Room for the granules lost in carving: always so for arenas of a real machine. */
  predicate Roomy(a: Arena, gran: nat) { a.size + (|a.windows| + 1) * gran <= W64 }

  lemma WrappedSticksOut(a: Arena, gran: nat)
    requires gran > 0 && Roomy(a, gran) && Bytes(Pieces(a)) >= W64
    ensures !ArenaFits(a, gran)
  {
    CountBounds(Pieces(a), gran);
    WholeGranules(Count(Pieces(a), gran), a.size, gran);
  }

  /** Of the accepted configurations, exactly those whose sums do not wrap stay inside their arenas. */
  lemma AcceptedInArenaIff(arenas: seq<Arena>, gran: nat)
    requires Accepted(arenas, gran) && forall i | 0 <= i < |arenas| :: Roomy(arenas[i], gran)
    ensures AllInArena(Plan(arenas, gran), arenas, gran) <==> NoWrap(arenas)
  {
    InArenaIff(arenas, gran);
    forall i | 0 <= i < |arenas| ensures ArenaFits(arenas[i], gran) <==> Bytes(Pieces(arenas[i])) < W64 {
      var b := Bytes(Pieces(arenas[i]));
      if b < W64 {
        ModUnique(b, W64, 0, b);
        UnwrappedFits(arenas[i], gran);
      } else {
        WrappedSticksOut(arenas[i], gran);
      }
    }
  }

  /** One arena of 1 GiB with two windows of 2^63 bytes is accepted, and its plan leaves the arena. */
  lemma WrapExample()
    ensures var half := 0x8000_0000_0000_0000;
      var arenas := [Arena(0, 0x4000_0000, [GpuWindow(0, half), GpuWindow(1, half)], 0)];
      Accepted(arenas, 0x100_0000) && !AllInArena(Plan(arenas, 0x100_0000), arenas, 0x100_0000)
  {
    var half := 0x8000_0000_0000_0000;
    var a := Arena(0, 0x4000_0000, [GpuWindow(0, half), GpuWindow(1, half)], 0);
    var ps := Pieces(a);
    assert ps == [Piece(0, false, half), Piece(1, false, half), Piece(Allocator.OVERFLOW_GPU, true, 0)];
    assert ps[..2] == [Piece(0, false, half), Piece(1, false, half)] && ps[..2][..1] == [Piece(0, false, half)];
    assert Bytes([Piece(0, false, half)]) == half;
    assert Bytes(ps[..2]) == W64;
    assert Bytes(Pieces([a][0])) == W64;
    ModUnique(W64, W64, 1, 0);
    AcceptedInArenaIff([a], 0x100_0000);
  }

  /** An arena of 2^52 bytes in granules of 1 MiB has 2^32 slots, which the table counts as none. */
  lemma TableExample()
    ensures var arenas := [Arena(0, 0x10_0000_0000_0000, [GpuWindow(0, 0x10_0000_0000_0000)], 0)];
      && Accepted(arenas, 0x10_0000) && NoWrap(arenas)
      && !InTable(|Plan(arenas, 0x10_0000)|, NumSlots(arenas, 0x10_0000))
  {
    var size, gran := 0x10_0000_0000_0000, 0x10_0000;
    var a := Arena(0, size, [GpuWindow(0, size)], 0);
    var ps, arenas := Pieces(a), [a];
    assert ps == [Piece(0, false, size), Piece(Allocator.OVERFLOW_GPU, true, 0)];
    assert ps[..1] == [Piece(0, false, size)] && ps[..1][..0] == [] && arenas[..0] == [];
    assert Bytes(ps[..1]) == size;
    assert Bytes(Pieces(arenas[0])) == size;
    GranulesIs(size, gran);
    assert Granules(0, gran) == 0;
    assert Count(ps[..1], gran) == W32;
    assert Count(ps, gran) == W32;
    assert Carved(arenas, gran) == W32 && Capacity(arenas, gran) == W32;
    ModUnique(W32, W32, 1, 0);
    PlanLength(arenas, gran);
    TableIff(W32, 0);
  }
}

/**
 The single-producer single-consumer completion ring: free-running 64-bit
 indices over a power-of-two array. `Ring` is the shared memory, `Pair` adds the
 two threads with every load, slot write and index store a step of its own.
 */
module CompletionRing {
  import opened Bits

  // -------------------------------------------------------------- capacity

  /** A 32-bit left shift by one. */
  function Shl32(p: nat): nat {
    2 * p % W32
  }

  function Shifted(n: nat): nat {
    if n == 0 then 1 else Shl32(Shifted(n - 1))
  }

  lemma {:induction false} ShiftedIs(n: nat)
    ensures Shifted(n) == if n < 32 then Pow2(n) else 0
  {
    if n > 0 {
      ShiftedIs(n - 1);
      if n < 32 {
        Doubles(n);
      } else if n == 32 {
        Pow2Of64();
      }
    }
  }

  lemma Doubles(n: nat)
    requires 0 < n < 32
    ensures Shl32(Pow2(n - 1)) == Pow2(n)
  {
    Pow2Of64();
    Pow2Monotone(n, 31);
    ModUnique(Pow2(n), W32, 0, Pow2(n));
  }

  /** The rounding loop leaves its body for some number of shifts exactly up to 2^31. */
  lemma RoundingTerminatesIff(cap: nat)
    requires cap < W32
    ensures (exists n :: Shifted(n) >= cap) <==> cap <= Pow2(31)
  {
    if cap <= Pow2(31) {
      ShiftedIs(31);
    } else {
      Pow2Of64();
      forall n ensures Shifted(n) < cap {
        ShiftedIs(n);
        if n < 32 {
          Pow2Monotone(n, 31);
        }
      }
    }
  }

  /** Rounds a configured capacity up to the least power of two that is at least 2. */
  method RoundCapacity(configured: nat) returns (p: nat, ghost e: nat)
    requires configured <= 0x8000_0000
    ensures 1 <= e <= 31 && p == Pow2(e) && p >= configured
    ensures forall f: nat | Pow2(f) >= configured && Pow2(f) >= 2 :: p <= Pow2(f)
  {
    var cap := if configured < 2 then 2 else configured;
    Pow2Of64();
    p, e := 1, 0;
    while p < cap
      invariant e <= 31 && p == Pow2(e)
      invariant forall f: nat | f < e :: Pow2(f) < cap
      decreases 31 - e
    {
      assert e < 31;
      Doubles(e + 1);
      p, e := Shl32(p), e + 1;
    }
    LeastPower(e, cap);
  }

  lemma LeastPower(e: nat, cap: nat)
    requires cap >= 2 && Pow2(e) >= cap && forall f: nat | f < e :: Pow2(f) < cap
    ensures e >= 1 && forall f: nat | Pow2(f) >= cap :: Pow2(e) <= Pow2(f)
  {
    assert Pow2(0) == 1;
    forall f: nat | Pow2(f) >= cap ensures Pow2(e) <= Pow2(f) {
      Pow2Monotone(e, f);
    }
  }

  // ---------------------------------------------------------- 64-bit indices

  /** Addition of 64-bit words. */
  function Add64(a: U64, b: U64): U64 {
    if a + b < W64 then a + b else a + b - W64
  }

  /** Subtraction of 64-bit words. */
  function Sub64(a: U64, b: U64): U64 {
    if b <= a then a - b else a - b + W64
  }

  // ---------------------------------------------------------------- memory

  /** The shared ring; `logCap` is the exponent of its capacity, indices are 64-bit. */
  datatype Ring<E> = Ring(logCap: nat, entries: seq<E>, head: U64, tail: U64) {
    function Cap(): nat { Pow2(logCap) }

    function Slot(index: U64): nat { And(index, Cap() - 1) }

    /** 64-bit difference tail - head. */
    function Pending(): nat { Sub64(tail, head) }

    predicate Shaped() {
      1 <= logCap <= 31 && |entries| == Cap()
    }

    predicate Valid() {
      Shaped() && Pending() <= Cap()
    }
  }

  lemma SlotInRange<E>(r: Ring<E>, index: U64)
    requires r.Shaped()
    ensures r.Slot(index) == index % r.Cap() < |r.entries|
  {
    MaskIsMod(index, r.logCap);
  }

  function EntryAt<E>(r: Ring<E>, index: U64): E
    requires r.Shaped()
  {
    SlotInRange(r, index);
    r.entries[r.Slot(index)]
  }

  /** The queue that the ring represents: pending entries, oldest first. */
  function Queue<E>(r: Ring<E>): (q: seq<E>)
    requires r.Shaped()
    ensures |q| == r.Pending()
  {
    seq(r.Pending(), k requires 0 <= k < r.Pending() => EntryAt(r, Add64(r.head, k)))
  }

  lemma CapRange(logCap: nat)
    requires 1 <= logCap <= 31
    ensures 2 <= Pow2(logCap) <= 0x8000_0000
  {
    Pow2Of64();
    Pow2Monotone(1, logCap);
    Pow2Monotone(logCap, 31);
  }

  lemma CapDivides(logCap: nat)
    requires 1 <= logCap <= 31
    ensures Pow2(64 - logCap) * Pow2(logCap) == W64
  {
    Pow2Of64();
    Pow2Add(64 - logCap, logCap);
  }

  /** Where the k-th entry after `head` lives, wrapped or not. */
  lemma SlotOf<E>(r: Ring<E>, k: nat)
    requires r.Shaped() && k < W64
    ensures r.Slot(Add64(r.head, k)) == (r.head + k) % r.Cap()
  {
    CapDivides(r.logCap);
    SlotInRange(r, Add64(r.head, k));
    if r.head + k >= W64 {
      ModUnique(r.head + k, W64, 1, Add64(r.head, k));
      WrapThenMod(r.head + k, r.Cap(), Pow2(64 - r.logCap));
    }
  }

  /** The slot the producer writes next is none of the pending ones. */
  lemma FreeSlotIsFree<E>(r: Ring<E>, k: nat)
    requires r.Valid() && k < r.Pending() < r.Cap()
    ensures r.Slot(r.tail) != r.Slot(Add64(r.head, k))
  {
    CapRange(r.logCap);
    assert Add64(r.head, r.Pending()) == r.tail;
    SlotOf(r, k);
    SlotOf(r, r.Pending());
    ModDistinct(r.head + k, r.head + r.Pending(), r.Cap());
  }

  /** Writing the free slot changes no pending entry. */
  lemma WriteKeepsQueue<E>(r: Ring<E>, e: E)
    requires r.Valid() && r.Pending() < r.Cap()
    ensures r.Slot(r.tail) < |r.entries|
    ensures Queue(r.(entries := r.entries[r.Slot(r.tail) := e])) == Queue(r)
  {
    SlotInRange(r, r.tail);
    var r' := r.(entries := r.entries[r.Slot(r.tail) := e]);
    forall k | 0 <= k < r.Pending() ensures Queue(r')[k] == Queue(r)[k] {
      FreeSlotIsFree(r, k);
      SlotInRange(r, Add64(r.head, k));
    }
  }

  /** Storing tail + 1 appends what the free slot holds. */
  lemma StoreTailAppends<E>(r: Ring<E>)
    requires r.Valid() && r.Pending() < r.Cap()
    ensures var r' := r.(tail := Add64(r.tail, 1));
      r'.Valid() && Queue(r') == Queue(r) + [EntryAt(r, r.tail)]
  {
    CapRange(r.logCap);
  }

  /** Storing head + 1 removes the oldest entry. */
  lemma StoreHeadRemoves<E>(r: Ring<E>)
    requires r.Valid() && r.Pending() > 0
    ensures var r' := r.(head := Add64(r.head, 1));
      r'.Valid() && Queue(r)[0] == EntryAt(r, r.head) && Queue(r') == Queue(r)[1..]
  {
    CapRange(r.logCap);
    var r' := r.(head := Add64(r.head, 1));
    assert forall k | 0 <= k < r'.Pending() :: Add64(r'.head, k) == Add64(r.head, k + 1);
  }

  // --------------------------------------------------------------- threads

  datatype Producer<E> = PIdle | PHasTail(e: E, t: U64) | PHasRoom(e: E, t: U64) | PWrote(e: E, t: U64)

  datatype Consumer<E> = CIdle | CHasHead(h: U64) | CHasEntry(h: U64) | CRead(h: U64, out: E)

  datatype Pair<E> = Pair(ring: Ring<E>, p: Producer<E>, c: Consumer<E>)

  datatype Step<E> =
    | LoadTail(e: E)      // producer starts a push
    | LoadHead            // producer checks for room
    | WriteSlot
    | StoreTail
    | LoadOwnHead         // consumer starts a pop
    | LoadTheirTail       // consumer checks for an entry
    | ReadSlot
    | StoreHead

  /** What a step means for the queue. */
  datatype Op<E> = Internal | Pushed(e: E) | Full | Popped(e: E) | Empty

  /** One atomic step of either thread; a step its thread is not at does nothing. */
  function Next<E>(s: Pair<E>, a: Step<E>): (Pair<E>, Op<E>)
    requires s.ring.Shaped()
  {
    var r := s.ring;
    match a
    case LoadTail(e) =>
      if s.p.PIdle? then (s.(p := PHasTail(e, r.tail)), Internal) else (s, Internal)
    case LoadHead =>
      if !s.p.PHasTail? then (s, Internal)
      else if Sub64(s.p.t, r.head) >= r.Cap() then (s.(p := PIdle), Full)
      else (s.(p := PHasRoom(s.p.e, s.p.t)), Internal)
    case WriteSlot =>
      if !s.p.PHasRoom? then (s, Internal)
      else
        SlotInRange(r, s.p.t);
        (s.(ring := r.(entries := r.entries[r.Slot(s.p.t) := s.p.e]), p := PWrote(s.p.e, s.p.t)), Internal)
    case StoreTail =>
      if !s.p.PWrote? then (s, Internal)
      else (s.(ring := r.(tail := Add64(s.p.t, 1)), p := PIdle), Pushed(s.p.e))
    case LoadOwnHead =>
      if s.c.CIdle? then (s.(c := CHasHead(r.head)), Internal) else (s, Internal)
    case LoadTheirTail =>
      if !s.c.CHasHead? then (s, Internal)
      else if s.c.h == r.tail then (s.(c := CIdle), Empty)
      else (s.(c := CHasEntry(s.c.h)), Internal)
    case ReadSlot =>
      if !s.c.CHasEntry? then (s, Internal)
      else (s.(c := CRead(s.c.h, EntryAt(r, s.c.h))), Internal)
    case StoreHead =>
      if !s.c.CRead? then (s, Internal)
      else (s.(ring := r.(head := Add64(s.c.h, 1)), c := CIdle), Popped(s.c.out))
  }

  /** The specification: a bounded first-in first-out queue. */
  ghost predicate FifoStep<E>(cap: nat, q: seq<E>, op: Op<E>, q': seq<E>) {
    match op
    case Internal => q' == q
    case Pushed(e) => |q| < cap && q' == q + [e]
    case Full => |q| == cap && q' == q
    case Popped(e) => q != [] && e == q[0] && q' == q[1..]
    case Empty => q == [] && q' == q
  }

  ghost predicate ProducerInv<E>(s: Pair<E>)
    requires s.ring.Valid()
  {
    match s.p
    case PIdle => true
    case PHasTail(e, t) => t == s.ring.tail
    case PHasRoom(e, t) => t == s.ring.tail && s.ring.Pending() < s.ring.Cap()
    case PWrote(e, t) => t == s.ring.tail && s.ring.Pending() < s.ring.Cap() && EntryAt(s.ring, t) == e
  }

  ghost predicate ConsumerInv<E>(s: Pair<E>)
    requires s.ring.Valid()
  {
    match s.c
    case CIdle => true
    case CHasHead(h) => h == s.ring.head
    case CHasEntry(h) => h == s.ring.head && s.ring.Pending() > 0
    case CRead(h, out) => h == s.ring.head && s.ring.Pending() > 0 && Queue(s.ring)[0] == out
  }

  ghost predicate PairInv<E>(s: Pair<E>) {
    s.ring.Valid() && ProducerInv(s) && ConsumerInv(s)
  }

  lemma ProducerStep<E>(s: Pair<E>, a: Step<E>)
    requires PairInv(s) && (a.LoadTail? || a.LoadHead? || a.WriteSlot? || a.StoreTail?)
    ensures var (s', op) := Next(s, a);
      PairInv(s') && s'.ring.logCap == s.ring.logCap && FifoStep(s.ring.Cap(), Queue(s.ring), op, Queue(s'.ring))
  {
    var r := s.ring;
    if a.WriteSlot? && s.p.PHasRoom? {
      WriteKeepsQueue(r, s.p.e);
    } else if a.StoreTail? && s.p.PWrote? {
      StoreTailAppends(r);
    }
  }

  lemma ConsumerStep<E>(s: Pair<E>, a: Step<E>)
    requires PairInv(s) && (a.LoadOwnHead? || a.LoadTheirTail? || a.ReadSlot? || a.StoreHead?)
    ensures var (s', op) := Next(s, a);
      PairInv(s') && s'.ring.logCap == s.ring.logCap && FifoStep(s.ring.Cap(), Queue(s.ring), op, Queue(s'.ring))
  {
    var r := s.ring;
    if r.Pending() > 0 {
      StoreHeadRemoves(r);
    }
  }

  /** Every step of either thread is a step of the bounded queue that the memory represents. */
  lemma StepRefines<E>(s: Pair<E>, a: Step<E>)
    requires PairInv(s)
    ensures var (s', op) := Next(s, a);
      PairInv(s') && s'.ring.logCap == s.ring.logCap && FifoStep(s.ring.Cap(), Queue(s.ring), op, Queue(s'.ring))
  {
    if a.LoadTail? || a.LoadHead? || a.WriteSlot? || a.StoreTail? {
      ProducerStep(s, a);
    } else {
      ConsumerStep(s, a);
    }
  }

  // ------------------------------------------------------------------ runs

  ghost predicate Start<E>(s: Pair<E>) {
    s.ring.Shaped() && s.ring.head == s.ring.tail && s.p.PIdle? && s.c.CIdle?
  }

  /** Final state and operations of a run; the steps of both threads come in any order. */
  ghost function Exec<E>(s: Pair<E>, acts: seq<Step<E>>): (Pair<E>, seq<Op<E>>)
    requires PairInv(s)
    decreases |acts|
  {
    if acts == [] then (s, [])
    else
      StepRefines(s, acts[0]);
      var (s1, op) := Next(s, acts[0]);
      var (s2, ops) := Exec(s1, acts[1..]);
      (s2, [op] + ops)
  }

  function PushedIn<E>(ops: seq<Op<E>>): seq<E> {
    if ops == [] then [] else (if ops[0].Pushed? then [ops[0].e] else []) + PushedIn(ops[1..])
  }

  function PoppedIn<E>(ops: seq<Op<E>>): seq<E> {
    if ops == [] then [] else (if ops[0].Popped? then [ops[0].e] else []) + PoppedIn(ops[1..])
  }

  /**
   Over every interleaving, starting at any index values: what was pending at the start followed by
   what was pushed is what was popped followed by what is pending at the end, in that order.
   */
  lemma {:induction false} RunIsFifo<E>(s: Pair<E>, acts: seq<Step<E>>)
    requires PairInv(s)
    ensures var (s', ops) := Exec(s, acts);
      PairInv(s') && Queue(s.ring) + PushedIn(ops) == PoppedIn(ops) + Queue(s'.ring)
    decreases |acts|
  {
    if acts != [] {
      StepRefines(s, acts[0]);
      var (s1, op) := Next(s, acts[0]);
      RunIsFifo(s1, acts[1..]);
      var (s', ops) := Exec(s1, acts[1..]);
      assert ([op] + ops)[1..] == ops;
      ConsOps(op, ops, Queue(s.ring), Queue(s1.ring), Queue(s'.ring), s.ring.Cap());
    }
  }

  lemma ConsOps<E>(op: Op<E>, ops: seq<Op<E>>, q: seq<E>, q1: seq<E>, q': seq<E>, cap: nat)
    requires FifoStep(cap, q, op, q1) && q1 + PushedIn(ops) == PoppedIn(ops) + q'
    ensures q + PushedIn([op] + ops) == PoppedIn([op] + ops) + q'
  {
    assert ([op] + ops)[1..] == ops;
    if op.Pushed? {
      assert q + ([op.e] + PushedIn(ops)) == q1 + PushedIn(ops);
    } else if op.Popped? {
      assert q == [q[0]] + q1;
      assert q + PushedIn(ops) == [q[0]] + (q1 + PushedIn(ops));
      assert PushedIn([op] + ops) == PushedIn(ops);
      assert [op.e] + PoppedIn(ops) + q' == [op.e] + (PoppedIn(ops) + q');
    } else {
      assert PushedIn([op] + ops) == PushedIn(ops) && PoppedIn([op] + ops) == PoppedIn(ops);
    }
  }

  /** From an empty ring, the consumer has received exactly a prefix of what the producer published. */
  lemma NothingLostOrReordered<E>(s: Pair<E>, acts: seq<Step<E>>)
    requires Start(s)
    ensures s.ring.Valid() && PairInv(s)
    ensures var (s', ops) := Exec(s, acts);
      && PoppedIn(ops) <= PushedIn(ops) && s'.ring.Valid()
      && PushedIn(ops) == PoppedIn(ops) + Queue(s'.ring)
  {
    CapRange(s.ring.logCap);
    RunIsFifo(s, acts);
    var (s', ops) := Exec(s, acts);
    assert Queue(s.ring) + PushedIn(ops) == PushedIn(ops);
  }

  // ---------------------------------------------------------------- object

  /** The ring as each side calls it, when no call of the other side overlaps. */
  class RingBuffer<E> {
    const logCap: nat
    const entries: array<E>
    var head: U64
    var tail: U64

    ghost function View(): Ring<E>
      reads this, entries
    {
      Ring(logCap, entries[..], head, tail)
    }

    ghost predicate Valid()
      reads this, entries
    {
      View().Valid()
    }

    constructor (logCap: nat, fill: E, start: U64)
      requires 1 <= logCap <= 31
      ensures Valid() && fresh(entries) && Queue(View()) == []
    {
      this.logCap := logCap;
      entries := new E[Pow2(logCap)](_ => fill);
      head, tail := start, start;
    }

    method Push(e: E) returns (ok: bool)
      requires Valid()
      modifies this, entries
      ensures Valid() && (ok <==> |old(Queue(View()))| < Pow2(logCap))
      ensures Queue(View()) == if ok then old(Queue(View())) + [e] else old(Queue(View()))
    {
      ghost var r := View();
      if Sub64(tail, head) >= Pow2(logCap) {
        return false;
      }
      SlotInRange(r, tail);
      WriteKeepsQueue(r, e);
      entries[And(tail, Pow2(logCap) - 1)] := e;
      assert View() == r.(entries := r.entries[r.Slot(r.tail) := e]);
      StoreTailAppends(View());
      tail := Add64(tail, 1);
      ok := true;
    }

    method Pop() returns (out: seq<E>)
      requires Valid()
      modifies this
      ensures Valid() && |out| <= 1 && (out == [] <==> old(Queue(View())) == [])
      ensures old(Queue(View())) == out + Queue(View())
    {
      ghost var r := View();
      if head == tail {
        return [];
      }
      StoreHeadRemoves(r);
      SlotInRange(r, head);
      out := [entries[And(head, Pow2(logCap) - 1)]];
      head := Add64(head, 1);
    }
  }
}

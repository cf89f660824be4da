/**
 D2H completions reach the daemon through three paths (shared-memory ring, batch
 RPC, single RPC) and in any order. The order does not matter.
 */
module Commute {
  import opened SlotTable
  import opened DaemonState
  import opened DaemonInv

  /** Equal in everything but the order of the drain queue. */
  ghost predicate SameUpToQueueOrder(a: Daemon, b: Daemon) {
    && multiset(a.queue) == multiset(b.queue)
    && a.(queue := []) == b.(queue := [])
  }

  /** Number of completions of `cs` that are accepted when applied in this order. */
  function Accepted(d: Daemon, cs: seq<Completion>): nat
    decreases |cs|
  {
    if cs == [] then 0
    else (if Accepts(d, cs[0]) then 1 else 0) + Accepted(Complete(d, cs[0], false), cs[1..])
  }

  /** Completions of different leases that can both be accepted are for different (tensor, version). */
  ghost predicate PairsDistinct(d: Daemon, cs: seq<Completion>) {
    forall x, y | x in cs && y in cs && Accepts(d, x) && Accepts(d, y) && x.lease != y.lease ::
      (x.tensor, x.version) != (y.tensor, y.version)
  }

  // -------------------------------------------------------------- congruence

  lemma CompleteCongruent(a: Daemon, b: Daemon, c: Completion)
    requires SameUpToQueueOrder(a, b)
    ensures Accepts(a, c) == Accepts(b, c)
    ensures SameUpToQueueOrder(Complete(a, c, false), Complete(b, c, false))
  {
    assert a == b.(queue := a.queue);
  }

  lemma {:induction false} AllCongruent(a: Daemon, b: Daemon, cs: seq<Completion>)
    requires SameUpToQueueOrder(a, b)
    ensures SameUpToQueueOrder(CompleteAll(a, cs), CompleteAll(b, cs))
    ensures Accepted(a, cs) == Accepted(b, cs)
    decreases |cs|
  {
    if cs != [] {
      CompleteCongruent(a, b, cs[0]);
      AllCongruent(Complete(a, cs[0], false), Complete(b, cs[0], false), cs[1..]);
    }
  }

  // --------------------------------------------------------- adjacent swaps

  /** A completion only affects the acceptance of completions of its own lease. */
  lemma AcceptsAfter(d: Daemon, g: Grants, x: Completion, y: Completion)
    requires TableInv(d.slots, g) && LeaseInv(d.slots, d.leases, g)
    ensures Accepts(Complete(d, x, false), y) <==> Accepts(d, y) && !(Accepts(d, x) && x.lease == y.lease)
  {
    if Accepts(d, x) && y.lease in d.leases {
      var i := d.leases[y.lease].base;
      assert Held(d.slots, g, x.lease) && Held(d.slots, g, y.lease);
      CoversIffTagged(d.slots, g, x.lease, i);
    }
  }

  lemma SlotsCommute(slots: seq<Slot>, A: Lease, B: Lease, st: SlotState)
    ensures SetState(SetState(slots, A.base, A.count, st), B.base, B.count, st)
         == SetState(SetState(slots, B.base, B.count, st), A.base, A.count, st)
  {
  }

  lemma LocationsCommute(locs: map<nat, Location>, A: Lease, B: Lease)
    requires (A.tensor, A.version) != (B.tensor, B.version)
    ensures var upd := (m: map<nat, Location>, L: Lease) =>
              UpdateLocation(m, L.tensor, L.version, LocPinned, L.base, 0, L.nbytes);
      upd(upd(locs, A), B) == upd(upd(locs, B), A)
  {
  }

  lemma Swap(d: Daemon, g: Grants, x: Completion, y: Completion)
    requires TableInv(d.slots, g) && LeaseInv(d.slots, d.leases, g)
    requires Accepts(d, x) && Accepts(d, y) && x.lease != y.lease ==> (x.tensor, x.version) != (y.tensor, y.version)
    ensures SameUpToQueueOrder(CompleteAll(d, [x, y]), CompleteAll(d, [y, x]))
    ensures Accepted(d, [x, y]) == Accepted(d, [y, x])
  {
    AcceptsAfter(d, g, x, y);
    AcceptsAfter(d, g, y, x);
    var dx, dy := Complete(d, x, false), Complete(d, y, false);
    Two(d, x, y);
    Two(d, y, x);
    if Accepts(d, x) && Accepts(d, y) && x.lease != y.lease {
      var A, B := d.leases[x.lease], d.leases[y.lease];
      SlotsCommute(d.slots, A, B, if d.cfg.drainOnComplete then DrainInFlight else PinnedValid);
      LocationsCommute(d.locations, A, B);
    }
  }

  lemma Two(d: Daemon, x: Completion, y: Completion)
    ensures CompleteAll(d, [x, y]) == Complete(Complete(d, x, false), y, false)
    ensures Accepted(d, [x, y]) == (if Accepts(d, x) then 1 else 0) + (if Accepts(Complete(d, x, false),
      y) then 1 else 0)
  {
    assert [x, y][1..] == [y] && [y][1..] == [];
    var d1 := Complete(d, x, false);
    assert CompleteAll(d1, [y]) == CompleteAll(Complete(d1, y, false), []);
    assert Accepted(d1, [y]) == (if Accepts(d1, y) then 1 else 0) + Accepted(Complete(d1, y, false), []);
  }

  lemma One(d: Daemon, x: Completion)
    ensures CompleteAll(d, [x]) == Complete(d, x, false)
    ensures Accepted(d, [x]) == if Accepts(d, x) then 1 else 0
  {
    assert [x][1..] == [];
    assert CompleteAll(d, [x]) == CompleteAll(Complete(d, x, false), []);
  }

  lemma {:induction false} AllConcat(d: Daemon, xs: seq<Completion>, ys: seq<Completion>)
    ensures CompleteAll(d, xs + ys) == CompleteAll(CompleteAll(d, xs), ys)
    ensures Accepted(d, xs + ys) == Accepted(d, xs) + Accepted(CompleteAll(d, xs), ys)
    decreases |xs|
  {
    if xs == [] {
      assert xs + ys == ys;
    } else {
      assert (xs + ys)[1..] == xs[1..] + ys;
      AllConcat(Complete(d, xs[0], false), xs[1..], ys);
    }
  }

  lemma DistinctAfter(d: Daemon, g: Grants, c: Completion, cs: seq<Completion>)
    requires TableInv(d.slots, g) && LeaseInv(d.slots, d.leases, g) && PairsDistinct(d, cs)
    ensures PairsDistinct(Complete(d, c, false), cs)
  {
    var d' := Complete(d, c, false);
    forall x | x in cs && Accepts(d', x) ensures Accepts(d, x) {
      AcceptsAfter(d, g, c, x);
    }
  }

  lemma Cons(d: Daemon, x: Completion, r: seq<Completion>)
    ensures CompleteAll(d, [x] + r) == CompleteAll(Complete(d, x, false), r)
    ensures Accepted(d, [x] + r) == (if Accepts(d, x) then 1 else 0) + Accepted(Complete(d, x, false), r)
  {
    assert ([x] + r)[1..] == r;
  }

  lemma SwapFront(d: Daemon, g: Grants, x: Completion, y: Completion, r: seq<Completion>)
    requires TableInv(d.slots, g) && LeaseInv(d.slots, d.leases, g)
    requires Accepts(d, x) && Accepts(d, y) && x.lease != y.lease ==> (x.tensor, x.version) != (y.tensor, y.version)
    ensures SameUpToQueueOrder(CompleteAll(d, [x, y] + r), CompleteAll(d, [y, x] + r))
    ensures Accepted(d, [x, y] + r) == Accepted(d, [y, x] + r)
  {
    AllConcat(d, [x, y], r);
    AllConcat(d, [y, x], r);
    Swap(d, g, x, y);
    AllCongruent(CompleteAll(d, [x, y]), CompleteAll(d, [y, x]), r);
  }

  /** A completion may be moved to the front of the batch. */
  lemma {:induction false} MoveToFront(d: Daemon, g: Grants, p: seq<Completion>, c: Completion, q: seq<Completion>)
    requires CoreInv(d, g) && PairsDistinct(d, p + [c])
    ensures SameUpToQueueOrder(CompleteAll(d, p + [c] + q), CompleteAll(d, [c] + p + q))
    ensures Accepted(d, p + [c] + q) == Accepted(d, [c] + p + q)
    decreases |p|
  {
    if p == [] {
      assert p + [c] + q == [c] + p + q;
    } else {
      var x, p' := p[0], p[1..];
      assert x in p + [c] && c in p + [c];
      Rearrange(p, c, q);
      SwapFront(d, g, x, c, p' + q);
      Cons(d, x, [c] + p' + q);
      Cons(d, x, p' + [c] + q);
      CoreComplete(d, g, x, false);
      DistinctTail(d, g, p, c);
      MoveToFront(Complete(d, x, false), g, p', c, q);
    }
  }

  lemma Rearrange(p: seq<Completion>, c: Completion, q: seq<Completion>)
    requires p != []
    ensures [c] + p + q == [c, p[0]] + (p[1..] + q)
    ensures [p[0], c] + (p[1..] + q) == [p[0]] + ([c] + p[1..] + q)
    ensures p + [c] + q == [p[0]] + (p[1..] + [c] + q)
  {
  }

  lemma DistinctTail(d: Daemon, g: Grants, p: seq<Completion>, c: Completion)
    requires TableInv(d.slots, g) && LeaseInv(d.slots, d.leases, g) && PairsDistinct(d, p + [c]) && p != []
    ensures PairsDistinct(Complete(d, p[0], false), p[1..] + [c])
  {
    DistinctAfter(d, g, p[0], p + [c]);
    assert forall x | x in p[1..] + [c] :: x in p + [c];
  }

  /** The head of one batch occurs in any permutation of it; the rests are permutations too. */
  lemma SplitPermutation(xs: seq<Completion>, ys: seq<Completion>) returns (p: seq<Completion>, q: seq<Completion>)
    requires xs != [] && multiset(xs) == multiset(ys)
    ensures ys == p + [xs[0]] + q
    ensures multiset(xs[1..]) == multiset(p + q)
    ensures forall x | x in p + [xs[0]] :: x in xs
  {
    var c := xs[0];
    assert c in multiset(ys);
    var k :| 0 <= k < |ys| && ys[k] == c;
    p, q := ys[..k], ys[k + 1..];
    assert ys == p + [c] + q && xs == [c] + xs[1..];
    CancelOne(c, xs[1..], p, q);
    forall x | x in p + [c] ensures x in xs {
      assert x in multiset(ys);
    }
  }

  lemma CancelOne(c: Completion, r: seq<Completion>, p: seq<Completion>, q: seq<Completion>)
    requires multiset([c] + r) == multiset(p + [c] + q)
    ensures multiset(r) == multiset(p + q)
  {
    assert multiset(r) == multiset([c] + r) - multiset{c};
    assert multiset(p + q) == multiset(p + [c] + q) - multiset{c};
  }

  /**
   Any permutation of a batch of completions, duplicates included, accepts the same number and
   leaves the same slots, leases, locations and multiset of drain jobs.
   */
  lemma {:induction false} CompletionsCommute(d: Daemon, g: Grants, xs: seq<Completion>, ys: seq<Completion>)
    requires CoreInv(d, g) && PairsDistinct(d, xs)
    requires multiset(xs) == multiset(ys)
    ensures SameUpToQueueOrder(CompleteAll(d, xs), CompleteAll(d, ys))
    ensures Accepted(d, xs) == Accepted(d, ys)
    decreases |xs|
  {
    if xs == [] {
      assert |multiset(ys)| == 0;
    } else {
      var c := xs[0];
      var p, q := SplitPermutation(xs, ys);
      MoveToFront(d, g, p, c, q);
      assert [c] + p + q == [c] + (p + q);
      Cons(d, c, p + q);
      CoreComplete(d, g, c, false);
      DistinctRest(d, g, xs);
      CompletionsCommute(Complete(d, c, false), g, xs[1..], p + q);
    }
  }

  lemma DistinctRest(d: Daemon, g: Grants, xs: seq<Completion>)
    requires TableInv(d.slots, g) && LeaseInv(d.slots, d.leases, g) && PairsDistinct(d, xs) && xs != []
    ensures PairsDistinct(Complete(d, xs[0], false), xs[1..])
  {
    DistinctAfter(d, g, xs[0], xs);
  }

  // ------------------------------------------------------------ the outcome

  lemma {:induction false} VersionsGrow(d: Daemon, cs: seq<Completion>, t: nat)
    requires t in d.locations
    ensures t in CompleteAll(d, cs).locations && CompleteAll(d, cs).locations[t].version >= d.locations[t].version
    decreases |cs|
  {
    if cs != [] {
      VersionsGrow(Complete(d, cs[0], false), cs[1..], t);
    }
  }

  /** The batch accepts a completion that published version `v` of `t` at `slot`. */
  ghost predicate Publishes(d: Daemon, cs: seq<Completion>, t: nat, loc: Location) {
    exists c :: c in cs && c.tensor == t && Accepts(d, c)
                && loc.version == c.version && loc.kind == LocPinned && loc.slot == c.slot
  }

  /** A batch leaves each tensor at least at every version the batch had accepted. */
  lemma {:induction false} BatchReachesAccepted(d: Daemon, g: Grants, cs: seq<Completion>, c: Completion)
    requires CoreInv(d, g) && c in cs && Accepts(d, c)
    ensures var locs := CompleteAll(d, cs).locations;
      c.tensor in locs && locs[c.tensor].version >= c.version
    decreases |cs|
  {
    var d1 := Complete(d, cs[0], false);
    CoreComplete(d, g, cs[0], false);
    AcceptsAfter(d, g, cs[0], c);
    if Accepts(d1, c) && c in cs[1..] {
      BatchReachesAccepted(d1, g, cs[1..], c);
    } else {
      VersionsGrow(d1, cs[1..], c.tensor);
    }
  }

  /** ... and only at its old location or one that the batch published. */
  lemma {:induction false} BatchPublishesOnlyAccepted(d: Daemon, g: Grants, cs: seq<Completion>, t: nat)
    requires CoreInv(d, g) && t in CompleteAll(d, cs).locations
    ensures var loc := CompleteAll(d, cs).locations[t];
      (t in d.locations && loc == d.locations[t]) || Publishes(d, cs, t, loc)
    decreases |cs|
  {
    if cs != [] {
      var c0, d1 := cs[0], Complete(d, cs[0], false);
      CoreComplete(d, g, c0, false);
      BatchPublishesOnlyAccepted(d1, g, cs[1..], t);
      var loc := CompleteAll(d, cs).locations[t];
      if Publishes(d1, cs[1..], t, loc) {
        var c :| c in cs[1..] && c.tensor == t && Accepts(d1, c)
                 && loc.version == c.version && loc.kind == LocPinned && loc.slot == c.slot;
        AcceptsAfter(d, g, c0, c);
        assert c in cs;
      } else if !(t in d.locations && loc == d.locations[t]) {
        assert c0 in cs && Accepts(d, c0) && c0.tensor == t;
      }
    }
  }

  /** A batch leaves each tensor at the largest of its old version and those the batch had accepted. */
  lemma BatchPublishesNewest(d: Daemon, g: Grants, cs: seq<Completion>, t: nat)
    requires CoreInv(d, g)
    ensures var locs := CompleteAll(d, cs).locations;
      && (forall c | c in cs && c.tensor == t && Accepts(d, c) :: t in locs && locs[t].version >= c.version)
      && (t in locs ==> (t in d.locations && locs[t] == d.locations[t]) || Publishes(d, cs, t, locs[t]))
  {
    var locs := CompleteAll(d, cs).locations;
    forall c | c in cs && c.tensor == t && Accepts(d, c) ensures t in locs && locs[t].version >= c.version {
      BatchReachesAccepted(d, g, cs, c);
    }
    if t in locs {
      BatchPublishesOnlyAccepted(d, g, cs, t);
    }
  }

  /** Leases the batch names acceptably in state `d`. */
  function AcceptedLeases(d: Daemon, cs: seq<Completion>): set<nat> {
    set c | c in cs && Accepts(d, c) :: c.lease
  }

  lemma AcceptedLeasesStep(d: Daemon, g: Grants, c0: Completion, r: seq<Completion>)
    requires TableInv(d.slots, g) && LeaseInv(d.slots, d.leases, g)
    ensures AcceptedLeases(d, [c0] + r)
         == (if Accepts(d, c0) then {c0.lease} else {}) + AcceptedLeases(Complete(d, c0, false), r)
    ensures Accepts(d, c0) ==> c0.lease !in AcceptedLeases(Complete(d, c0, false), r)
  {
    forall c ensures Accepts(Complete(d, c0, false), c) <==> Accepts(d, c) && !(Accepts(d, c0) && c0.lease == c.lease) {
      AcceptsAfter(d, g, c0, c);
    }
  }

  /** The number accepted is the number of distinct leases the batch names acceptably. */
  lemma {:induction false} AcceptedCountsLeases(d: Daemon, g: Grants, cs: seq<Completion>)
    requires CoreInv(d, g)
    ensures Accepted(d, cs) == |AcceptedLeases(d, cs)|
    decreases |cs|
  {
    if cs != [] {
      CoreComplete(d, g, cs[0], false);
      AcceptedCountsLeases(Complete(d, cs[0], false), g, cs[1..]);
      AcceptedLeasesStep(d, g, cs[0], cs[1..]);
      assert [cs[0]] + cs[1..] == cs;
    }
  }

  /** Two leases for one (tensor, version) are why distinct pairs are needed: the last one wins. */
  lemma SamePairLastWins(d: Daemon, g: Grants, x: Completion, y: Completion)
    requires CoreInv(d, g) && Accepts(d, x) && Accepts(d, y) && x.lease != y.lease
    requires x.tensor == y.tensor && x.version == y.version
    requires x.tensor in d.locations ==> d.locations[x.tensor].version <= x.version
    ensures !SameUpToQueueOrder(CompleteAll(d, [x, y]), CompleteAll(d, [y, x]))
  {
    Two(d, x, y);
    Two(d, y, x);
    AcceptsAfter(d, g, x, y);
    AcceptsAfter(d, g, y, x);
    assert Held(d.slots, g, x.lease) && Held(d.slots, g, y.lease);
    assert CompleteAll(d, [x, y]).locations[x.tensor].slot == y.slot;
    assert CompleteAll(d, [y, x]).locations[x.tensor].slot == x.slot;
  }
}

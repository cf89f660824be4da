/**
 Sessions that end: recovery reclaims exactly the unfinished runs, and a
 (rank, epoch) that has been invalidated can never act again.
 */
module Fencing {
  import opened SlotTable
  import opened DaemonState
  import opened DaemonInv
  import opened Durability

  // --------------------------------------------------------------- recovery

  /** Lease `id` belongs to the dead session and recovery visits it. */
  ghost predicate Visited(d: Daemon, rank: nat, epoch: nat, order: seq<nat>, id: nat) {
    id in d.leases && OwnedBy(d.leases[id], rank, epoch) && id in order
  }

  ghost predicate RecoveredSlots(d: Daemon, slots': seq<Slot>, rank: nat, epoch: nat, order: seq<nat>) {
    && |slots'| == |d.slots|
    && (forall i | 0 <= i < |d.slots| ::
          slots'[i] ==
            if Visited(d, rank, epoch, order, d.slots[i].lease) && !RecoveryKeeps(d.slots[i].state)
            then FreeSlot else d.slots[i])
  }

  ghost predicate RecoveredLeases(d: Daemon, leases': map<nat, Lease>, rank: nat, epoch: nat, order: seq<nat>) {
    && (forall id :: id in leases' <==> id in d.leases && !Visited(d, rank, epoch, order, id))
    && (forall id | id in leases' :: leases'[id] == d.leases[id])
  }

  /** Closed form of recovery, whatever the order of the visit. */
  ghost predicate Recovered(d: Daemon, d': Daemon, rank: nat, epoch: nat, order: seq<nat>) {
    && RecoveredSlots(d, d'.slots, rank, epoch, order)
    && RecoveredLeases(d, d'.leases, rank, epoch, order)
    && d' == d.(slots := d'.slots, leases := d'.leases, used := d'.used)
  }

  lemma RecoverOneSlots(d: Daemon, g: Grants, rank: nat, epoch: nat, id: nat)
    requires TableInv(d.slots, g) && LeaseInv(d.slots, d.leases, g)
    ensures RecoveredSlots(d, RecoverLease(d, rank, epoch, id).slots, rank, epoch, [id])
  {
    if id in d.leases && OwnedBy(d.leases[id], rank, epoch) {
      assert Held(d.slots, g, id);
      forall i | 0 <= i < |d.slots|
        ensures SlotInv(d.slots, g, i) && (d.leases[id].Covers(i) <==> d.slots[i].lease == id)
      {
        CoversIffTagged(d.slots, g, id, i);
      }
    }
  }

  lemma RecoverOneLeases(d: Daemon, rank: nat, epoch: nat, id: nat)
    ensures RecoveredLeases(d, RecoverLease(d, rank, epoch, id).leases, rank, epoch, [id])
  {
  }

  lemma RecoverOne(d: Daemon, g: Grants, rank: nat, epoch: nat, id: nat)
    requires TableInv(d.slots, g) && LeaseInv(d.slots, d.leases, g)
    ensures Recovered(d, RecoverLease(d, rank, epoch, id), rank, epoch, [id])
  {
    RecoverOneSlots(d, g, rank, epoch, id);
    RecoverOneLeases(d, rank, epoch, id);
  }

  lemma RecoverChain(d: Daemon, d1: Daemon, d2: Daemon, rank: nat, epoch: nat, id: nat, rest: seq<nat>)
    requires Recovered(d, d1, rank, epoch, [id]) && Recovered(d1, d2, rank, epoch, rest)
    ensures Recovered(d, d2, rank, epoch, [id] + rest)
  {
    forall x ensures Visited(d, rank, epoch, [id] + rest, x) <==>
                     Visited(d, rank, epoch, [id], x) || Visited(d1, rank, epoch, rest, x)
    {
      assert x in [id] + rest <==> x == id || x in rest;
    }
  }

  /** Recovery frees exactly the dead session's unfinished runs and drops exactly its leases. */
  lemma {:induction false} RecoveryExact(d: Daemon, g: Grants, rank: nat, epoch: nat, order: seq<nat>)
    requires CoreInv(d, g)
    ensures Recovered(d, RecoverLeases(d, rank, epoch, order), rank, epoch, order)
    decreases |order|
  {
    if order != [] {
      var d1 := RecoverLease(d, rank, epoch, order[0]);
      RecoverOne(d, g, rank, epoch, order[0]);
      CoreRecoverLease(d, g, rank, epoch, order[0]);
      RecoveryExact(d1, g, rank, epoch, order[1..]);
      RecoverChain(d, d1, RecoverLeases(d, rank, epoch, order), rank, epoch, order[0], order[1..]);
      assert [order[0]] + order[1..] == order;
    }
  }

  /**
   Right after a session is invalidated, every run it still waited for (RESERVED_D2H or
   D2H_IN_FLIGHT) is FREE, every other slot is as it was, and none of its leases is left.
   */
  lemma InvalidateReclaims(d: Daemon, g: Grants, v: Victim)
    requires CoreInv(d, g) && VictimOk(d, v) && v.rank in d.sessions && d.sessions[v.rank].alive
    ensures var e := d.sessions[v.rank].epoch;
      var d' := Invalidate(d, v.rank, v.order, v.stragglers);
      && !EpochValid(d', v.rank, e)
      && d'.nextEpoch == d.nextEpoch
      && d'.sessions == d.sessions[v.rank := d.sessions[v.rank].(alive := false)]
      && |d'.slots| == |d.slots|
      && (forall i | 0 <= i < |d.slots| ::
            d'.slots[i] ==
              if d.slots[i].lease in d.leases && OwnedBy(d.leases[d.slots[i].lease], v.rank, e)
                 && !RecoveryKeeps(d.slots[i].state)
              then FreeSlot else d.slots[i])
      && (forall id :: id in d'.leases <==> id in d.leases && !OwnedBy(d.leases[id], v.rank, e))
      && d'.locations == d.locations
  {
    var s := d.sessions[v.rank];
    var d1 := d.(sessions := d.sessions[v.rank := s.(alive := false)]);
    assert CoreInv(d1, g);
    var d2 := RecoverLeases(d1, v.rank, s.epoch, v.order);
    RecoveryExact(d1, g, v.rank, s.epoch, v.order);
    StragglersRejected(d2, v.stragglers);
    assert forall id ::
      Visited(d1, v.rank, s.epoch, v.order, id) <==> id in d.leases && OwnedBy(d.leases[id], v.rank, s.epoch);
  }

  // ---------------------------------------------------------------- fencing

  /** The handler of a reservation request: epoch and size are checked before the table is touched. */
  function RequestOffload(d: Daemon, rank: nat, epoch: nat, tensor: nat, version: nat, nbytes: nat, base: nat): Daemon
    requires d.cfg.gran > 0
  {
    if !EpochValid(d, rank, epoch) || nbytes == 0 then d
    else Reserve(d, rank, epoch, tensor, version, nbytes, base)
  }

  /** An issued epoch that is no longer valid, none of whose leases is left. */
  ghost predicate Fenced(s: Sys, rank: nat, epoch: nat) {
    && epoch < s.d.nextEpoch
    && !EpochValid(s.d, rank, epoch)
    && (forall id | id in s.d.leases :: !OwnedBy(s.d.leases[id], rank, epoch))
  }

  /** A reservation commits under the epoch check it started with (no forced drain in between). */
  predicate Strict(s: Sys, a: Action) {
    a.DoReserve? ==> EpochValid(s.d, a.rank, a.epoch)
  }

  /** Nothing a fenced session sends has any effect, nor does a completion of one of its leases. */
  lemma FencedIsInert(s: Sys, rank: nat, epoch: nat)
    requires CoreInv(s.d, s.g) && Fenced(s, rank, epoch)
    ensures forall t, v, n, base :: RequestOffload(s.d, rank, epoch, t, v, n, base) == s.d
    ensures forall lease, slot :: Submit(s.d, rank, epoch, lease, slot) == s.d
    ensures forall lease :: ReleaseLease(s.d, rank, epoch, lease) == s.d
    ensures forall c: Completion | c.rank == rank && c.epoch == epoch :: Complete(s.d, c, false) == s.d
    ensures forall c: Completion | c.lease in s.g && OwnedBy(s.g[c.lease], rank, epoch) ::
              Complete(s.d, c, false) == s.d
  {
    assert forall id | id in s.d.leases :: s.d.leases[id] == s.g[id];
  }

  /** Invalidating sessions neither revives an epoch nor adds a lease. */
  lemma InvalidateShrinks(d: Daemon, g: Grants, v: Victim, rank: nat, epoch: nat)
    requires CoreInv(d, g) && VictimOk(d, v)
    ensures var d' := Invalidate(d, v.rank, v.order, v.stragglers);
      && d'.nextEpoch == d.nextEpoch && d'.sessions.Keys == d.sessions.Keys
      && (EpochValid(d', rank, epoch) ==> EpochValid(d, rank, epoch) && v.rank != rank)
      && (forall r | r in d.sessions && r != v.rank :: d'.sessions[r] == d.sessions[r])
      && (forall id | id in d'.leases :: id in d.leases && d'.leases[id] == d.leases[id])
      && (EpochValid(d, rank, epoch) && !EpochValid(d', rank, epoch) ==> Fenced(Sys(d', g), rank, epoch))
      && (v.rank == rank ==> !EpochValid(d', rank, epoch))
  {
    CoreInvalidate(d, g, v);
    if v.rank in d.sessions && d.sessions[v.rank].alive {
      InvalidateReclaims(d, g, v);
    }
  }

  lemma {:induction false} InvalidateAllShrinks(d: Daemon, g: Grants, vs: seq<Victim>, rank: nat, epoch: nat)
    requires CoreInv(d, g) && VictimsOk(d, vs)
    ensures var d' := InvalidateAll(d, vs);
      && d'.nextEpoch == d.nextEpoch && d'.sessions.Keys == d.sessions.Keys
      && (EpochValid(d', rank, epoch) ==> EpochValid(d, rank, epoch))
      && (forall id | id in d'.leases :: id in d.leases && d'.leases[id] == d.leases[id])
      && (EpochValid(d, rank, epoch) && !EpochValid(d', rank, epoch) ==> Fenced(Sys(d', g), rank, epoch))
      && (rank in Ranks(vs) ==> !EpochValid(d', rank, epoch))
    decreases |vs|
  {
    if vs != [] {
      var d1 := Invalidate(d, vs[0].rank, vs[0].order, vs[0].stragglers);
      InvalidateShrinks(d, g, vs[0], rank, epoch);
      CoreInvalidate(d, g, vs[0]);
      InvalidateAllShrinks(d1, g, vs[1..], rank, epoch);
      if rank in Ranks(vs) && rank != vs[0].rank {
        var i :| 0 <= i < |vs| && vs[i].rank == rank;
        assert vs[1..][i - 1].rank == rank;
      }
    }
  }

  lemma RegisterFences(s: Sys, a: Action, rank: nat, epoch: nat)
    requires CoreInv(s.d, s.g) && a.DoRegister? && Enabled(s, a)
    requires EpochValid(s.d, rank, epoch) || Fenced(s, rank, epoch)
    ensures EpochValid(Apply(s, a).d, rank, epoch) || Fenced(Apply(s, a), rank, epoch)
    ensures Fenced(s, rank, epoch) ==> Fenced(Apply(s, a), rank, epoch)
  {
    InvalidateAllShrinks(s.d, s.g, a.victims, rank, epoch);
    assert a.rank in s.d.sessions ==> a.rank in Ranks(a.victims);
  }

  /** No lease but those of (rank, epoch) is new in `d'`, and the sessions are the same. */
  ghost predicate Quiet(d: Daemon, d': Daemon, rank: nat, epoch: nat) {
    && d'.sessions == d.sessions && d'.nextEpoch == d.nextEpoch
    && (forall id | id in d'.leases ::
          (id in d.leases && d'.leases[id] == d.leases[id]) || OwnedBy(d'.leases[id], rank, epoch))
  }

  lemma WorkerQuiet(d: Daemon, w: nat, ok: bool, kind: LocKind, rank: nat, epoch: nat)
    ensures Quiet(d, WorkerCommit(d, w, ok, kind), rank, epoch)
  {
  }

  lemma ForceQuiet(d: Daemon, w: nat, ok: bool, kind: LocKind, rank: nat, epoch: nat)
    ensures Quiet(d, ForceCommit(d, w, ok, kind), rank, epoch)
  {
  }

  lemma DrainsQuiet(s: Sys, a: Action, rank: nat, epoch: nat)
    requires DrainAction(a)
    requires s.d.cfg.gran > 0
    ensures Quiet(s.d, Apply(s, a).d, rank, epoch)
  {
    match a
    case DoWorkerCommit(w, ok, kind) => WorkerQuiet(s.d, w, ok, kind, rank, epoch);
    case DoForceCommit(w, ok, kind) => ForceQuiet(s.d, w, ok, kind, rank, epoch);
    case DoTake(w) =>
    case DoSnapshot(w) =>
    case DoCopy(w) =>
    case DoForceBegin(w, lease) =>
  }

  lemma HandlersQuiet(s: Sys, a: Action, rank: nat, epoch: nat)
    requires a.DoDma? || a.DoSubmit? || a.DoComplete? || a.DoRelease?
    requires s.d.cfg.gran > 0
    ensures Quiet(s.d, Apply(s, a).d, rank, epoch)
  {
  }

  /** A step of any thread leaves a session valid, or fences it; a fenced one stays fenced. */
  lemma FenceStep(s: Sys, a: Action, rank: nat, epoch: nat)
    requires CoreInv(s.d, s.g) && Enabled(s, a) && Strict(s, a)
    requires EpochValid(s.d, rank, epoch) || Fenced(s, rank, epoch)
    ensures EpochValid(Apply(s, a).d, rank, epoch) || Fenced(Apply(s, a), rank, epoch)
    ensures Fenced(s, rank, epoch) ==> Fenced(Apply(s, a), rank, epoch)
  {
    if a.DoRegister? {
      RegisterFences(s, a, rank, epoch);
    } else if a.DoTimeout? {
      InvalidateShrinks(s.d, s.g, a.victim, rank, epoch);
    } else if a.DoReserve? {
      assert Quiet(s.d, Apply(s, a).d, a.rank, a.epoch);
    } else if a.DoDma? || a.DoSubmit? || a.DoComplete? || a.DoRelease? {
      HandlersQuiet(s, a, 0, s.d.nextEpoch);
    } else {
      DrainsQuiet(s, a, 0, s.d.nextEpoch);
    }
  }

  /**
   The epoch check is what fences a reservation: one that commits after a forced drain without
   re-checking, for a session fenced meanwhile, brings a lease of that session back.
   */
  lemma LateReserveUnfences(s: Sys, rank: nat, epoch: nat, t: nat, v: nat, n: nat, base: nat)
    requires s.d.cfg.gran > 0 && Fenced(s, rank, epoch)
    ensures Fenced(Apply(s, DoReserve(rank, epoch, t, v, n, base)), rank, epoch)
            <==> !RunFree(s.d.slots, base, SlotsFor(s.d.cfg.gran, n))
  {
    var s' := Apply(s, DoReserve(rank, epoch, t, v, n, base));
    if RunFree(s.d.slots, base, SlotsFor(s.d.cfg.gran, n)) {
      assert OwnedBy(s'.d.leases[s.d.nextLease], rank, epoch);
    }
  }

  lemma FenceRunStep(tr: seq<Sys>, acts: seq<Action>, k: nat, rank: nat, epoch: nat)
    requires Run(tr, acts) && k < |acts| && Strict(tr[k], acts[k])
    requires EpochValid(tr[k].d, rank, epoch) || Fenced(tr[k], rank, epoch)
    ensures EpochValid(tr[k + 1].d, rank, epoch) || Fenced(tr[k + 1], rank, epoch)
    ensures Fenced(tr[k], rank, epoch) ==> Fenced(tr[k + 1], rank, epoch)
  {
    RunInv(tr, acts, k);
    assert StepAt(tr, acts, k);
    FenceStep(tr[k], acts[k], rank, epoch);
  }

  lemma {:induction false} StaysFenced(tr: seq<Sys>, acts: seq<Action>, i: nat, j: nat, rank: nat, epoch: nat)
    requires Run(tr, acts) && i <= j < |tr| && Fenced(tr[i], rank, epoch)
    requires forall k | i <= k < j :: Strict(tr[k], acts[k])
    ensures Fenced(tr[j], rank, epoch)
    decreases j
  {
    if i < j {
      StaysFenced(tr, acts, i, j - 1, rank, epoch);
      FenceRunStep(tr, acts, j - 1, rank, epoch);
    }
  }

  lemma {:induction false} ValidOrFenced(tr: seq<Sys>, acts: seq<Action>, i: nat, j: nat, rank: nat, epoch: nat)
    requires Run(tr, acts) && i <= j < |tr| && EpochValid(tr[i].d, rank, epoch)
    requires forall k | i <= k < j :: Strict(tr[k], acts[k])
    ensures EpochValid(tr[j].d, rank, epoch) || Fenced(tr[j], rank, epoch)
    decreases j
  {
    if i < j {
      ValidOrFenced(tr, acts, i, j - 1, rank, epoch);
      FenceRunStep(tr, acts, j - 1, rank, epoch);
    }
  }

  /**
   Epoch fencing over whole runs: once a session that was valid in state `i` is found invalid in
   state `k`, it is fenced there and in every later state `j`, so nothing it sends has any effect.
   */
  lemma FencedForever(tr: seq<Sys>, acts: seq<Action>, i: nat, k: nat, j: nat, rank: nat, epoch: nat)
    requires Run(tr, acts) && i <= k <= j < |tr|
    requires forall n | i <= n < j :: Strict(tr[n], acts[n])
    requires EpochValid(tr[i].d, rank, epoch) && !EpochValid(tr[k].d, rank, epoch)
    ensures Fenced(tr[j], rank, epoch)
  {
    ValidOrFenced(tr, acts, i, k, rank, epoch);
    StaysFenced(tr, acts, k, j, rank, epoch);
  }
}

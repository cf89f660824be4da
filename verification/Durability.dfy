/**
 Whole runs of the daemon, with every interleaving of critical sections, GPU
 copies and unlocked drain IO; and what such runs guarantee about bytes.
 */
module Durability {
  import opened SlotTable
  import opened DaemonState
  import opened DaemonInv

  // ------------------------------------------------------------------- runs

  /** Daemon tables together with the history of granted leases. */
  datatype Sys = Sys(d: Daemon, g: Grants)

  datatype Action =
    | DoRegister(rank: nat, pid: nat, victims: seq<Victim>)
    | DoTimeout(victim: Victim)
    | DoReserve(rank: nat, epoch: nat, tensor: nat, version: nat, nbytes: nat, base: nat)
    | DoDma(lease: nat, part: nat)
    | DoSubmit(rank: nat, epoch: nat, lease: nat, slot: nat)
    | DoComplete(c: Completion)
    | DoRelease(rank: nat, epoch: nat, lease: nat)
    | DoTake(w: nat)
    | DoSnapshot(w: nat)
    | DoCopy(w: nat)
    | DoWorkerCommit(w: nat, ok: bool, kind: LocKind)
    | DoForceBegin(w: nat, lease: nat)
    | DoForceCommit(w: nat, ok: bool, kind: LocKind)

  /** A GPU copy addresses part `part` of the run that was granted with `lease`, now or in the past. */
  predicate Addresses(d: Daemon, g: Grants, lease: nat, part: nat) {
    lease in g && part < g[lease].count && g[lease].base + part < |d.arena|
  }

  /** One GPU copy step. The hardware consults no table. */
  function Dma(d: Daemon, g: Grants, lease: nat, part: nat): Daemon {
    if Addresses(d, g, lease, part) then
      var L := g[lease];
      d.(arena := d.arena[L.base + part := Piece(L.tensor, L.version, part)])
    else d
  }

  /** The lease is in the table and its run waits for the D2H. */
  predicate Awaiting(d: Daemon, lease: nat) {
    && lease in d.leases
    && (StateAt(d.slots, d.leases[lease].base) == ReservedD2H
        || StateAt(d.slots, d.leases[lease].base) == D2HInFlight)
  }

  /** Every byte of the lease's tensor has reached its run: what a fired copy event means. */
  ghost predicate Landed(d: Daemon, lease: nat) {
    lease in d.leases && var L := d.leases[lease];
    forall k | 0 <= k < L.count && L.base + k < |d.arena| :: d.arena[L.base + k] == Piece(L.tensor, L.version, k)
  }

  ghost predicate FullCopy(d: Daemon, w: nat) {
    w in d.drainers && d.drainers[w].Copying? ==> |d.drainers[w].buf| == d.drainers[w].count
  }

  /**
   What the environment respects: a stream writes only while its lease is in the table and awaits the
   copy (a rank that released the lease or timed out has stopped its stream), completions follow their
   copy, and successful IO copied everything.
   */
  ghost predicate Enabled(s: Sys, a: Action) {
    match a
    case DoRegister(rank, pid, vs) => RegisterVictims(s.d, rank, pid, vs)
    case DoTimeout(v) => VictimOk(s.d, v) && v.stragglers == []
    case DoDma(lease, part) => Addresses(s.d, s.g, lease, part) ==> Awaiting(s.d, lease)
    case DoComplete(c) => Accepts(s.d, c) ==> Landed(s.d, c.lease)
    case DoWorkerCommit(w, ok, kind) => ok ==> FullCopy(s.d, w) && (kind == LocPageable || kind == LocNvme)
    case DoForceCommit(w, ok, kind) => ok ==> FullCopy(s.d, w) && (kind == LocPageable || kind == LocNvme)
    case _ => true
  }

  ghost function Apply(s: Sys, a: Action): Sys
    requires s.d.cfg.gran > 0
  {
    match a
    case DoRegister(rank, pid, vs) => Sys(Register(s.d, rank, pid, vs), s.g)
    case DoTimeout(v) => Sys(Invalidate(s.d, v.rank, v.order, v.stragglers), s.g)
    case DoReserve(rank, epoch, t, v, n, base) =>
      Sys(Reserve(s.d, rank, epoch, t, v, n, base), GrantsAfter(s.d, s.g, rank, epoch, t, v, n, base))
    case DoDma(lease, part) => Sys(Dma(s.d, s.g, lease, part), s.g)
    case DoSubmit(rank, epoch, lease, slot) => Sys(Submit(s.d, rank, epoch, lease, slot), s.g)
    case DoComplete(c) => Sys(Complete(s.d, c, false), s.g)
    case DoRelease(rank, epoch, lease) => Sys(ReleaseLease(s.d, rank, epoch, lease), s.g)
    case DoTake(w) => Sys(Take(s.d, w), s.g)
    case DoSnapshot(w) => Sys(Snapshot(s.d, w), s.g)
    case DoCopy(w) => Sys(Copy(s.d, w), s.g)
    case DoWorkerCommit(w, ok, kind) => Sys(WorkerCommit(s.d, w, ok, kind), s.g)
    case DoForceBegin(w, lease) => Sys(ForceBegin(s.d, w, lease), s.g)
    case DoForceCommit(w, ok, kind) => Sys(ForceCommit(s.d, w, ok, kind), s.g)
  }

  ghost predicate Init(s: Sys) {
    && s.g == map[] && s.d.leases == map[] && s.d.locations == map[] && s.d.cold == map[]
    && s.d.queue == [] && s.d.drainers == map[] && s.d.sessions == map[]
    && s.d.nextLease == 1 && s.d.used == 0 && s.d.cfg.gran > 0
    && |s.d.arena| == |s.d.slots|
    && (forall i | 0 <= i < |s.d.slots| :: s.d.slots[i] == FreeSlot)
  }

  ghost predicate Inv(s: Sys) {
    CoreInv(s.d, s.g) && DataInv(s.d, s.g)
  }

  ghost predicate StepAt(tr: seq<Sys>, acts: seq<Action>, i: nat)
    requires i < |acts| && |tr| == |acts| + 1
  {
    tr[i].d.cfg.gran > 0 && Enabled(tr[i], acts[i]) && tr[i + 1] == Apply(tr[i], acts[i])
  }

  ghost predicate Run(tr: seq<Sys>, acts: seq<Action>) {
    && |tr| == |acts| + 1
    && Init(tr[0])
    && (forall i: nat | i < |acts| :: StepAt(tr, acts, i))
  }

  // ---------------------------------------------------- contents, by step

  lemma DataReserve(d: Daemon, g: Grants, rank: nat, epoch: nat, t: nat, v: nat, n: nat, base: nat)
    requires CoreInv(d, g) && DataInv(d, g)
    ensures DataInv(Reserve(d, rank, epoch, t, v, n, base), GrantsAfter(d, g, rank, epoch, t, v, n, base))
  {
    var L := Lease(base, SlotsFor(d.cfg.gran, n), t, v, rank, epoch, n);
    if RunFree(d.slots, base, L.count) {
      StampKeepsTable(d.slots, g, d.nextLease, L, ReservedD2H, d.cfg.gran);
    }
  }

  /** What the copy writes is not over anyone's finished bytes, or is those very bytes. */
  ghost predicate Harmless(d: Daemon, g: Grants, lease: nat, part: nat)
    requires Addresses(d, g, lease, part)
  {
    var i := g[lease].base + part;
    i < |d.slots| && Readable(d.slots[i].state) && d.slots[i].lease in g ==>
      && d.slots[i].tensor == g[lease].tensor && d.slots[i].version == g[lease].version
      && i - g[d.slots[i].lease].base == part
  }

  lemma AwaitingIsHarmless(d: Daemon, g: Grants, lease: nat, part: nat)
    requires CoreInv(d, g) && Addresses(d, g, lease, part) && Awaiting(d, lease)
    ensures Harmless(d, g, lease, part)
  {
    var i := g[lease].base + part;
    assert Held(d.slots, g, lease);
    if i < |d.slots| {
      CoversIffTagged(d.slots, g, lease, i);
      assert SlotInv(d.slots, g, i);
    }
  }

  lemma MemDmaIff(d: Daemon, g: Grants, lease: nat, part: nat)
    requires TableInv(d.slots, g) && MemInv(d.slots, d.arena, g) && Addresses(d, g, lease, part)
    ensures MemInv(d.slots, Dma(d, g, lease, part).arena, g) <==> Harmless(d, g, lease, part)
  {
    var i := g[lease].base + part;
    var arena' := Dma(d, g, lease, part).arena;
    assert SlotInv(d.slots, g, i);
    if !Harmless(d, g, lease, part) {
      assert arena'[i] != Piece(d.slots[i].tensor, d.slots[i].version, i - g[d.slots[i].lease].base);
    }
  }

  lemma DataDma(d: Daemon, g: Grants, lease: nat, part: nat)
    requires CoreInv(d, g) && DataInv(d, g) && (Addresses(d, g, lease, part) ==> Awaiting(d, lease))
    ensures DataInv(Dma(d, g, lease, part), g)
  {
    if Addresses(d, g, lease, part) {
      AwaitingIsHarmless(d, g, lease, part);
      MemDmaIff(d, g, lease, part);
    }
  }

  /** Contents survive a state change of one run when it does not become readable. */
  lemma DataMove(d: Daemon, g: Grants, id: nat, slots': seq<Slot>, st: SlotState)
    requires CoreInv(d, g) && DataInv(d, g) && Held(d.slots, g, id) && Moved(d.slots, slots', id, st)
    requires Readable(st) == Readable(StateOf(d.slots, g, id))
    ensures DataInv(d.(slots := slots'), g)
  {
    OtherRuns(d.slots, g, id);
  }

  lemma DataSubmit(d: Daemon, g: Grants, rank: nat, epoch: nat, lease: nat, slot: nat)
    requires CoreInv(d, g) && DataInv(d, g)
    ensures DataInv(Submit(d, rank, epoch, lease, slot), g)
  {
    if Submits(d, rank, epoch, lease, slot) {
      SetStateByTag(d.slots, g, lease, D2HInFlight);
      DataMove(d, g, lease, Submit(d, rank, epoch, lease, slot).slots, D2HInFlight);
    }
  }

  /** A slot of the landed run holds the piece that its tags name. */
  lemma LandedPiece(d: Daemon, g: Grants, id: nat, i: nat)
    requires TableInv(d.slots, g) && LeaseInv(d.slots, d.leases, g) && |d.arena| == |d.slots|
    requires id in d.leases && Landed(d, id) && i < |d.slots| && d.slots[i].lease == id
    ensures id in g && g[id].base <= i
    ensures d.arena[i] == Piece(d.slots[i].tensor, d.slots[i].version, i - g[id].base)
  {
    assert SlotInv(d.slots, g, i);
    assert i == g[id].base + (i - g[id].base);
  }

  lemma MemComplete(d: Daemon, g: Grants, id: nat, slots': seq<Slot>, st: SlotState)
    requires TableInv(d.slots, g) && LeaseInv(d.slots, d.leases, g) && MemInv(d.slots, d.arena, g)
    requires id in d.leases && Landed(d, id) && Moved(d.slots, slots', id, st)
    ensures MemInv(slots', d.arena, g)
  {
    forall i | 0 <= i < |slots'| && Readable(slots'[i].state) && slots'[i].lease in g && g[slots'[i].lease].base <= i
      ensures d.arena[i] == Piece(slots'[i].tensor, slots'[i].version, i - g[slots'[i].lease].base)
    {
      if d.slots[i].lease == id {
        LandedPiece(d, g, id, i);
      }
    }
  }

  lemma LocComplete(d: Daemon, g: Grants, id: nat, slots': seq<Slot>, st: SlotState)
    requires TableInv(d.slots, g) && Held(d.slots, g, id) && Moved(d.slots, slots', id, st) && Readable(st)
    requires d.cfg.gran > 0 && LocInv(d.slots, d.cold, g, d.cfg.gran, d.locations)
    ensures var L := g[id];
      LocInv(slots', d.cold, g, d.cfg.gran,
             UpdateLocation(d.locations, L.tensor, L.version, LocPinned, L.base, 0, L.nbytes))
  {
    var L := g[id];
    var locs := UpdateLocation(d.locations, L.tensor, L.version, LocPinned, L.base, 0, L.nbytes);
    forall t | t in locs ensures LocOk(slots', d.cold, g, d.cfg.gran, t, locs[t]) {
      if t in d.locations && locs[t] == d.locations[t] {
        assert LocOk(d.slots, d.cold, g, d.cfg.gran, t, d.locations[t]);
      }
    }
  }

  lemma DataComplete(d: Daemon, g: Grants, c: Completion, creating: bool)
    requires CoreInv(d, g) && DataInv(d, g) && (Accepts(d, c) ==> Landed(d, c.lease))
    ensures DataInv(Complete(d, c, creating), g)
  {
    if Accepts(d, c) {
      var L := d.leases[c.lease];
      var st := if !creating && d.cfg.drainOnComplete then DrainInFlight else PinnedValid;
      var r := SetState(d.slots, L.base, L.count, st);
      SetStateByTag(d.slots, g, c.lease, st);
      MemComplete(d, g, c.lease, r, st);
      LocComplete(d, g, c.lease, r, st);
    }
  }

  lemma MemFree(slots: seq<Slot>, slots': seq<Slot>, arena: seq<Piece>, g: Grants, id: nat)
    requires MemInv(slots, arena, g) && Freed(slots, slots', id)
    ensures MemInv(slots', arena, g)
  {
  }

  /** Freeing a run leaves every location readable except one that names that run. */
  lemma LocFree(d: Daemon, g: Grants, id: nat, slots': seq<Slot>, t: nat)
    requires TableInv(d.slots, g) && Held(d.slots, g, id) && Freed(d.slots, slots', id)
    requires d.cfg.gran > 0 && LocInv(d.slots, d.cold, g, d.cfg.gran, d.locations)
    requires t in d.locations
    requires !(t == g[id].tensor && NamesRun(d.locations, g[id]))
    ensures LocOk(slots', d.cold, g, d.cfg.gran, t, d.locations[t])
  {
    assert LocOk(d.slots, d.cold, g, d.cfg.gran, t, d.locations[t]);
  }

  /** A release that frees the run its tensor's location names leaves that location empty. */
  lemma LocRelease(d: Daemon, g: Grants, id: nat, slots': seq<Slot>, locs: map<nat, Location>)
    requires TableInv(d.slots, g) && Held(d.slots, g, id) && Freed(d.slots, slots', id)
    requires d.cfg.gran > 0 && LocInv(d.slots, d.cold, g, d.cfg.gran, d.locations)
    requires locs == Unnamed(d.locations, g[id])
    ensures LocInv(slots', d.cold, g, d.cfg.gran, locs)
  {
    forall t | t in locs ensures LocOk(slots', d.cold, g, d.cfg.gran, t, locs[t]) {
      if !(t == g[id].tensor && NamesRun(d.locations, g[id])) {
        LocFree(d, g, id, slots', t);
      }
    }
  }

  lemma DataRelease(d: Daemon, g: Grants, rank: nat, epoch: nat, lease: nat)
    requires CoreInv(d, g) && DataInv(d, g)
    ensures DataInv(ReleaseLease(d, rank, epoch, lease), g)
  {
    if Releases(d, rank, epoch, lease) && ReleaseFrees(StateAt(d.slots, d.leases[lease].base)) {
      ReleasedIs(d, rank, epoch, lease);
      DataReleased(d, g, lease, ReleaseLease(d, rank, epoch, lease));
    }
  }

  lemma ReleasedIs(d: Daemon, rank: nat, epoch: nat, lease: nat)
    requires Releases(d, rank, epoch, lease) && ReleaseFrees(StateAt(d.slots, d.leases[lease].base))
    ensures Released(d, lease, ReleaseLease(d, rank, epoch, lease))
  {
  }

  /** `d'` is `d` without the lease, its run and a location that names it. */
  ghost predicate Released(d: Daemon, lease: nat, d': Daemon) {
    && lease in d.leases && d'.slots == FreeRun(d.slots, d.leases[lease].base, d.leases[lease].count)
    && d'.locations == Unnamed(d.locations, d.leases[lease])
    && d' == d.(slots := d'.slots, locations := d'.locations, leases := d'.leases, used := d'.used)
  }

  lemma DataReleased(d: Daemon, g: Grants, lease: nat, d': Daemon)
    requires TableInv(d.slots, g) && LeaseInv(d.slots, d.leases, g) && DataInv(d, g) && Released(d, lease, d')
    ensures DataInv(d', g)
  {
    FreeRunByTag(d.slots, g, lease);
    MemFree(d.slots, d'.slots, d.arena, g, lease);
    LocRelease(d, g, lease, d'.slots, d'.locations);
  }

  /** The locations when the copy in `L`'s run is given up. */
  function Unnamed(locs: map<nat, Location>, L: Lease): map<nat, Location> {
    if NamesRun(locs, L) then locs[L.tensor := locs[L.tensor].(kind := LocNone)] else locs
  }

  lemma DataRecoverLease(d: Daemon, g: Grants, rank: nat, epoch: nat, id: nat)
    requires CoreInv(d, g) && DataInv(d, g)
    ensures DataInv(RecoverLease(d, rank, epoch, id), g)
  {
    if id in d.leases && OwnedBy(d.leases[id], rank, epoch) && !RecoveryKeeps(StateAt(d.slots, d.leases[id].base)) {
      var d' := RecoverLease(d, rank, epoch, id);
      FreeRunByTag(d.slots, g, id);
      MemFree(d.slots, d'.slots, d.arena, g, id);
      forall t | t in d'.locations ensures LocOk(d'.slots, d'.cold, g, d.cfg.gran, t, d'.locations[t]) {
        assert LocOk(d.slots, d.cold, g, d.cfg.gran, t, d.locations[t]);
        LocFree(d, g, id, d'.slots, t);
      }
    }
  }

  /** The next slot a drainer reads holds the next piece of the tensor it drains. */
  lemma NextPiece(d: Daemon, g: Grants, j: Drainer)
    requires TableInv(d.slots, g) && MemInv(d.slots, d.arena, g)
    requires Draining(d.slots, g, j.base, j.count) && CopyTags(d.slots, g, j)
    requires j.Copying? && |j.buf| < j.count && j.base + |j.buf| < |d.arena|
    ensures d.arena[j.base + |j.buf|] == Piece(j.tensor, j.version, |j.buf|)
  {
    var i := j.base + |j.buf|;
    assert SlotInv(d.slots, g, j.base);
    CoversIffTagged(d.slots, g, j.lease, i);
    assert SlotInv(d.slots, g, i);
  }

  lemma BufGrows(drainers: map<nat, Drainer>, w: nat, p: Piece)
    requires BufInv(drainers) && w in drainers && drainers[w].Copying?
    requires |drainers[w].buf| < drainers[w].count
    requires p == Piece(drainers[w].tensor, drainers[w].version, |drainers[w].buf|)
    ensures BufInv(drainers[w := drainers[w].(buf := drainers[w].buf + [p])])
  {
    assert BufOk(drainers[w]);
  }

  lemma BufCopy(d: Daemon, g: Grants, w: nat)
    requires TableInv(d.slots, g) && MemInv(d.slots, d.arena, g) && BufInv(d.drainers) && HasMore(d, w)
    requires Draining(d.slots, g, d.drainers[w].base, d.drainers[w].count) && CopyTags(d.slots, g, d.drainers[w])
    ensures BufInv(Copy(d, w).drainers)
  {
    var j := d.drainers[w];
    NextPiece(d, g, j);
    BufGrows(d.drainers, w, d.arena[j.base + |j.buf|]);
  }

  lemma DataCopy(d: Daemon, g: Grants, w: nat)
    requires CoreInv(d, g) && DataInv(d, g)
    ensures DataInv(Copy(d, w), g)
  {
    if HasMore(d, w) {
      BufCopy(d, g, w);
    }
  }

  lemma DataRevert(d: Daemon, g: Grants, w: nat)
    requires CoreInv(d, g) && DataInv(d, g) && w in d.drainers
    ensures DataInv(RevertDrain(d.(drainers := d.drainers - {w}), d.drainers[w]), g)
  {
    var j := d.drainers[w];
    assert Draining(d.slots, g, j.base, j.count);
    var id := d.slots[j.base].lease;
    SetStateByTag(d.slots, g, id, PinnedValid);
    DataMove(d, g, id, SetState(d.slots, j.base, j.count, PinnedValid), PinnedValid);
  }

  lemma LocFinish(d: Daemon, g: Grants, j: Drainer, slots': seq<Slot>, kind: LocKind)
    requires TableInv(d.slots, g) && CountersInv(d, g) && j.Copying? && Held(d.slots, g, j.lease)
    requires CopyTags(d.slots, g, j) && j.base == g[j.lease].base && j.count == g[j.lease].count
    requires j.buf == Pieces(j.tensor, j.version, j.count) && (kind == LocPageable || kind == LocNvme)
    requires Freed(d.slots, slots', j.lease) && LocInv(d.slots, d.cold, g, d.cfg.gran, d.locations)
    ensures LocInv(slots', d.cold[d.nextCold := ColdEntry(kind, j.nbytes, j.buf)], g, d.cfg.gran,
                   UpdateLocation(d.locations, j.tensor, j.version, kind, j.base, d.nextCold, j.nbytes))
  {
    var cold' := d.cold[d.nextCold := ColdEntry(kind, j.nbytes, j.buf)];
    var locs := UpdateLocation(d.locations, j.tensor, j.version, kind, j.base, d.nextCold, j.nbytes);
    forall t | t in locs ensures LocOk(slots', cold', g, d.cfg.gran, t, locs[t]) {
      if t != j.tensor || (t in d.locations && j.version < d.locations[t].version) {
        LocFree(d, g, j.lease, slots', t);
      }
    }
  }

  lemma DrainEnds(d: Daemon, g: Grants, j: Drainer, kind: LocKind)
    requires TableInv(d.slots, g) && CountersInv(d, g) && DataInv(d, g) && j.Copying? && |j.buf| == j.count
    requires Draining(d.slots, g, j.base, j.count) && CopyTags(d.slots, g, j) && BufOk(j)
    requires kind == LocPageable || kind == LocNvme
    ensures var r := FreeRun(d.slots, j.base, j.count);
      && MemInv(r, d.arena, g)
      && LocInv(r, d.cold[d.nextCold := ColdEntry(kind, j.nbytes, j.buf)], g, d.cfg.gran,
                UpdateLocation(d.locations, j.tensor, j.version, kind, j.base, d.nextCold, j.nbytes))
  {
    var r := FreeRun(d.slots, j.base, j.count);
    FreeRunByTag(d.slots, g, j.lease);
    MemFree(d.slots, r, d.arena, g, j.lease);
    assert j.buf == Pieces(j.tensor, j.version, j.count);
    LocFinish(d, g, j, r, kind);
  }

  lemma DataFinish(d: Daemon, g: Grants, w: nat, kind: LocKind)
    requires CoreInv(d, g) && DataInv(d, g) && w in d.drainers && d.drainers[w].Copying?
    requires FullCopy(d, w) && (kind == LocPageable || kind == LocNvme)
    ensures DataInv(FinishDrain(d.(drainers := d.drainers - {w}), d.drainers[w], kind), g)
  {
    var j := d.drainers[w];
    assert Draining(d.slots, g, j.base, j.count) && CopyTags(d.slots, g, j) && BufOk(j);
    DrainEnds(d, g, j, kind);
  }

  lemma DataForceBegin(d: Daemon, g: Grants, w: nat, lease: nat)
    requires CoreInv(d, g) && DataInv(d, g)
    ensures DataInv(ForceBegin(d, w, lease), g)
  {
    if Drainable(d, lease) && w !in d.drainers {
      SetStateByTag(d.slots, g, lease, DrainInFlight);
      DataMove(d, g, lease, ForceBegin(d, w, lease).slots, DrainInFlight);
    }
  }

  // ------------------------------------------------------ sessions that end

  /** Completions of a session that is not live are rejected, one after the other. */
  lemma {:induction false} StragglersRejected(d: Daemon, cs: seq<Completion>)
    requires forall i | 0 <= i < |cs| :: !EpochValid(d, cs[i].rank, cs[i].epoch)
    ensures CompleteAll(d, cs) == d
    decreases |cs|
  {
    if cs != [] {
      StragglersRejected(d, cs[1..]);
    }
  }

  lemma {:induction false} DataRecoverLeases(d: Daemon, g: Grants, rank: nat, epoch: nat, order: seq<nat>)
    requires CoreInv(d, g) && DataInv(d, g)
    ensures DataInv(RecoverLeases(d, rank, epoch, order), g)
    decreases |order|
  {
    if order != [] {
      CoreRecoverLease(d, g, rank, epoch, order[0]);
      DataRecoverLease(d, g, rank, epoch, order[0]);
      DataRecoverLeases(RecoverLease(d, rank, epoch, order[0]), g, rank, epoch, order[1..]);
    }
  }

  /** Recovery touches neither sessions nor locations. */
  lemma {:induction false} RecoverLeasesKeeps(d: Daemon, rank: nat, epoch: nat, order: seq<nat>)
    ensures RecoverLeases(d, rank, epoch, order).sessions == d.sessions
    ensures RecoverLeases(d, rank, epoch, order).locations == d.locations
    ensures RecoverLeases(d, rank, epoch, order).cfg == d.cfg
    decreases |order|
  {
    if order != [] {
      RecoverLeasesKeeps(RecoverLease(d, rank, epoch, order[0]), rank, epoch, order[1..]);
    }
  }

  lemma DataInvalidate(d: Daemon, g: Grants, v: Victim)
    requires CoreInv(d, g) && DataInv(d, g) && VictimOk(d, v)
    ensures DataInv(Invalidate(d, v.rank, v.order, v.stragglers), g)
    ensures Invalidate(d, v.rank, v.order, v.stragglers).locations == d.locations
    ensures Invalidate(d, v.rank, v.order, v.stragglers).cfg == d.cfg
  {
    if v.rank in d.sessions && d.sessions[v.rank].alive {
      var s := d.sessions[v.rank];
      var d1 := d.(sessions := d.sessions[v.rank := s.(alive := false)]);
      assert CoreInv(d1, g);
      DataRecoverLeases(d1, g, v.rank, s.epoch, v.order);
      RecoverLeasesKeeps(d1, v.rank, s.epoch, v.order);
      StragglersRejected(RecoverLeases(d1, v.rank, s.epoch, v.order), v.stragglers);
    }
  }

  lemma {:induction false} DataInvalidateAll(d: Daemon, g: Grants, vs: seq<Victim>)
    requires CoreInv(d, g) && DataInv(d, g) && VictimsOk(d, vs)
    ensures DataInv(InvalidateAll(d, vs), g)
    ensures InvalidateAll(d, vs).locations == d.locations
    ensures InvalidateAll(d, vs).cfg == d.cfg
    decreases |vs|
  {
    if vs != [] {
      CoreInvalidate(d, g, vs[0]);
      DataInvalidate(d, g, vs[0]);
      DataInvalidateAll(Invalidate(d, vs[0].rank, vs[0].order, vs[0].stragglers), g, vs[1..]);
    }
  }

  // --------------------------------------------------------------- all steps

  lemma CoreOpen(d: Daemon, g: Grants, rank: nat, pid: nat)
    requires CoreInv(d, g)
    ensures CoreInv(OpenSession(d, rank, pid), g)
  {
    assert CountersInv(OpenSession(d, rank, pid), g);
  }

  lemma CoreDma(d: Daemon, g: Grants, lease: nat, part: nat)
    requires CoreInv(d, g)
    ensures CoreInv(Dma(d, g, lease, part), g)
  {
    assert CountersInv(Dma(d, g, lease, part), g);
  }

  predicate DrainAction(a: Action) {
    a.DoTake? || a.DoSnapshot? || a.DoCopy? || a.DoWorkerCommit? || a.DoForceBegin? || a.DoForceCommit?
  }

  lemma CoreDrainBegin(s: Sys, a: Action)
    requires CoreInv(s.d, s.g) && (a.DoTake? || a.DoSnapshot? || a.DoCopy? || a.DoForceBegin?)
    ensures CoreInv(Apply(s, a).d, Apply(s, a).g)
  {
    match a
    case DoTake(w) => CoreTake(s.d, s.g, w);
    case DoSnapshot(w) => CoreSnapshot(s.d, s.g, w);
    case DoCopy(w) => CoreCopy(s.d, s.g, w);
    case DoForceBegin(w, lease) => CoreForceBegin(s.d, s.g, w, lease);
  }

  lemma CoreDrainStep(s: Sys, a: Action)
    requires CoreInv(s.d, s.g) && DrainAction(a)
    ensures CoreInv(Apply(s, a).d, Apply(s, a).g)
  {
    if a.DoWorkerCommit? {
      CoreWorkerCommit(s.d, s.g, a.w, a.ok, a.kind);
    } else if a.DoForceCommit? {
      CoreForceCommit(s.d, s.g, a.w, a.ok, a.kind);
    } else {
      CoreDrainBegin(s, a);
    }
  }

  lemma CoreStep(s: Sys, a: Action)
    requires CoreInv(s.d, s.g)
    ensures CoreInv(Apply(s, a).d, Apply(s, a).g)
  {
    if DrainAction(a) {
      CoreDrainStep(s, a);
    } else {
      match a
      case DoRegister(rank, pid, vs) =>
        CoreInvalidateAll(s.d, s.g, vs);
        CoreOpen(InvalidateAll(s.d, vs), s.g, rank, pid);
      case DoTimeout(v) => CoreInvalidate(s.d, s.g, v);
      case DoReserve(rank, epoch, t, v, n, base) => CoreReserve(s.d, s.g, rank, epoch, t, v, n, base);
      case DoDma(lease, part) => CoreDma(s.d, s.g, lease, part);
      case DoSubmit(rank, epoch, lease, slot) => CoreSubmit(s.d, s.g, rank, epoch, lease, slot);
      case DoComplete(c) => CoreComplete(s.d, s.g, c, false);
      case DoRelease(rank, epoch, lease) => CoreRelease(s.d, s.g, rank, epoch, lease);
    }
  }

  lemma DataDrainEnd(d: Daemon, g: Grants, w: nat, ok: bool, kind: LocKind)
    requires CoreInv(d, g) && DataInv(d, g)
    requires ok ==> FullCopy(d, w) && (kind == LocPageable || kind == LocNvme)
    ensures DataInv(WorkerCommit(d, w, ok, kind), g) && DataInv(ForceCommit(d, w, ok, kind), g)
  {
    if w in d.drainers && d.drainers[w].Copying? {
      if ok {
        DataFinish(d, g, w, kind);
      } else {
        DataRevert(d, g, w);
      }
    }
  }

  lemma DataStep(s: Sys, a: Action)
    requires Inv(s) && Enabled(s, a)
    ensures DataInv(Apply(s, a).d, Apply(s, a).g)
  {
    match a
    case DoRegister(rank, pid, vs) => DataInvalidateAll(s.d, s.g, vs);
    case DoTimeout(v) => DataInvalidate(s.d, s.g, v);
    case DoReserve(rank, epoch, t, v, n, base) => DataReserve(s.d, s.g, rank, epoch, t, v, n, base);
    case DoDma(lease, part) => DataDma(s.d, s.g, lease, part);
    case DoSubmit(rank, epoch, lease, slot) => DataSubmit(s.d, s.g, rank, epoch, lease, slot);
    case DoComplete(c) => DataComplete(s.d, s.g, c, false);
    case DoRelease(rank, epoch, lease) => DataRelease(s.d, s.g, rank, epoch, lease);
    case DoTake(w) =>
    case DoSnapshot(w) =>
    case DoCopy(w) => DataCopy(s.d, s.g, w);
    case DoWorkerCommit(w, ok, kind) => DataDrainEnd(s.d, s.g, w, ok, kind);
    case DoForceBegin(w, lease) => DataForceBegin(s.d, s.g, w, lease);
    case DoForceCommit(w, ok, kind) => DataDrainEnd(s.d, s.g, w, ok, kind);
  }

  // ------------------------------------------------------------ durability

  /** The location of `t` leads to exactly the bytes of version `v`. */
  ghost predicate Resolves(d: Daemon, t: nat, v: nat)
    requires d.cfg.gran > 0
  {
    && t in d.locations && d.locations[t].version == v
    && var loc := d.locations[t];
    var n := SlotsFor(d.cfg.gran, loc.nbytes);
    match loc.kind
    case LocNone => false
    case LocPinned =>
      && loc.slot + n <= |d.slots| && |d.slots| == |d.arena|
      && (forall k | loc.slot <= k < loc.slot + n :: Readable(d.slots[k].state))
      && d.arena[loc.slot..loc.slot + n] == Pieces(t, v, n)
    case _ => loc.cold in d.cold && d.cold[loc.cold].data == Pieces(t, v, n)
  }

  /** The accepted version `v` of `t` has not been lost: a newer one replaced it, or it can be read. */
  ghost predicate Safe(d: Daemon, t: nat, v: nat)
    requires d.cfg.gran > 0
  {
    t in d.locations && (d.locations[t].version > v || Resolves(d, t, v))
  }

  /** The owner gives up the one pinned copy of (t, v) that the location table names. */
  ghost predicate GivesUp(s: Sys, a: Action, t: nat, v: nat) {
    && a.DoRelease? && Releases(s.d, a.rank, a.epoch, a.lease)
    && s.d.leases[a.lease].tensor == t && s.d.leases[a.lease].version == v
    && StateAt(s.d.slots, s.d.leases[a.lease].base) == PinnedValid
    && NamesRun(s.d.locations, s.d.leases[a.lease])
  }

  /** All slots of a held readable run are readable and hold the tensor's pieces. */
  lemma RunHoldsPieces(slots: seq<Slot>, arena: seq<Piece>, g: Grants, id: nat)
    requires TableInv(slots, g) && MemInv(slots, arena, g) && Held(slots, g, id)
    requires Readable(StateOf(slots, g, id))
    ensures var L := g[id];
      && (forall k | L.base <= k < L.base + L.count :: Readable(slots[k].state))
      && arena[L.base..L.base + L.count] == Pieces(L.tensor, L.version, L.count)
  {
    var L := g[id];
    forall k | L.base <= k < L.base + L.count
      ensures Readable(slots[k].state) && arena[k] == Piece(L.tensor, L.version, k - L.base)
    {
      CoversIffTagged(slots, g, id, k);
      assert SlotInv(slots, g, k);
    }
  }

  /** With the invariant, a location that is not NONE always resolves. */
  lemma LocationResolves(d: Daemon, g: Grants, t: nat)
    requires CoreInv(d, g) && DataInv(d, g)
    requires t in d.locations && d.locations[t].kind != LocNone
    ensures Resolves(d, t, d.locations[t].version)
  {
    var loc := d.locations[t];
    assert LocOk(d.slots, d.cold, g, d.cfg.gran, t, loc);
    if loc.kind == LocPinned {
      assert SlotInv(d.slots, g, loc.slot);
      RunHoldsPieces(d.slots, d.arena, g, d.slots[loc.slot].lease);
    }
  }

  /** What a step may do to one location: nothing, publish a version at least as new, or give it up. */
  ghost predicate LocationMoves(s: Sys, a: Action, s': Sys, t: nat)
    requires t in s.d.locations
  {
    && t in s'.d.locations
    && var was := s.d.locations[t];
    var is_ := s'.d.locations[t];
    || is_ == was
    || (is_.version >= was.version && is_.kind != LocNone)
    || (GivesUp(s, a, t, was.version) && is_ == was.(kind := LocNone))
  }

  lemma LocationRelease(s: Sys, a: Action, t: nat)
    requires DataInv(s.d, s.g) && a.DoRelease? && t in s.d.locations
    ensures LocationMoves(s, a, Apply(s, a), t)
  {
    assert LocOk(s.d.slots, s.d.cold, s.g, s.d.cfg.gran, t, s.d.locations[t]);
  }

  /** Drain commits publish a version at least as new, or nothing. */
  lemma LocationDrained(s: Sys, a: Action, t: nat)
    requires s.d.cfg.gran > 0 && Enabled(s, a) && t in s.d.locations
    requires a.DoWorkerCommit? || a.DoForceCommit?
    ensures LocationMoves(s, a, Apply(s, a), t)
  {
  }

  lemma LocationOther(s: Sys, a: Action, t: nat)
    requires s.d.cfg.gran > 0 && t in s.d.locations
    requires !a.DoWorkerCommit? && !a.DoForceCommit? && !a.DoRegister? && !a.DoTimeout? && !a.DoRelease?
    ensures LocationMoves(s, a, Apply(s, a), t)
  {
  }

  lemma LocationStep(s: Sys, a: Action, t: nat)
    requires Inv(s) && Enabled(s, a) && t in s.d.locations
    ensures LocationMoves(s, a, Apply(s, a), t)
  {
    if a.DoRegister? {
      DataInvalidateAll(s.d, s.g, a.victims);
    } else if a.DoTimeout? {
      DataInvalidate(s.d, s.g, a.victim);
    } else if a.DoRelease? {
      LocationRelease(s, a, t);
    } else if a.DoWorkerCommit? || a.DoForceCommit? {
      LocationDrained(s, a, t);
    } else {
      LocationOther(s, a, t);
    }
  }

  /** One step of any thread keeps an accepted version safe exactly if it is not its owner giving it up. */
  lemma SafeStep(s: Sys, a: Action, t: nat, v: nat)
    requires Inv(s) && Enabled(s, a) && Safe(s.d, t, v)
    ensures Inv(Apply(s, a)) && (Safe(Apply(s, a).d, t, v) <==> !GivesUp(s, a, t, v))
  {
    var s' := Apply(s, a);
    CoreStep(s, a);
    DataStep(s, a);
    LocationStep(s, a, t);
    if s'.d.locations[t].kind != LocNone {
      LocationResolves(s'.d, s'.g, t);
    }
  }

  /** An accepted completion is safe the moment it is accepted. */
  lemma AcceptedIsSafe(s: Sys, c: Completion)
    requires Inv(s) && Enabled(s, DoComplete(c)) && Accepts(s.d, c)
    ensures var s' := Apply(s, DoComplete(c)); Inv(s') && Safe(s'.d, c.tensor, c.version)
  {
    var a := DoComplete(c);
    CoreStep(s, a);
    DataStep(s, a);
    var s' := Apply(s, a);
    if !(s'.d.locations[c.tensor].version > c.version) {
      LocationResolves(s'.d, s'.g, c.tensor);
    }
  }

  lemma InitInv(s: Sys)
    requires Init(s)
    ensures Inv(s)
  {
    InUseOfFree(s.d.slots);
  }

  /** Every state of every run satisfies the invariant. */
  lemma {:induction false} RunInv(tr: seq<Sys>, acts: seq<Action>, n: nat)
    requires Run(tr, acts) && n < |tr|
    ensures Inv(tr[n])
  {
    if n == 0 {
      InitInv(tr[0]);
    } else {
      RunInv(tr, acts, n - 1);
      assert StepAt(tr, acts, n - 1);
      CoreStep(tr[n - 1], acts[n - 1]);
      DataStep(tr[n - 1], acts[n - 1]);
    }
  }

  ghost predicate InvSafe(s: Sys, t: nat, v: nat) {
    Inv(s) && Safe(s.d, t, v)
  }

  lemma AcceptedNext(tr: seq<Sys>, acts: seq<Action>, n: nat, c: Completion)
    requires Run(tr, acts) && 0 < n < |tr| && Inv(tr[n - 1]) && acts[n - 1] == DoComplete(c) && Accepts(tr[n - 1].d, c)
    ensures InvSafe(tr[n], c.tensor, c.version)
  {
    assert StepAt(tr, acts, n - 1);
    AcceptedIsSafe(tr[n - 1], c);
  }

  lemma SafeNext(tr: seq<Sys>, acts: seq<Action>, n: nat, t: nat, v: nat)
    requires Run(tr, acts) && 0 < n < |tr| && InvSafe(tr[n - 1], t, v) && !GivesUp(tr[n - 1], acts[n - 1], t, v)
    ensures InvSafe(tr[n], t, v)
  {
    assert StepAt(tr, acts, n - 1);
    SafeStep(tr[n - 1], acts[n - 1], t, v);
  }

  lemma {:induction false} StaysSafe(tr: seq<Sys>, acts: seq<Action>, i: nat, j: nat, t: nat, v: nat)
    requires Run(tr, acts) && i <= j < |tr| && InvSafe(tr[i], t, v)
    requires forall k | i <= k < j :: !GivesUp(tr[k], acts[k], t, v)
    ensures InvSafe(tr[j], t, v)
    decreases j
  {
    if i < j {
      StaysSafe(tr, acts, i, j - 1, t, v);
      SafeNext(tr, acts, j, t, v);
    }
  }

  /** Durability: from acceptance on, (t, v) stays safe until its owner gives the named copy up. */
  lemma Durable(tr: seq<Sys>, acts: seq<Action>, i: nat, j: nat)
    requires Run(tr, acts) && i < j < |tr|
    requires acts[i].DoComplete? && Accepts(tr[i].d, acts[i].c)
    requires forall k | i < k < j :: !GivesUp(tr[k], acts[k], acts[i].c.tensor, acts[i].c.version)
    ensures tr[j].d.cfg.gran > 0 && Safe(tr[j].d, acts[i].c.tensor, acts[i].c.version)
  {
    RunInv(tr, acts, i);
    AcceptedNext(tr, acts, i + 1, acts[i].c);
    StaysSafe(tr, acts, i + 1, j, acts[i].c.tensor, acts[i].c.version);
  }

  // --------------------------------------------- copies that come too late

  /** A copy through any grant, past or present, keeps the invariant exactly if it is harmless. */
  lemma CopyKeepsIff(s: Sys, lease: nat, part: nat)
    requires Inv(s) && Addresses(s.d, s.g, lease, part)
    ensures Inv(Apply(s, DoDma(lease, part))) <==> Harmless(s.d, s.g, lease, part)
  {
    CoreDma(s.d, s.g, lease, part);
    MemDmaIff(s.d, s.g, lease, part);
  }

  /** A late copy into a run that was given to someone else spoils the version that lives there now. */
  lemma LateCopySpoils(s: Sys, lease: nat, part: nat, t: nat, v: nat)
    requires Inv(s) && Addresses(s.d, s.g, lease, part) && Resolves(s.d, t, v) && s.d.locations[t].kind == LocPinned
    requires var i := s.g[lease].base + part; var loc := s.d.locations[t];
      loc.slot <= i < loc.slot + SlotsFor(s.d.cfg.gran, loc.nbytes)
    requires s.g[lease].tensor != t || s.g[lease].version != v
    ensures !Resolves(Apply(s, DoDma(lease, part)).d, t, v)
  {
    var i, loc := s.g[lease].base + part, s.d.locations[t];
    var n := SlotsFor(s.d.cfg.gran, loc.nbytes);
    var arena' := Apply(s, DoDma(lease, part)).d.arena;
    assert arena'[loc.slot..loc.slot + n][i - loc.slot] == arena'[i];
    assert Pieces(t, v, n)[i - loc.slot] == Piece(t, v, i - loc.slot);
  }

  // ------------------------------------------- what the invariant says of runs

  /** In every reachable state leases cover disjoint occupied runs that carry their tags. */
  lemma LeasesDisjoint(tr: seq<Sys>, acts: seq<Action>, n: nat, a: nat, b: nat)
    requires Run(tr, acts) && n < |tr|
    requires a in tr[n].d.leases && b in tr[n].d.leases
    ensures var d := tr[n].d; var A := d.leases[a]; var B := d.leases[b];
      && A.base + A.count <= |d.slots|
      && (forall i | A.Covers(i) ::
            && d.slots[i].state != Free && d.slots[i].state == d.slots[A.base].state
            && d.slots[i].lease == a && d.slots[i].tensor == A.tensor && d.slots[i].version == A.version)
      && (a != b ==> forall i :: !(A.Covers(i) && B.Covers(i)))
  {
    RunInv(tr, acts, n);
    var d, g := tr[n].d, tr[n].g;
    forall i | g[a].Covers(i)
      ensures d.slots[i].lease == a && SlotInv(d.slots, g, i)
    {
      CoversIffTagged(d.slots, g, a, i);
    }
    if a != b {
      HeldRunsDisjoint(d.slots, g, a, b);
    }
  }

  /**
   A commit after unlocked IO, worker or forced, finds exactly the run it began with: still draining,
   tagged as remembered, and claimed by nobody else. The forced commit needs no re-check, and the
   worker's re-check never fails.
   */
  lemma CommitFindsItsRun(tr: seq<Sys>, acts: seq<Action>, n: nat, w: nat)
    requires Run(tr, acts) && n < |tr|
    requires w in tr[n].d.drainers && tr[n].d.drainers[w].Copying?
    ensures var d := tr[n].d; var j := d.drainers[w];
      && j.base + j.count <= |d.slots|
      && (forall i | j.base <= i < j.base + j.count ::
            && d.slots[i].state == DrainInFlight && d.slots[i].lease == j.lease
            && d.slots[i].tensor == j.tensor && d.slots[i].version == j.version)
      && (forall v | v in d.drainers && v != w :: d.drainers[v].base != j.base)
      && (forall i | 0 <= i < |d.queue| :: d.queue[i].base != j.base)
  {
    RunInv(tr, acts, n);
    var d, g := tr[n].d, tr[n].g;
    var j := d.drainers[w];
    assert Draining(d.slots, g, j.base, j.count) && CopyTags(d.slots, g, j);
    forall i | j.base <= i < j.base + j.count
      ensures d.slots[i].lease == j.lease && SlotInv(d.slots, g, i)
    {
      CoversIffTagged(d.slots, g, j.lease, i);
    }
  }

  /** Byte accounting: the gauge is the granularity times the occupied slots, so it never underflows. */
  lemma UsedIsExact(tr: seq<Sys>, acts: seq<Action>, n: nat)
    requires Run(tr, acts) && n < |tr|
    ensures tr[n].d.used == tr[n].d.cfg.gran * InUse(tr[n].d.slots)
    ensures 0 <= tr[n].d.used <= tr[n].d.cfg.gran * |tr[n].d.slots|
  {
    RunInv(tr, acts, n);
    UsedBound(tr[n].d.cfg.gran, InUse(tr[n].d.slots), |tr[n].d.slots|);
  }

  lemma UsedBound(gran: nat, used: nat, all: nat)
    requires used <= all
    ensures 0 <= gran * used <= gran * all
  {
  }
}

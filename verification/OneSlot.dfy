/**
 The life of one run in a daemon with a single slot: reserved, filled by the
 GPU, submitted, completed, drained by force. The witness runs are built from it.
 */
module OneSlot {
  import opened SlotTable
  import opened DaemonState
  import opened DaemonInv
  import opened Durability

  lemma SetOne(s: Slot, st: SlotState)
    ensures SetState([s], 0, 1, st) == [s.(state := st)]
  {
  }

  lemma FreeOne(s: Slot)
    ensures FreeRun([s], 0, 1) == [FreeSlot]
  {
  }

  lemma StampOne(id: nat, L: Lease, st: SlotState, gran: nat)
    requires L.base == 0 && L.count == 1
    ensures Stamp([FreeSlot], id, L, st, gran) == [Entry(id, L, st, gran, 0)]
  {
  }

  lemma TakesOne(gran: nat, n: nat)
    requires n <= gran && gran > 0
    ensures SlotsFor(gran, n) == 1
  {
  }

  // ------------------------------------------------------------------ stages

  /** The only slot of `d` is free, and `L` is to take it for a tensor that is nowhere yet. */
  predicate Room(d: Daemon, L: Lease) {
    && d.slots == [FreeSlot] && |d.arena| == 1 && L.base == 0 && L.count == 1 && L.nbytes <= d.cfg.gran
    && d.cfg.gran > 0 && !d.cfg.drainOnComplete && d.nextLease !in d.leases && L.tensor !in d.locations
  }

  function Bytes(L: Lease): Piece { Piece(L.tensor, L.version, 0) }

  /** `L` has the slot in state `st`, with `p` in memory. */
  function Stage(d: Daemon, L: Lease, st: SlotState, p: Piece): Daemon {
    d.(slots := [Entry(d.nextLease, L, st, d.cfg.gran, 0)], arena := [p], leases := d.leases[d.nextLease := L],
       nextLease := d.nextLease + 1, used := d.used + d.cfg.gran)
  }

  /** The tensor is pinned and published. */
  function Stored(d: Daemon, L: Lease): Daemon {
    Stage(d, L, PinnedValid, Bytes(L)).(
      locations := d.locations[L.tensor := Location(L.version, LocPinned, 0, 0, L.nbytes)])
  }

  /** Thread `w` drains it by force and has copied `buf`. */
  function DrainedBy(d: Daemon, L: Lease, w: nat, buf: seq<Piece>): Daemon {
    Stored(d, L).(
      slots := [Entry(d.nextLease, L, DrainInFlight, d.cfg.gran, 0)],
      drainers := d.drainers[w := Copying(0, 1, L.tensor, L.version, d.nextLease, L.nbytes, true, buf)])
  }

  /** The slot is free again and the tensor is in pageable memory. */
  function Drained(d: Daemon, L: Lease): Daemon {
    d.(arena := [Bytes(L)], nextLease := d.nextLease + 1,
       locations := d.locations[L.tensor := Location(L.version, LocPageable, 0, d.nextCold, L.nbytes)],
       cold := d.cold[d.nextCold := ColdEntry(LocPageable, L.nbytes, [Bytes(L)])],
       nextCold := d.nextCold + 1)
  }

  lemma ReserveIs(d: Daemon, g: Grants, L: Lease)
    requires Room(d, L)
    ensures Reserve(d, L.rank, L.epoch, L.tensor, L.version, L.nbytes, 0) == Stage(d, L, ReservedD2H, d.arena[0])
    ensures GrantsAfter(d, g, L.rank, L.epoch, L.tensor, L.version, L.nbytes, 0) == g[d.nextLease := L]
    ensures RunFree(d.slots, 0, SlotsFor(d.cfg.gran, L.nbytes))
  {
    TakesOne(d.cfg.gran, L.nbytes);
    StampOne(d.nextLease, L, ReservedD2H, d.cfg.gran);
    assert [d.arena[0]] == d.arena;
  }

  lemma DmaIs(d: Daemon, g: Grants, L: Lease, p: Piece)
    requires Room(d, L)
    ensures Dma(Stage(d, L, ReservedD2H, p), g[d.nextLease := L], d.nextLease, 0) == Stage(d, L, ReservedD2H, Bytes(L))
    ensures Awaiting(Stage(d, L, ReservedD2H, p), d.nextLease)
  {
    assert [p][0 := Bytes(L)] == [Bytes(L)];
  }

  lemma SubmitIs(d: Daemon, L: Lease)
    requires Room(d, L) && EpochValid(d, L.rank, L.epoch)
    ensures Submit(Stage(d, L, ReservedD2H, Bytes(L)), L.rank, L.epoch, d.nextLease, 0)
      == Stage(d, L, D2HInFlight, Bytes(L))
  {
    SetOne(Entry(d.nextLease, L, ReservedD2H, d.cfg.gran, 0), D2HInFlight);
  }

  function CompletionOf(L: Lease, id: nat): Completion { Completion(L.rank, L.epoch, id, L.tensor, L.version, 0) }

  lemma CompleteIs(d: Daemon, L: Lease, creating: bool)
    requires Room(d, L) && EpochValid(d, L.rank, L.epoch)
    ensures Complete(Stage(d, L, D2HInFlight, Bytes(L)), CompletionOf(L, d.nextLease), creating) == Stored(d, L)
    ensures Landed(Stage(d, L, D2HInFlight, Bytes(L)), d.nextLease)
  {
    SetOne(Entry(d.nextLease, L, D2HInFlight, d.cfg.gran, 0), PinnedValid);
  }

  lemma ForceBeginIs(d: Daemon, L: Lease, w: nat)
    requires Room(d, L) && w !in d.drainers
    ensures ForceBegin(Stored(d, L), w, d.nextLease) == DrainedBy(d, L, w, [])
    ensures Drainable(Stored(d, L), d.nextLease)
  {
    SetOne(Entry(d.nextLease, L, PinnedValid, d.cfg.gran, 0), DrainInFlight);
  }

  lemma CopyIs(d: Daemon, L: Lease, w: nat)
    requires Room(d, L)
    ensures Copy(DrainedBy(d, L, w, []), w) == DrainedBy(d, L, w, [Bytes(L)])
    ensures FullCopy(DrainedBy(d, L, w, [Bytes(L)]), w)
  {
    var d1 := DrainedBy(d, L, w, []);
    assert [] + [d1.arena[0]] == [Bytes(L)];
    assert d1.drainers[w := d1.drainers[w].(buf := [Bytes(L)])] == DrainedBy(d, L, w, [Bytes(L)]).drainers;
  }

  lemma ForceCommitIs(d: Daemon, L: Lease, w: nat)
    requires Room(d, L) && w !in d.drainers
    ensures ForceCommit(DrainedBy(d, L, w, [Bytes(L)]), w, true, LocPageable) == Drained(d, L)
  {
    var d1 := DrainedBy(d, L, w, [Bytes(L)]);
    FreeOne(d1.slots[0]);
    assert d1.drainers - {w} == d.drainers;
    assert d1.leases - {d.nextLease} == d.leases;
    assert d1.locations[L.tensor := Location(L.version, LocPageable, 0, d.nextCold, L.nbytes)]
      == Drained(d, L).locations;
  }
}

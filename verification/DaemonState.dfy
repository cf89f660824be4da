/**
 The daemon's v1 tables and the effect of every critical section on them: one
 function per section, total over all inputs, rejecting what the daemon rejects.
 Work done with the mutex released (drain IO, GPU copies) is split into steps of
 its own, so that sections of other threads can fall in between.
 */
module DaemonState {
  import opened SlotTable

  /** Contents of one slot's worth of arena memory. */
  datatype Piece = Junk | Piece(tensor: nat, version: nat, part: nat)

  datatype LocKind = LocNone | LocPinned | LocPageable | LocNvme

  datatype Location = Location(version: nat, kind: LocKind, slot: nat, cold: nat, nbytes: nat)

  datatype ColdEntry = ColdEntry(kind: LocKind, nbytes: nat, data: seq<Piece>)

  datatype Session = Session(epoch: nat, pid: nat, alive: bool)

  datatype Job = Job(base: nat, count: nat)

  /** A thread that drains a run: a worker holding a popped job, or a thread copying a run out. */
  datatype Drainer =
    | Took(base: nat, count: nat)
    | Copying(base: nat, count: nat, tensor: nat, version: nat, lease: nat, nbytes: nat,
              forced: bool, buf: seq<Piece>)

  datatype Completion = Completion(rank: nat, epoch: nat, lease: nat, tensor: nat, version: nat, slot: nat)

  datatype Config = Config(gran: nat, drainOnComplete: bool)

  datatype Daemon = Daemon(
    cfg: Config,
    slots: seq<Slot>,
    arena: seq<Piece>,
    leases: map<nat, Lease>,
    locations: map<nat, Location>,
    cold: map<nat, ColdEntry>,
    queue: seq<Job>,
    drainers: map<nat, Drainer>,
    sessions: map<nat, Session>,
    nextLease: nat,
    nextEpoch: nat,
    nextCold: nat,
    used: int)

  // ---------------------------------------------------------------- lookups

  predicate EpochValid(d: Daemon, rank: nat, epoch: nat) {
    rank in d.sessions && d.sessions[rank].alive && d.sessions[rank].epoch == epoch
  }

  function StateAt(slots: seq<Slot>, i: nat): SlotState {
    if i < |slots| then slots[i].state else Error
  }

  function UpdateLocation(locs: map<nat, Location>, tensor: nat, version: nat, kind: LocKind,
                          slot: nat, cold: nat, nbytes: nat): map<nat, Location>
  {
    if tensor in locs && version < locs[tensor].version then locs
    else locs[tensor := Location(version, kind, slot, cold, nbytes)]
  }

  function FreeSlots(d: Daemon, base: nat, count: nat): Daemon {
    d.(slots := FreeRun(d.slots, base, count), used := d.used - count * d.cfg.gran)
  }

  // ------------------------------------------------------------ reservation

  /** Commit of a reservation at `base`; the overlap guard leaves everything unchanged. */
  function Reserve(d: Daemon, rank: nat, epoch: nat, tensor: nat, version: nat, nbytes: nat, base: nat): Daemon
    requires d.cfg.gran > 0
  {
    var L := Lease(base, SlotsFor(d.cfg.gran, nbytes), tensor, version, rank, epoch, nbytes);
    if RunFree(d.slots, base, L.count) then
      d.(slots := Stamp(d.slots, d.nextLease, L, ReservedD2H, d.cfg.gran),
         leases := d.leases[d.nextLease := L],
         nextLease := d.nextLease + 1,
         used := d.used + L.count * d.cfg.gran)
    else d
  }

  // ------------------------------------------------------------- D2H events

  predicate Submits(d: Daemon, rank: nat, epoch: nat, lease: nat, slot: nat) {
    && EpochValid(d, rank, epoch)
    && lease in d.leases && d.leases[lease].rank == rank && d.leases[lease].base == slot
    && StateAt(d.slots, slot) == ReservedD2H
  }

  function Submit(d: Daemon, rank: nat, epoch: nat, lease: nat, slot: nat): Daemon {
    if Submits(d, rank, epoch, lease, slot) then
      d.(slots := SetState(d.slots, slot, d.leases[lease].count, D2HInFlight))
    else d
  }

  predicate Accepts(d: Daemon, c: Completion) {
    && EpochValid(d, c.rank, c.epoch)
    && c.lease in d.leases
    && var L := d.leases[c.lease];
    && L.rank == c.rank && L.base == c.slot && L.tensor == c.tensor && L.version == c.version
    && StateAt(d.slots, L.base) == D2HInFlight
  }

  /** Apply one D2H completion; `creating` suppresses the drain of a canonical object under creation. */
  function Complete(d: Daemon, c: Completion, creating: bool): Daemon {
    if !Accepts(d, c) then d
    else
      var L := d.leases[c.lease];
      var drain := !creating && d.cfg.drainOnComplete;
      d.(slots := SetState(d.slots, L.base, L.count, if drain then DrainInFlight else PinnedValid),
         locations := UpdateLocation(d.locations, c.tensor, c.version, LocPinned, L.base, 0, L.nbytes),
         queue := if drain then d.queue + [Job(L.base, L.count)] else d.queue)
  }

  function CompleteAll(d: Daemon, cs: seq<Completion>): Daemon
    decreases |cs|
  {
    if cs == [] then d else CompleteAll(Complete(d, cs[0], false), cs[1..])
  }

  // ---------------------------------------------------------------- release

  /** Releasing drops the run unless a drain (or a finished one) owns its life cycle. */
  predicate ReleaseFrees(st: SlotState) {
    st == PinnedValid || st == ReservedD2H || st == D2HInFlight || st == ReadbackInFlight
  }

  /** The location of `L`'s tensor names the very copy in `L`'s run. */
  predicate NamesRun(locs: map<nat, Location>, L: Lease) {
    L.tensor in locs && var loc := locs[L.tensor];
    loc.slot == L.base && loc.kind == LocPinned && loc.version == L.version
  }

  predicate Releases(d: Daemon, rank: nat, epoch: nat, lease: nat) {
    EpochValid(d, rank, epoch) && lease in d.leases && d.leases[lease].rank == rank
  }

  function ReleaseLease(d: Daemon, rank: nat, epoch: nat, lease: nat): Daemon {
    if !Releases(d, rank, epoch, lease) then d
    else
      var L := d.leases[lease];
      var d1 := d.(leases := d.leases - {lease});
      if !ReleaseFrees(StateAt(d.slots, L.base)) then d1
      else
        var locs := if NamesRun(d.locations, L)
          then d.locations[L.tensor := d.locations[L.tensor].(kind := LocNone)] else d.locations;
        FreeSlots(d1.(locations := locs), L.base, L.count)
  }

  // ----------------------------------------------------------------- drains

  function Take(d: Daemon, w: nat): Daemon {
    if d.queue == [] || w in d.drainers then d
    else d.(queue := d.queue[1..], drainers := d.drainers[w := Took(d.queue[0].base, d.queue[0].count)])
  }

  /** Snapshot of a popped job's tags; a job whose slot is no longer draining is dropped. */
  function Snapshot(d: Daemon, w: nat): Daemon {
    if w !in d.drainers || !d.drainers[w].Took? then d
    else
      var j := d.drainers[w];
      if StateAt(d.slots, j.base) != DrainInFlight then d.(drainers := d.drainers - {w})
      else
        var e := d.slots[j.base];
        d.(drainers := d.drainers[w := Copying(j.base, j.count, e.tensor, e.version, e.lease, e.nbytes, false, [])])
  }

  predicate HasMore(d: Daemon, w: nat) {
    && w in d.drainers && d.drainers[w].Copying? && |d.drainers[w].buf| < d.drainers[w].count
    && d.drainers[w].base + |d.drainers[w].buf| < |d.arena|
  }

  /** Unlocked IO: one more slot's worth of the run reaches the cold buffer. */
  function Copy(d: Daemon, w: nat): Daemon {
    if HasMore(d, w) then
      var j := d.drainers[w];
      d.(drainers := d.drainers[w := j.(buf := j.buf + [d.arena[j.base + |j.buf|]])])
    else d
  }

  /** Shared tail of both drain commits: publish the cold copy, free the run, drop the lease. */
  function FinishDrain(d: Daemon, j: Drainer, kind: LocKind): Daemon
    requires j.Copying?
  {
    var cref := d.nextCold;
    FreeSlots(
      d.(cold := d.cold[cref := ColdEntry(kind, j.nbytes, j.buf)],
         nextCold := cref + 1,
         locations := UpdateLocation(d.locations, j.tensor, j.version, kind, j.base, cref, j.nbytes),
         leases := d.leases - {j.lease}),
      j.base, j.count)
  }

  function RevertDrain(d: Daemon, j: Drainer): Daemon {
    d.(slots := SetState(d.slots, j.base, j.count, PinnedValid))
  }

  /** Worker commit: re-checks the slot state under the relocked mutex. */
  function WorkerCommit(d: Daemon, w: nat, ok: bool, kind: LocKind): Daemon {
    if w !in d.drainers || !d.drainers[w].Copying? || d.drainers[w].forced then d
    else
      var j := d.drainers[w];
      var d1 := d.(drainers := d.drainers - {w});
      if StateAt(d.slots, j.base) != DrainInFlight then d1
      else if !ok then RevertDrain(d1, j)
      else FinishDrain(d1, j, kind)
  }

  /** A lease whose run a reservation under pressure may drain. */
  predicate Drainable(d: Daemon, lease: nat) {
    lease in d.leases && StateAt(d.slots, d.leases[lease].base) == PinnedValid
  }

  function ForceBegin(d: Daemon, w: nat, lease: nat): Daemon {
    if !Drainable(d, lease) || w in d.drainers then d
    else
      var L := d.leases[lease];
      d.(slots := SetState(d.slots, L.base, L.count, DrainInFlight),
         drainers := d.drainers[w := Copying(L.base, L.count, L.tensor, L.version, lease, L.nbytes, true, [])])
  }

  /** Forced commit: no state is re-checked after the mutex was released. */
  function ForceCommit(d: Daemon, w: nat, ok: bool, kind: LocKind): Daemon {
    if w !in d.drainers || !d.drainers[w].Copying? || !d.drainers[w].forced then d
    else
      var j := d.drainers[w];
      var d1 := d.(drainers := d.drainers - {w});
      if !ok then RevertDrain(d1, j) else FinishDrain(d1, j, kind)
  }

  // --------------------------------------------------------------- recovery

  /** Recovery keeps a run whose bytes are safe or being drained, and reclaims any other. */
  predicate RecoveryKeeps(st: SlotState) {
    st == PinnedValid || st == ColdValid || st == DrainInFlight
  }

  predicate OwnedBy(L: Lease, rank: nat, epoch: nat) {
    L.rank == rank && L.epoch == epoch
  }

  function RecoverLease(d: Daemon, rank: nat, epoch: nat, id: nat): Daemon {
    if id !in d.leases || !OwnedBy(d.leases[id], rank, epoch) then d
    else
      var L := d.leases[id];
      var d1 := d.(leases := d.leases - {id});
      if RecoveryKeeps(StateAt(d.slots, L.base)) then d1 else FreeSlots(d1, L.base, L.count)
  }

  /** Recovery of a dead session visits the lease table in some order. */
  function RecoverLeases(d: Daemon, rank: nat, epoch: nat, order: seq<nat>): Daemon
    decreases |order|
  {
    if order == [] then d else RecoverLeases(RecoverLease(d, rank, epoch, order[0]), rank, epoch, order[1..])
  }

  /** Mark the session dead, recover its leases, then pop what its ring still holds. */
  function Invalidate(d: Daemon, rank: nat, order: seq<nat>, stragglers: seq<Completion>): Daemon {
    if rank !in d.sessions || !d.sessions[rank].alive then d
    else
      var s := d.sessions[rank];
      var d1 := d.(sessions := d.sessions[rank := s.(alive := false)]);
      CompleteAll(RecoverLeases(d1, rank, s.epoch, order), stragglers)
  }

  /** A session that registration or the heartbeat monitor invalidates, and what it visits. */
  datatype Victim = Victim(rank: nat, order: seq<nat>, stragglers: seq<Completion>)

  function InvalidateAll(d: Daemon, vs: seq<Victim>): Daemon
    decreases |vs|
  {
    if vs == [] then d
    else InvalidateAll(Invalidate(d, vs[0].rank, vs[0].order, vs[0].stragglers), vs[1..])
  }

  function OpenSession(d: Daemon, rank: nat, pid: nat): Daemon {
    d.(sessions := d.sessions[rank := Session(d.nextEpoch, pid, true)], nextEpoch := d.nextEpoch + 1)
  }

  /** Registration invalidates the rank's own session and every live one of the same process. */
  function Register(d: Daemon, rank: nat, pid: nat, vs: seq<Victim>): Daemon {
    OpenSession(InvalidateAll(d, vs), rank, pid)
  }

  /** `v` visits every lease of the table, and its ring entries are read as the session's own. */
  ghost predicate VictimOk(d: Daemon, v: Victim) {
    && (forall id | id in d.leases :: id in v.order)
    && (v.rank in d.sessions ==>
          forall i | 0 <= i < |v.stragglers| ::
            v.stragglers[i].rank == v.rank && v.stragglers[i].epoch == d.sessions[v.rank].epoch)
  }

  ghost predicate VictimsOk(d: Daemon, vs: seq<Victim>)
    decreases |vs|
  {
    vs != [] ==>
      && VictimOk(d, vs[0])
      && VictimsOk(Invalidate(d, vs[0].rank, vs[0].order, vs[0].stragglers), vs[1..])
  }

  function Ranks(vs: seq<Victim>): set<nat> {
    set i | 0 <= i < |vs| :: vs[i].rank
  }

  /** The sessions a registration ends. */
  function Displaced(d: Daemon, rank: nat, pid: nat): set<nat> {
    set r | r in d.sessions && (r == rank || (d.sessions[r].alive && d.sessions[r].pid == pid))
  }

  ghost predicate RegisterVictims(d: Daemon, rank: nat, pid: nat, vs: seq<Victim>) {
    VictimsOk(d, vs) && Ranks(vs) == Displaced(d, rank, pid)
  }
}

/**
 What every critical section keeps. `CoreInv` is about ownership: leases, runs,
 the single drainer of each draining run, and the byte accounting. `DataInv` is
 about contents: what the arena, the cold copies and the location table hold.
 */
module DaemonInv {
  import opened SlotTable
  import opened DaemonState

  // ------------------------------------------------------------- components

  /** Every lease in the table is a granted one and holds its run. */
  ghost predicate LeaseInv(slots: seq<Slot>, leases: map<nat, Lease>, g: Grants) {
    forall id | id in leases :: Held(slots, g, id) && leases[id] == g[id]
  }

  /** [b, b + c) is the whole run of a held lease and is being drained. */
  ghost predicate Draining(slots: seq<Slot>, g: Grants, b: nat, c: nat) {
    && b < |slots| && slots[b].state == DrainInFlight
    && slots[b].lease in g && g[slots[b].lease].base == b && g[slots[b].lease].count == c
  }

  /** A copying drainer remembers the tags of the run it drains. */
  ghost predicate CopyTags(slots: seq<Slot>, g: Grants, j: Drainer) {
    j.Copying? ==>
      && j.base < |slots| && j.lease == slots[j.base].lease && j.lease in g
      && j.tensor == g[j.lease].tensor && j.version == g[j.lease].version && j.nbytes == g[j.lease].nbytes
  }

  ghost predicate Claimed(queue: seq<Job>, drainers: map<nat, Drainer>, b: nat) {
    || (exists i :: 0 <= i < |queue| && queue[i].base == b)
    || (exists w :: w in drainers && drainers[w].base == b)
  }

  /** No two claims on one run. */
  ghost predicate ClaimsDistinct(queue: seq<Job>, drainers: map<nat, Drainer>) {
    && (forall i, j | 0 <= i < j < |queue| :: queue[i].base != queue[j].base)
    && (forall w, i | w in drainers && 0 <= i < |queue| :: drainers[w].base != queue[i].base)
    && (forall w, v | w in drainers && v in drainers && w != v :: drainers[w].base != drainers[v].base)
  }

  ghost predicate ClaimsDrain(slots: seq<Slot>, g: Grants, queue: seq<Job>, drainers: map<nat, Drainer>) {
    && (forall i | 0 <= i < |queue| :: Draining(slots, g, queue[i].base, queue[i].count))
    && (forall w | w in drainers ::
          Draining(slots, g, drainers[w].base, drainers[w].count) && CopyTags(slots, g, drainers[w]))
  }

  ghost predicate DrainsClaimed(slots: seq<Slot>, g: Grants, queue: seq<Job>, drainers: map<nat, Drainer>) {
    forall b | 0 <= b < |slots| && slots[b].state == DrainInFlight
               && slots[b].lease in g && g[slots[b].lease].base == b ::
      Claimed(queue, drainers, b)
  }

  /** Each draining run belongs to exactly one queued job, working drainer or forced drain. */
  ghost predicate ClaimInv(slots: seq<Slot>, g: Grants, queue: seq<Job>, drainers: map<nat, Drainer>) {
    && ClaimsDrain(slots, g, queue, drainers)
    && ClaimsDistinct(queue, drainers)
    && DrainsClaimed(slots, g, queue, drainers)
  }

  ghost predicate CountersInv(d: Daemon, g: Grants) {
    && d.cfg.gran > 0 && d.nextLease > 0
    && |d.arena| == |d.slots|
    && (forall id | id in g :: id < d.nextLease && g[id].count == SlotsFor(d.cfg.gran, g[id].nbytes))
    && (forall c | c in d.cold :: c < d.nextCold)
    && (forall r | r in d.sessions :: d.sessions[r].epoch < d.nextEpoch)
  }

  ghost predicate UsedInv(d: Daemon) {
    d.used == d.cfg.gran * InUse(d.slots)
  }

  ghost predicate CoreInv(d: Daemon, g: Grants) {
    && CountersInv(d, g)
    && TableInv(d.slots, g)
    && LeaseInv(d.slots, d.leases, g)
    && ClaimInv(d.slots, g, d.queue, d.drainers)
    && UsedInv(d)
  }

  // --------------------------------------------------------------- contents

  predicate Readable(st: SlotState) {
    st == PinnedValid || st == DrainInFlight
  }

  /** The bytes of (tensor, version), one piece per slot. */
  function Pieces(tensor: nat, version: nat, n: nat): seq<Piece> {
    seq(n, k requires 0 <= k < n => Piece(tensor, version, k))
  }

  ghost predicate MemInv(slots: seq<Slot>, arena: seq<Piece>, g: Grants) {
    |arena| == |slots| &&
    forall i | 0 <= i < |slots| && Readable(slots[i].state) && slots[i].lease in g
               && g[slots[i].lease].base <= i ::
      arena[i] == Piece(slots[i].tensor, slots[i].version, i - g[slots[i].lease].base)
  }

  ghost predicate BufOk(j: Drainer) {
    j.Copying? ==> |j.buf| <= j.count && forall k | 0 <= k < |j.buf| :: j.buf[k] == Piece(j.tensor, j.version, k)
  }

  ghost predicate LocOk(slots: seq<Slot>, cold: map<nat, ColdEntry>, g: Grants, gran: nat, t: nat, loc: Location)
    requires gran > 0
  {
    match loc.kind
    case LocNone => true
    case LocPinned =>
      && loc.slot < |slots| && Readable(slots[loc.slot].state)
      && slots[loc.slot].lease in g
      && var L := g[slots[loc.slot].lease];
      L.base == loc.slot && L.tensor == t && L.version == loc.version && L.nbytes == loc.nbytes
    case _ =>
      && loc.cold in cold
      && cold[loc.cold].data == Pieces(t, loc.version, SlotsFor(gran, loc.nbytes))
  }

  ghost predicate BufInv(drainers: map<nat, Drainer>) {
    forall w | w in drainers :: BufOk(drainers[w])
  }

  ghost predicate LocInv(slots: seq<Slot>, cold: map<nat, ColdEntry>, g: Grants, gran: nat, locs: map<nat, Location>)
    requires gran > 0
  {
    forall t | t in locs :: LocOk(slots, cold, g, gran, t, locs[t])
  }

  ghost predicate DataInv(d: Daemon, g: Grants) {
    && d.cfg.gran > 0
    && MemInv(d.slots, d.arena, g)
    && BufInv(d.drainers)
    && LocInv(d.slots, d.cold, g, d.cfg.gran, d.locations)
  }

  // ------------------------------------------- pointwise changes of the table

  ghost predicate Moved(slots: seq<Slot>, slots': seq<Slot>, id: nat, st: SlotState) {
    && |slots'| == |slots|
    && (forall i | 0 <= i < |slots| ::
          slots'[i] == if slots[i].lease == id then slots[i].(state := st) else slots[i])
  }

  ghost predicate Freed(slots: seq<Slot>, slots': seq<Slot>, id: nat) {
    && |slots'| == |slots|
    && (forall i | 0 <= i < |slots| :: slots'[i] == if slots[i].lease == id then FreeSlot else slots[i])
  }

  /** Moving a run between states other than DRAIN_IN_FLIGHT leaves every claim as it was. */
  lemma MoveKeepsClaims(slots: seq<Slot>, slots': seq<Slot>, g: Grants, id: nat, st: SlotState,
                        queue: seq<Job>, drainers: map<nat, Drainer>)
    requires TableInv(slots, g) && Held(slots, g, id) && Moved(slots, slots', id, st)
    requires StateOf(slots, g, id) != DrainInFlight && st != DrainInFlight
    requires ClaimInv(slots, g, queue, drainers)
    ensures ClaimInv(slots', g, queue, drainers)
  {
    OtherRuns(slots, g, id);
  }

  lemma FreeKeepsClaims(slots: seq<Slot>, slots': seq<Slot>, g: Grants, id: nat,
                        queue: seq<Job>, drainers: map<nat, Drainer>)
    requires TableInv(slots, g) && Held(slots, g, id) && Freed(slots, slots', id)
    requires StateOf(slots, g, id) != DrainInFlight
    requires ClaimInv(slots, g, queue, drainers)
    ensures ClaimInv(slots', g, queue, drainers)
  {
    OtherRuns(slots, g, id);
  }

  /** All slots tagged `id` are in the state of its run. */
  lemma OtherRuns(slots: seq<Slot>, g: Grants, id: nat)
    requires TableInv(slots, g) && Held(slots, g, id)
    ensures forall i | 0 <= i < |slots| && slots[i].lease == id :: slots[i].state == StateOf(slots, g, id)
  {
    forall i | 0 <= i < |slots| && slots[i].lease == id ensures slots[i].state == StateOf(slots, g, id) {
      assert SlotInv(slots, g, i);
    }
  }

  lemma MoveKeepsLeases(slots: seq<Slot>, slots': seq<Slot>, g: Grants, id: nat, st: SlotState, leases: map<nat, Lease>)
    requires TableInv(slots, g) && Moved(slots, slots', id, st) && LeaseInv(slots, leases, g)
    ensures LeaseInv(slots', leases, g)
  {
  }

  lemma FreeKeepsLeases(slots: seq<Slot>, slots': seq<Slot>, g: Grants, id: nat, leases: map<nat, Lease>)
    requires TableInv(slots, g) && Freed(slots, slots', id) && LeaseInv(slots, leases, g)
    ensures LeaseInv(slots', leases - {id}, g)
  {
  }

  lemma MoveKeepsUsed(slots: seq<Slot>, g: Grants, id: nat, st: SlotState)
    requires TableInv(slots, g) && Held(slots, g, id) && st != Free
    ensures InUse(SetState(slots, g[id].base, g[id].count, st)) == InUse(slots)
  {
    var r := SetState(slots, g[id].base, g[id].count, st);
    SetStateByTag(slots, g, id, st);
    forall i | 0 <= i < |slots| ensures (slots[i].state == Free) == (r[i].state == Free) {
      assert SlotInv(slots, g, i);
    }
    InUseSameStates(slots, r);
  }

  lemma FreeLowersUsed(slots: seq<Slot>, g: Grants, id: nat)
    requires TableInv(slots, g) && Held(slots, g, id)
    ensures InUse(slots) == InUse(FreeRun(slots, g[id].base, g[id].count)) + g[id].count
  {
    forall i | g[id].Covers(i) ensures slots[i].state != Free {
      CoversIffTagged(slots, g, id, i);
      assert SlotInv(slots, g, i);
    }
    InUseRun(slots, FreeRun(slots, g[id].base, g[id].count), g[id].base, g[id].count);
  }

  // ------------------------------------------------------------ core, by step

  /** Only the slots change, and only the state of one run outside any drain. */
  lemma CoreMove(d: Daemon, g: Grants, id: nat, st: SlotState)
    requires CoreInv(d, g) && Held(d.slots, g, id)
    requires StateOf(d.slots, g, id) != DrainInFlight && st != DrainInFlight && st != Free
    ensures CoreInv(d.(slots := SetState(d.slots, g[id].base, g[id].count, st)), g)
  {
    var r := SetState(d.slots, g[id].base, g[id].count, st);
    SetStateByTag(d.slots, g, id, st);
    MoveKeepsLeases(d.slots, r, g, id, st, d.leases);
    MoveKeepsClaims(d.slots, r, g, id, st, d.queue, d.drainers);
    MoveKeepsUsed(d.slots, g, id, st);
  }

  /** The run is freed outside any drain and its lease dropped. */
  lemma CoreFree(d: Daemon, g: Grants, id: nat)
    requires CoreInv(d, g) && Held(d.slots, g, id) && StateOf(d.slots, g, id) != DrainInFlight
    ensures CoreInv(FreeSlots(d.(leases := d.leases - {id}), g[id].base, g[id].count), g)
  {
    var r := FreeRun(d.slots, g[id].base, g[id].count);
    FreeRunByTag(d.slots, g, id);
    FreeKeepsLeases(d.slots, r, g, id, d.leases);
    FreeKeepsClaims(d.slots, r, g, id, d.queue, d.drainers);
    FreeLowersUsed(d.slots, g, id);
    UsedAfter(d.cfg.gran, InUse(d.slots), InUse(r), g[id].count);
  }

  lemma UsedAfter(gran: nat, before: nat, after: nat, count: nat)
    requires before == after + count
    ensures gran * before == gran * after + count * gran
  {
  }

  lemma CoreSubmit(d: Daemon, g: Grants, rank: nat, epoch: nat, lease: nat, slot: nat)
    requires CoreInv(d, g)
    ensures CoreInv(Submit(d, rank, epoch, lease, slot), g)
  {
    if Submits(d, rank, epoch, lease, slot) {
      CoreMove(d, g, lease, D2HInFlight);
    }
  }

  // ------------------------------------------------------ claims come and go

  /** A run that starts draining is claimed by the job appended to the queue. */
  lemma EnqueueClaims(slots: seq<Slot>, slots': seq<Slot>, g: Grants, id: nat,
                      queue: seq<Job>, drainers: map<nat, Drainer>)
    requires TableInv(slots, g) && Held(slots, g, id) && Moved(slots, slots', id, DrainInFlight)
    requires StateOf(slots, g, id) != DrainInFlight
    requires ClaimInv(slots, g, queue, drainers)
    ensures ClaimInv(slots', g, queue + [Job(g[id].base, g[id].count)], drainers)
  {
    var q := queue + [Job(g[id].base, g[id].count)];
    forall b | 0 <= b < |slots'| && slots'[b].state == DrainInFlight
               && slots'[b].lease in g && g[slots'[b].lease].base == b
      ensures Claimed(q, drainers, b)
    {
      if slots[b].lease == id {
        assert q[|queue|].base == b;
      } else {
        ClaimedInLonger(queue, drainers, q, drainers, b);
      }
    }
  }

  lemma ClaimedInLonger(q: seq<Job>, dr: map<nat, Drainer>, q': seq<Job>, dr': map<nat, Drainer>, b: nat)
    requires Claimed(q, dr, b) && q <= q'
    requires forall w | w in dr :: w in dr' && dr'[w].base == dr[w].base
    ensures Claimed(q', dr', b)
  {
    if i :| 0 <= i < |q| && q[i].base == b {
      assert q'[i].base == b;
    }
  }

  /** A forced drain claims the run it moves to DRAIN_IN_FLIGHT. */
  lemma ForceClaims(slots: seq<Slot>, slots': seq<Slot>, g: Grants, id: nat,
                    queue: seq<Job>, drainers: map<nat, Drainer>, w: nat, j: Drainer)
    requires TableInv(slots, g) && Held(slots, g, id) && Moved(slots, slots', id, DrainInFlight)
    requires StateOf(slots, g, id) != DrainInFlight && w !in drainers
    requires j.Copying? && j.base == g[id].base && j.count == g[id].count && j.lease == id
    requires j.tensor == g[id].tensor && j.version == g[id].version && j.nbytes == g[id].nbytes
    requires ClaimInv(slots, g, queue, drainers)
    ensures ClaimInv(slots', g, queue, drainers[w := j])
  {
    var dr := drainers[w := j];
    forall b | 0 <= b < |slots'| && slots'[b].state == DrainInFlight
               && slots'[b].lease in g && g[slots'[b].lease].base == b
      ensures Claimed(queue, dr, b)
    {
      if slots[b].lease == id {
        assert dr[w].base == b;
      } else {
        ClaimedInLonger(queue, drainers, queue, dr, b);
      }
    }
  }

  /** A drainer leaves together with its run's DRAIN_IN_FLIGHT state. */
  lemma LeaveClaims(slots: seq<Slot>, slots': seq<Slot>, g: Grants, queue: seq<Job>,
                    drainers: map<nat, Drainer>, w: nat, id: nat)
    requires TableInv(slots, g) && w in drainers && ClaimInv(slots, g, queue, drainers)
    requires id == slots[drainers[w].base].lease
    requires Moved(slots, slots', id, PinnedValid) || Freed(slots, slots', id)
    ensures ClaimInv(slots', g, queue, drainers - {w})
  {
    var dr := drainers - {w};
    forall b | 0 <= b < |slots'| && slots'[b].state == DrainInFlight
               && slots'[b].lease in g && g[slots'[b].lease].base == b
      ensures Claimed(queue, dr, b)
    {
      assert slots'[b] == slots[b] && b != drainers[w].base;
      assert Claimed(queue, drainers, b);
      if v :| v in drainers && drainers[v].base == b {
        assert v in dr;
      }
    }
  }

  /** Popping a job moves its claim from the queue to the worker. */
  lemma TakeClaims(slots: seq<Slot>, g: Grants, queue: seq<Job>, drainers: map<nat, Drainer>, w: nat)
    requires ClaimInv(slots, g, queue, drainers) && queue != [] && w !in drainers
    ensures ClaimInv(slots, g, queue[1..], drainers[w := Took(queue[0].base, queue[0].count)])
  {
    var q := queue[1..];
    var dr := drainers[w := Took(queue[0].base, queue[0].count)];
    assert forall i | 0 <= i < |q| :: q[i] == queue[i + 1];
    forall b | 0 <= b < |slots| && slots[b].state == DrainInFlight
               && slots[b].lease in g && g[slots[b].lease].base == b
      ensures Claimed(q, dr, b)
    {
      assert Claimed(queue, drainers, b);
      if i :| 0 <= i < |queue| && queue[i].base == b {
        if i == 0 {
          assert dr[w].base == b;
        } else {
          assert q[i - 1].base == b;
        }
      } else {
        var v :| v in drainers && drainers[v].base == b;
        assert dr[v].base == b;
      }
    }
  }

  /** A drainer that keeps its run keeps its claim. */
  lemma SameClaims(slots: seq<Slot>, g: Grants, queue: seq<Job>, drainers: map<nat, Drainer>, w: nat, j: Drainer)
    requires ClaimInv(slots, g, queue, drainers) && w in drainers
    requires j.base == drainers[w].base && j.count == drainers[w].count && CopyTags(slots, g, j)
    ensures ClaimInv(slots, g, queue, drainers[w := j])
  {
    var dr := drainers[w := j];
    forall b | 0 <= b < |slots| && slots[b].state == DrainInFlight
               && slots[b].lease in g && g[slots[b].lease].base == b
      ensures Claimed(queue, dr, b)
    {
      ClaimedInLonger(queue, drainers, queue, dr, b);
    }
  }

  // --------------------------------------------------- core, remaining steps

  /** The grant history after a reservation attempt at `base`. */
  ghost function GrantsAfter(d: Daemon, g: Grants, rank: nat, epoch: nat, tensor: nat, version: nat,
                             nbytes: nat, base: nat): Grants
    requires d.cfg.gran > 0
  {
    var L := Lease(base, SlotsFor(d.cfg.gran, nbytes), tensor, version, rank, epoch, nbytes);
    if RunFree(d.slots, base, L.count) then g[d.nextLease := L] else g
  }

  lemma StampKeepsLeases(slots: seq<Slot>, g: Grants, id: nat, L: Lease, st: SlotState, gran: nat,
                         leases: map<nat, Lease>)
    requires TableInv(slots, g) && id > 0 && id !in g && st != Free
    requires L.count > 0 && RunFree(slots, L.base, L.count)
    requires LeaseInv(slots, leases, g)
    ensures LeaseInv(Stamp(slots, id, L, st, gran), leases[id := L], g[id := L])
    ensures InUse(Stamp(slots, id, L, st, gran)) == InUse(slots) + L.count
  {
    var r := Stamp(slots, id, L, st, gran);
    StampKeepsTable(slots, g, id, L, st, gran);
    forall k | k in leases ensures Held(r, g[id := L], k) {
      assert Held(slots, g, k);
    }
    InUseRun(r, slots, L.base, L.count);
  }

  lemma StampKeepsClaims(slots: seq<Slot>, g: Grants, id: nat, L: Lease, st: SlotState, gran: nat,
                         queue: seq<Job>, drainers: map<nat, Drainer>)
    requires TableInv(slots, g) && id > 0 && id !in g && st != Free && st != DrainInFlight
    requires L.count > 0 && RunFree(slots, L.base, L.count)
    requires ClaimInv(slots, g, queue, drainers)
    ensures ClaimInv(Stamp(slots, id, L, st, gran), g[id := L], queue, drainers)
  {
    StampKeepsTable(slots, g, id, L, st, gran);
    var r, g' := Stamp(slots, id, L, st, gran), g[id := L];
    StampKeepsDrains(slots, g, id, L, r, queue, drainers);
    forall b | 0 <= b < |r| && r[b].state == DrainInFlight && r[b].lease in g' && g'[r[b].lease].base == b
      ensures Claimed(queue, drainers, b)
    {
      assert r[b] == slots[b];
    }
  }

  lemma StampKeepsDrains(slots: seq<Slot>, g: Grants, id: nat, L: Lease, r: seq<Slot>,
                         queue: seq<Job>, drainers: map<nat, Drainer>)
    requires ClaimsDrain(slots, g, queue, drainers) && id !in g && |r| == |slots|
    requires forall i | 0 <= i < |slots| && !L.Covers(i) :: r[i] == slots[i]
    requires forall i | 0 <= i < |slots| && L.Covers(i) :: slots[i] == FreeSlot
    ensures ClaimsDrain(r, g[id := L], queue, drainers)
  {
  }

  lemma CoreReserve(d: Daemon, g: Grants, rank: nat, epoch: nat, tensor: nat, version: nat, nbytes: nat, base: nat)
    requires CoreInv(d, g)
    ensures CoreInv(Reserve(d, rank, epoch, tensor, version, nbytes, base),
                    GrantsAfter(d, g, rank, epoch, tensor, version, nbytes, base))
  {
    var L := Lease(base, SlotsFor(d.cfg.gran, nbytes), tensor, version, rank, epoch, nbytes);
    if RunFree(d.slots, base, L.count) {
      var r := Stamp(d.slots, d.nextLease, L, ReservedD2H, d.cfg.gran);
      StampKeepsTable(d.slots, g, d.nextLease, L, ReservedD2H, d.cfg.gran);
      StampKeepsLeases(d.slots, g, d.nextLease, L, ReservedD2H, d.cfg.gran, d.leases);
      StampKeepsClaims(d.slots, g, d.nextLease, L, ReservedD2H, d.cfg.gran, d.queue, d.drainers);
      UsedAfter(d.cfg.gran, InUse(r), InUse(d.slots), L.count);
    }
  }

  lemma CoreComplete(d: Daemon, g: Grants, c: Completion, creating: bool)
    requires CoreInv(d, g)
    ensures CoreInv(Complete(d, c, creating), g)
  {
    if Accepts(d, c) {
      if creating || !d.cfg.drainOnComplete {
        CoreMove(d, g, c.lease, PinnedValid);
      } else {
        var r := SetState(d.slots, g[c.lease].base, g[c.lease].count, DrainInFlight);
        SetStateByTag(d.slots, g, c.lease, DrainInFlight);
        MoveKeepsLeases(d.slots, r, g, c.lease, DrainInFlight, d.leases);
        MoveKeepsUsed(d.slots, g, c.lease, DrainInFlight);
        EnqueueClaims(d.slots, r, g, c.lease, d.queue, d.drainers);
      }
    }
  }

  lemma {:induction false} CoreCompleteAll(d: Daemon, g: Grants, cs: seq<Completion>)
    requires CoreInv(d, g)
    ensures CoreInv(CompleteAll(d, cs), g)
    decreases |cs|
  {
    if cs != [] {
      CoreComplete(d, g, cs[0], false);
      CoreCompleteAll(Complete(d, cs[0], false), g, cs[1..]);
    }
  }

  lemma CoreDropLease(d: Daemon, g: Grants, id: nat)
    requires CoreInv(d, g)
    ensures CoreInv(d.(leases := d.leases - {id}), g)
  {
  }

  lemma CoreRelease(d: Daemon, g: Grants, rank: nat, epoch: nat, lease: nat)
    requires CoreInv(d, g)
    ensures CoreInv(ReleaseLease(d, rank, epoch, lease), g)
  {
    if Releases(d, rank, epoch, lease) {
      if ReleaseFrees(StateAt(d.slots, d.leases[lease].base)) {
        CoreFree(d, g, lease);
      } else {
        CoreDropLease(d, g, lease);
      }
    }
  }

  lemma CoreTake(d: Daemon, g: Grants, w: nat)
    requires CoreInv(d, g)
    ensures CoreInv(Take(d, w), g)
  {
    if d.queue != [] && w !in d.drainers {
      TakeClaims(d.slots, g, d.queue, d.drainers, w);
    }
  }

  lemma CoreSnapshot(d: Daemon, g: Grants, w: nat)
    requires CoreInv(d, g)
    ensures CoreInv(Snapshot(d, w), g)
  {
    if w in d.drainers && d.drainers[w].Took? {
      var j := d.drainers[w];
      assert Draining(d.slots, g, j.base, j.count);
      var e := d.slots[j.base];
      assert SlotInv(d.slots, g, j.base);
      SameClaims(d.slots, g, d.queue, d.drainers, w,
                 Copying(j.base, j.count, e.tensor, e.version, e.lease, e.nbytes, false, []));
    }
  }

  lemma CoreCopy(d: Daemon, g: Grants, w: nat)
    requires CoreInv(d, g)
    ensures CoreInv(Copy(d, w), g)
  {
    if HasMore(d, w) {
      SameClaims(d.slots, g, d.queue, d.drainers, w, Copy(d, w).drainers[w]);
    }
  }

  lemma CoreRevert(d: Daemon, g: Grants, w: nat)
    requires CoreInv(d, g) && w in d.drainers
    ensures CoreInv(RevertDrain(d.(drainers := d.drainers - {w}), d.drainers[w]), g)
  {
    var j := d.drainers[w];
    assert Draining(d.slots, g, j.base, j.count);
    var id := d.slots[j.base].lease;
    var r := SetState(d.slots, j.base, j.count, PinnedValid);
    SetStateByTag(d.slots, g, id, PinnedValid);
    MoveKeepsLeases(d.slots, r, g, id, PinnedValid, d.leases);
    MoveKeepsUsed(d.slots, g, id, PinnedValid);
    LeaveClaims(d.slots, r, g, d.queue, d.drainers, w, id);
  }

  lemma CoreFinish(d: Daemon, g: Grants, w: nat, kind: LocKind)
    requires CoreInv(d, g) && w in d.drainers && d.drainers[w].Copying?
    ensures CoreInv(FinishDrain(d.(drainers := d.drainers - {w}), d.drainers[w], kind), g)
  {
    var j := d.drainers[w];
    assert Draining(d.slots, g, j.base, j.count) && CopyTags(d.slots, g, j);
    var r := FreeRun(d.slots, j.base, j.count);
    FreeRunByTag(d.slots, g, j.lease);
    FreeKeepsLeases(d.slots, r, g, j.lease, d.leases);
    FreedUsed(d, g, j.lease);
    LeaveClaims(d.slots, r, g, d.queue, d.drainers, w, j.lease);
    FinishCounters(d, g, w, kind);
  }

  lemma FinishCounters(d: Daemon, g: Grants, w: nat, kind: LocKind)
    requires CountersInv(d, g) && w in d.drainers && d.drainers[w].Copying?
    ensures CountersInv(FinishDrain(d.(drainers := d.drainers - {w}), d.drainers[w], kind), g)
  {
  }

  lemma FreedUsed(d: Daemon, g: Grants, id: nat)
    requires UsedInv(d) && TableInv(d.slots, g) && Held(d.slots, g, id)
    ensures d.used - g[id].count * d.cfg.gran == d.cfg.gran * InUse(FreeRun(d.slots, g[id].base, g[id].count))
  {
    FreeLowersUsed(d.slots, g, id);
    UsedAfter(d.cfg.gran, InUse(d.slots), InUse(FreeRun(d.slots, g[id].base, g[id].count)), g[id].count);
  }

  lemma CoreWorkerCommit(d: Daemon, g: Grants, w: nat, ok: bool, kind: LocKind)
    requires CoreInv(d, g)
    ensures CoreInv(WorkerCommit(d, w, ok, kind), g)
  {
    if w in d.drainers && d.drainers[w].Copying? && !d.drainers[w].forced {
      assert Draining(d.slots, g, d.drainers[w].base, d.drainers[w].count);
      CoreRevert(d, g, w);
      CoreFinish(d, g, w, kind);
    }
  }

  lemma CoreForceBegin(d: Daemon, g: Grants, w: nat, lease: nat)
    requires CoreInv(d, g)
    ensures CoreInv(ForceBegin(d, w, lease), g)
  {
    if Drainable(d, lease) && w !in d.drainers {
      var d' := ForceBegin(d, w, lease);
      SetStateByTag(d.slots, g, lease, DrainInFlight);
      MoveKeepsLeases(d.slots, d'.slots, g, lease, DrainInFlight, d.leases);
      MoveKeepsUsed(d.slots, g, lease, DrainInFlight);
      ForceClaims(d.slots, d'.slots, g, lease, d.queue, d.drainers, w, d'.drainers[w]);
    }
  }

  lemma CoreForceCommit(d: Daemon, g: Grants, w: nat, ok: bool, kind: LocKind)
    requires CoreInv(d, g)
    ensures CoreInv(ForceCommit(d, w, ok, kind), g)
  {
    if w in d.drainers && d.drainers[w].Copying? && d.drainers[w].forced {
      CoreRevert(d, g, w);
      CoreFinish(d, g, w, kind);
    }
  }

  lemma CoreRecoverLease(d: Daemon, g: Grants, rank: nat, epoch: nat, id: nat)
    requires CoreInv(d, g)
    ensures CoreInv(RecoverLease(d, rank, epoch, id), g)
  {
    if id in d.leases && OwnedBy(d.leases[id], rank, epoch) {
      if RecoveryKeeps(StateAt(d.slots, d.leases[id].base)) {
        CoreDropLease(d, g, id);
      } else {
        CoreFree(d, g, id);
      }
    }
  }

  lemma {:induction false} CoreRecoverLeases(d: Daemon, g: Grants, rank: nat, epoch: nat, order: seq<nat>)
    requires CoreInv(d, g)
    ensures CoreInv(RecoverLeases(d, rank, epoch, order), g)
    decreases |order|
  {
    if order != [] {
      CoreRecoverLease(d, g, rank, epoch, order[0]);
      CoreRecoverLeases(RecoverLease(d, rank, epoch, order[0]), g, rank, epoch, order[1..]);
    }
  }

  lemma CoreInvalidate(d: Daemon, g: Grants, v: Victim)
    requires CoreInv(d, g)
    ensures CoreInv(Invalidate(d, v.rank, v.order, v.stragglers), g)
  {
    if v.rank in d.sessions && d.sessions[v.rank].alive {
      var s := d.sessions[v.rank];
      var d1 := d.(sessions := d.sessions[v.rank := s.(alive := false)]);
      CoreRecoverLeases(d1, g, v.rank, s.epoch, v.order);
      CoreCompleteAll(RecoverLeases(d1, v.rank, s.epoch, v.order), g, v.stragglers);
    }
  }

  lemma {:induction false} CoreInvalidateAll(d: Daemon, g: Grants, vs: seq<Victim>)
    requires CoreInv(d, g)
    ensures CoreInv(InvalidateAll(d, vs), g)
    decreases |vs|
  {
    if vs != [] {
      CoreInvalidate(d, g, vs[0]);
      CoreInvalidateAll(Invalidate(d, vs[0].rank, vs[0].order, vs[0].stragglers), g, vs[1..]);
    }
  }
}

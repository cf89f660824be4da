/**
 The daemon object itself: the tables as fields updated in place, the slot table
 as an array, one method per critical section. Each method is proved to have
 exactly the effect its specification function in `DaemonState` has on the view
 of the tables; what holds of all runs of those functions holds of this object.
 */
module OffloadDaemonObject {
  import opened SlotTable
  import opened DaemonState
  import opened Allocator
  import Commute
  import Durability
  import Fencing

  /** What a rank puts into its completion ring; the ring's owner supplies rank and epoch. */
  datatype RingEntry = RingEntry(lease: nat, tensor: nat, version: nat, slot: nat)

  function AsCompletion(rank: nat, epoch: nat, e: RingEntry): Completion {
    Completion(rank, epoch, e.lease, e.tensor, e.version, e.slot)
  }

  function AsCompletions(rank: nat, epoch: nat, es: seq<RingEntry>): (cs: seq<Completion>)
    ensures |cs| == |es| && forall i | 0 <= i < |es| :: cs[i] == AsCompletion(rank, epoch, es[i])
  {
    seq(|es|, i requires 0 <= i < |es| => AsCompletion(rank, epoch, es[i]))
  }

  lemma FitIsFree(s: seq<Slot>, w: Window, count: nat, base: nat)
    requires FitsAt(s, w, count, base)
    ensures RunFree(s, base, count)
  {
  }

  class OffloadDaemon {
    const cfg: Config
    const windows: seq<Window>
    const slots: array<Slot>
    var arena: seq<Piece>
    var leases: map<nat, Lease>
    var locations: map<nat, Location>
    var cold: map<nat, ColdEntry>
    var queue: seq<Job>
    var drainers: map<nat, Drainer>
    var sessions: map<nat, Session>
    var nextLease: nat
    var nextEpoch: nat
    var nextCold: nat
    var used: int

    ghost function View(): Daemon
      reads this, slots
    {
      Daemon(cfg, slots[..], arena, leases, locations, cold, queue, drainers, sessions,
             nextLease, nextEpoch, nextCold, used)
    }

    predicate Fits(base: nat, count: nat)
    {
      count > 0 && base + count <= slots.Length
    }

    /** Every run that a table entry names lies inside the slot table. */
    ghost predicate Valid()
      reads this, slots
    {
      && cfg.gran > 0 && |arena| == slots.Length
      && (forall j | 0 <= j < |windows| :: WindowOk(windows[j], slots.Length))
      && (forall id | id in leases :: Fits(leases[id].base, leases[id].count))
      && (forall i | 0 <= i < |queue| :: Fits(queue[i].base, queue[i].count))
      && (forall w | w in drainers :: Fits(drainers[w].base, drainers[w].count))
    }

    constructor (cfg: Config, windows: seq<Window>, n: nat, memory: seq<Piece>)
      requires cfg.gran > 0 && |memory| == n
      requires forall j | 0 <= j < |windows| :: WindowOk(windows[j], n)
      ensures Valid() && fresh(slots) && Durability.Init(Durability.Sys(View(), map[]))
    {
      this.cfg, this.windows := cfg, windows;
      slots := new Slot[n](_ => FreeSlot);
      arena := memory;
      leases, locations, cold := map[], map[], map[];
      queue, drainers, sessions := [], map[], map[];
      nextLease, nextEpoch, nextCold, used := 1, 1, 1, 0;
    }

    // ---------------------------------------------------------- slot helpers

    method SetRunState(base: nat, count: nat, st: SlotState)
      requires base + count <= slots.Length
      modifies slots
      ensures slots[..] == SetState(old(slots[..]), base, count, st)
    {
      var k := 0;
      while k < count
        invariant k <= count
        invariant slots[..] == SetState(old(slots[..]), base, k, st)
      {
        slots[base + k] := slots[base + k].(state := st);
        k := k + 1;
      }
    }

    method FreeTheRun(base: nat, count: nat)
      requires base + count <= slots.Length
      modifies slots, this`used
      ensures View() == FreeSlots(old(View()), base, count)
    {
      var k := 0;
      while k < count
        invariant k <= count
        invariant slots[..] == FreeRun(old(slots[..]), base, k)
        invariant unchanged(this)
      {
        slots[base + k] := FreeSlot;
        k := k + 1;
      }
      used := used - count * cfg.gran;
    }

    // ----------------------------------------------------------- reservation

    /**
     One attempt of a reservation: allocate and commit in one critical section. `blocked` iff the request
     is valid but no usable window holds a long enough free run; then nothing has changed.
     */
    method RequestOffload(rank: nat, epoch: nat, tensor: nat, version: nat, nbytes: nat,
                          gpu: nat, numa: nat, remote: bool)
      returns (ok: bool, blocked: bool, lease: nat, base: nat, ghost win: nat)
      requires Valid()
      modifies this, slots
      ensures Valid()
      ensures ok ==> lease == old(nextLease)
      ensures ok ==> RunFree(old(slots[..]), base, SlotsFor(cfg.gran, nbytes))
      ensures ok ==> win < |windows| && FitsAt(old(slots[..]), windows[win], SlotsFor(cfg.gran, nbytes), base)
      ensures View() == if ok then Fencing.RequestOffload(old(View()), rank, epoch, tensor, version, nbytes, base)
                        else old(View())
      ensures ok || blocked <==> old(EpochValid(View(), rank, epoch)) && nbytes > 0
      ensures blocked ==> !ok && forall k: nat ::
                !Offers(old(slots[..]), windows, k, numa, gpu, remote, SlotsFor(cfg.gran, nbytes))
    {
      ok, blocked, lease, base, win := false, false, 0, 0, 0;
      if rank !in sessions || !sessions[rank].alive || sessions[rank].epoch != epoch || nbytes == 0 {
        return;
      }
      var count := SlotsFor(cfg.gran, nbytes);
      ok, base, win := AllocateSlots(slots, windows, IndexOf(windows), gpu, numa, remote, count);
      if !ok {
        blocked := true;
        return;
      }
      FitIsFree(slots[..], windows[win], count, base);
      lease := nextLease;
      CommitReservation(rank, epoch, tensor, version, nbytes, base);
    }

    /** The overlap guard, the stamping loop and the lease entry of a reservation. */
    method CommitReservation(rank: nat, epoch: nat, tensor: nat, version: nat, nbytes: nat, base: nat)
      requires Valid() && base + SlotsFor(cfg.gran, nbytes) <= slots.Length
      modifies this, slots
      ensures Valid()
      ensures View() == Reserve(old(View()), rank, epoch, tensor, version, nbytes, base)
    {
      var count := SlotsFor(cfg.gran, nbytes);
      var k := 0;
      while k < count
        invariant k <= count
        invariant forall i | base <= i < base + k :: slots[i].state == Free
      {
        if slots[base + k].state != Free {
          assert !RunFree(slots[..], base, count) by {
            assert slots[..][base + k].state != Free;
          }
          return;
        }
        k := k + 1;
      }
      assert RunFree(slots[..], base, count);
      var L := Lease(base, count, tensor, version, rank, epoch, nbytes);
      StampRun(nextLease, L);
      used := used + count * cfg.gran;
      leases := leases[nextLease := L];
      nextLease := nextLease + 1;
    }

    method StampRun(id: nat, L: Lease)
      requires L.base + L.count <= slots.Length
      modifies slots
      ensures slots[..] == Stamp(old(slots[..]), id, L, ReservedD2H, cfg.gran)
    {
      var k := 0;
      while k < L.count
        invariant k <= L.count
        invariant forall i | 0 <= i < slots.Length ::
                    slots[i] == if L.base <= i < L.base + k
                      then Entry(id, L, ReservedD2H, cfg.gran, i) else old(slots[i])
      {
        slots[L.base + k] := Slot(ReservedD2H, L.tensor, L.version, id, L.rank, L.epoch,
                                  if k == 0 then L.nbytes else cfg.gran);
        k := k + 1;
      }
    }

    // ------------------------------------------------------------ D2H events

    method MarkD2HSubmitted(rank: nat, epoch: nat, lease: nat, slot: nat) returns (ok: bool)
      requires Valid()
      modifies slots
      ensures Valid() && ok == old(Submits(View(), rank, epoch, lease, slot))
      ensures View() == Submit(old(View()), rank, epoch, lease, slot)
    {
      ok := false;
      if rank !in sessions || !sessions[rank].alive || sessions[rank].epoch != epoch {
        return;
      }
      if lease !in leases || leases[lease].rank != rank || leases[lease].base != slot {
        return;
      }
      if slots[slot].state != ReservedD2H {
        return;
      }
      SetRunState(slot, leases[lease].count, D2HInFlight);
      ok := true;
    }

    method ApplyD2HComplete(c: Completion, creating: bool) returns (ok: bool)
      requires Valid()
      modifies this, slots
      ensures Valid()
      ensures ok == old(Accepts(View(), c))
      ensures View() == Complete(old(View()), c, creating)
    {
      ok := false;
      if c.rank !in sessions || !sessions[c.rank].alive || sessions[c.rank].epoch != c.epoch {
        return;
      }
      if c.lease !in leases || leases[c.lease].rank != c.rank || leases[c.lease].base != c.slot {
        return;
      }
      var L := leases[c.lease];
      if L.tensor != c.tensor || L.version != c.version {
        return;
      }
      if slots[L.base].state != D2HInFlight {
        return;
      }
      ok := true;
      SetRunState(L.base, L.count, PinnedValid);
      locations := UpdateLocation(locations, c.tensor, c.version, LocPinned, L.base, 0, L.nbytes);
      if !creating && cfg.drainOnComplete {
        SetRunState(L.base, L.count, DrainInFlight);
        queue := queue + [Job(L.base, L.count)];
      }
    }

    /** A batch of completions counts as accepted exactly those that the specification accepts in order. */
    method BatchComplete(cs: seq<Completion>) returns (accepted: nat, rejected: nat)
      requires Valid()
      modifies this, slots
      ensures Valid()
      ensures View() == CompleteAll(old(View()), cs)
      ensures accepted == Commute.Accepted(old(View()), cs) && accepted + rejected == |cs|
    {
      accepted, rejected := 0, 0;
      var i := 0;
      while i < |cs|
        invariant 0 <= i <= |cs|
        invariant Valid()
        invariant View() == CompleteAll(old(View()), cs[..i])
        invariant accepted == Commute.Accepted(old(View()), cs[..i]) && accepted + rejected == i
      {
        ghost var d := View();
        var ok := ApplyD2HComplete(cs[i], false);
        if ok {
          accepted := accepted + 1;
        } else {
          rejected := rejected + 1;
        }
        assert cs[..i + 1] == cs[..i] + [cs[i]];
        Commute.AllConcat(old(View()), cs[..i], [cs[i]]);
        Commute.One(d, cs[i]);
        i := i + 1;
      }
      assert cs[..|cs|] == cs;
    }

    // --------------------------------------------------------------- release

    method HandleReleaseLease(rank: nat, epoch: nat, lease: nat) returns (ok: bool)
      requires Valid()
      modifies this, slots
      ensures Valid()
      ensures View() == ReleaseLease(old(View()), rank, epoch, lease)
      ensures ok <==> old(EpochValid(View(), rank, epoch)) && (lease !in old(leases) || old(leases)[lease].rank == rank)
    {
      if rank !in sessions || !sessions[rank].alive || sessions[rank].epoch != epoch {
        return false;
      }
      if lease !in leases {
        return true;
      }
      if leases[lease].rank != rank {
        return false;
      }
      var L := leases[lease];
      if ReleaseFrees(slots[L.base].state) {
        if L.tensor in locations && locations[L.tensor].slot == L.base
           && locations[L.tensor].kind == LocPinned && locations[L.tensor].version == L.version {
          locations := locations[L.tensor := locations[L.tensor].(kind := LocNone)];
        }
        FreeTheRun(L.base, L.count);
      }
      leases := leases - {lease};
      ok := true;
    }

    // ---------------------------------------------------------------- drains

    method TakeJob(w: nat)
      requires Valid()
      modifies this
      ensures Valid() && View() == Take(old(View()), w)
    {
      if queue != [] && w !in drainers {
        drainers := drainers[w := Took(queue[0].base, queue[0].count)];
        queue := queue[1..];
      }
    }

    method SnapshotJob(w: nat)
      requires Valid()
      modifies this
      ensures Valid() && View() == Snapshot(old(View()), w)
    {
      if w in drainers && drainers[w].Took? {
        var j := drainers[w];
        var e := slots[j.base];
        if e.state != DrainInFlight {
          drainers := drainers - {w};
        } else {
          drainers := drainers[w := Copying(j.base, j.count, e.tensor, e.version, e.lease, e.nbytes, false, [])];
        }
      }
    }

    /** Publish the cold copy of a drained run and give the run back. */
    method PublishCold(j: Drainer, kind: LocKind)
      requires Valid() && j.Copying? && Fits(j.base, j.count)
      modifies this, slots
      ensures Valid() && View() == FinishDrain(old(View()), j, kind)
    {
      var cref := nextCold;
      nextCold := nextCold + 1;
      cold := cold[cref := ColdEntry(kind, j.nbytes, j.buf)];
      locations := UpdateLocation(locations, j.tensor, j.version, kind, j.base, cref, j.nbytes);
      leases := leases - {j.lease};
      FreeTheRun(j.base, j.count);
    }

    method DrainWorkerCommit(w: nat, ok: bool, kind: LocKind)
      requires Valid()
      modifies this, slots
      ensures Valid() && View() == WorkerCommit(old(View()), w, ok, kind)
    {
      if w !in drainers || !drainers[w].Copying? || drainers[w].forced {
        return;
      }
      var j := drainers[w];
      drainers := drainers - {w};
      if slots[j.base].state != DrainInFlight {
        return;
      }
      if !ok {
        SetRunState(j.base, j.count, PinnedValid);
      } else {
        PublishCold(j, kind);
      }
    }

    /** The drainable lease whose run was touched longest ago, given the last-touch times. */
    method PickOldest(touch: seq<nat>) returns (found: bool, best: nat)
      requires Valid() && |touch| == slots.Length
      ensures found <==> exists id :: Drainable(View(), id)
      ensures found ==> Drainable(View(), best) && forall id | Drainable(View(), id) ::
                touch[leases[best].base] <= touch[leases[id].base]
    {
      found, best := false, 0;
      var todo := leases.Keys;
      while todo != {}
        invariant todo <= leases.Keys
        invariant found ==> Drainable(View(), best) && best !in todo
        invariant !found ==> forall id | id in leases.Keys - todo :: !Drainable(View(), id)
        invariant found ==> forall id | id in leases.Keys - todo && Drainable(View(), id) ::
                    touch[leases[best].base] <= touch[leases[id].base]
        decreases |todo|
      {
        var id :| id in todo;
        var b := leases[id].base;
        if slots[b].state == PinnedValid && (!found || touch[b] < touch[leases[best].base]) {
          found, best := true, id;
        }
        todo := todo - {id};
      }
    }

    method ForceDrainBegin(w: nat, touch: seq<nat>) returns (found: bool, lease: nat)
      requires Valid() && |touch| == slots.Length && w !in drainers
      modifies this, slots
      ensures Valid()
      ensures found <==> exists id :: Drainable(old(View()), id)
      ensures View() == if found then ForceBegin(old(View()), w, lease) else old(View())
      ensures found ==> Drainable(old(View()), lease) && forall id | Drainable(old(View()), id) ::
                touch[old(leases)[lease].base] <= touch[old(leases)[id].base]
    {
      ghost var d := View();
      found, lease := PickOldest(touch);
      assert View() == d;
      assert found ==> Drainable(d, lease);
      if found {
        var L := leases[lease];
        SetRunState(L.base, L.count, DrainInFlight);
        drainers := drainers[w := Copying(L.base, L.count, L.tensor, L.version, lease, L.nbytes, true, [])];
      }
    }

    method ForceDrainCommit(w: nat, ok: bool, kind: LocKind)
      requires Valid()
      modifies this, slots
      ensures Valid() && View() == ForceCommit(old(View()), w, ok, kind)
    {
      if w !in drainers || !drainers[w].Copying? || !drainers[w].forced {
        return;
      }
      var j := drainers[w];
      drainers := drainers - {w};
      if !ok {
        SetRunState(j.base, j.count, PinnedValid);
      } else {
        PublishCold(j, kind);
      }
    }

    // -------------------------------------------------------------- recovery

    /** Give an unfinished run back; keep one whose bytes are safe. */
    method ReclaimRun(L: Lease)
      requires Fits(L.base, L.count)
      modifies slots, this`used
      ensures View() == if RecoveryKeeps(StateAt(old(slots[..]), L.base)) then old(View())
                        else FreeSlots(old(View()), L.base, L.count)
    {
      if !RecoveryKeeps(slots[L.base].state) {
        FreeTheRun(L.base, L.count);
      }
    }

    /** Visit every lease once, reclaiming unfinished runs; the dead leases are erased at the end. */
    method RecoverSession(rank: nat, epoch: nat) returns (ghost order: seq<nat>)
      requires Valid()
      modifies this, slots
      ensures Valid()
      ensures forall id | id in old(leases) :: id in order
      ensures View() == RecoverLeases(old(View()), rank, epoch, order)
    {
      order := [];
      var todo, dead := leases.Keys, {};
      while todo != {}
        invariant Valid() && leases == old(leases) && todo <= leases.Keys && dead !! todo
        invariant forall id | id in leases :: id in todo || id in order
        invariant View().(leases := leases - dead) == RecoverLeases(old(View()), rank, epoch, order)
        decreases |todo|
      {
        var id :| id in todo;
        ghost var before := View();
        if OwnedBy(leases[id], rank, epoch) {
          ReclaimRun(leases[id]);
          ReclaimStep(before, leases - dead, rank, epoch, id);
          assert leases - (dead + {id}) == (leases - dead) - {id};
          dead := dead + {id};
        }
        RecoverSnoc(old(View()), rank, epoch, order, id);
        order := order + [id];
        todo := todo - {id};
      }
      leases := leases - dead;
    }

    /** A session ends: dead first, then its leases, then what its ring still holds. */
    method InvalidateSession(rank: nat, ring: seq<RingEntry>) returns (ghost v: Victim)
      requires Valid() && rank in sessions
      modifies this, slots
      ensures Valid() && v.rank == rank && VictimOk(old(View()), v)
      ensures View() == Invalidate(old(View()), v.rank, v.order, v.stragglers)
    {
      ghost var cs := AsCompletions(rank, sessions[rank].epoch, ring);
      if !sessions[rank].alive {
        return Victim(rank, SetToSeq(leases.Keys), cs);
      }
      var epoch := sessions[rank].epoch;
      sessions := sessions[rank := sessions[rank].(alive := false)];
      ghost var order := RecoverSession(rank, epoch);
      v := Victim(rank, order, cs);
      var accepted, rejected := BatchComplete(AsCompletions(rank, epoch, ring));
    }

    /** End several sessions, in any order. */
    method EndSessions(ranks: set<nat>, rings: map<nat, seq<RingEntry>>) returns (ghost vs: seq<Victim>)
      requires Valid() && ranks <= sessions.Keys <= rings.Keys
      modifies this, slots
      ensures Valid() && Ended(old(View()), vs, View(), ranks)
    {
      ghost var d := View();
      vs := [];
      var todo := ranks;
      while todo != {}
        invariant Valid() && todo <= ranks
        invariant Ended(d, vs, View(), ranks - todo)
        decreases |todo|
      {
        var r :| r in todo;
        vs := EndNext(r, rings[r], d, vs, ranks - todo);
        assert ranks - (todo - {r}) == ranks - todo + {r};
        todo := todo - {r};
      }
    }

    method EndNext(r: nat, ring: seq<RingEntry>, ghost d: Daemon, ghost vs: seq<Victim>, ghost rs: set<nat>)
      returns (ghost vs': seq<Victim>)
      requires Valid() && r in sessions && Ended(d, vs, View(), rs)
      modifies this, slots
      ensures Valid() && Ended(d, vs', View(), rs + {r})
    {
      ghost var before := View();
      ghost var v := InvalidateSession(r, ring);
      EndOneMore(d, vs, before, v, rs);
      vs' := vs + [v];
    }

    /** Registration: end the rank's old session, then those of the same process, then open a new one. */
    method RegisterRank(rank: nat, pid: nat, rings: map<nat, seq<RingEntry>>)
      returns (epoch: nat, ghost vs: seq<Victim>)
      requires Valid() && sessions.Keys <= rings.Keys
      modifies this, slots
      ensures Valid() && epoch == old(nextEpoch)
      ensures RegisterVictims(old(View()), rank, pid, vs)
      ensures View() == Register(old(View()), rank, pid, vs)
    {
      ghost var d := View();
      var others := set r | r in sessions && r != rank && sessions[r].alive && sessions[r].pid == pid;
      ghost var vs1 := EndSessions(if rank in sessions then {rank} else {}, rings);
      ghost var d1 := View();
      ghost var vs2 := EndSessions(others, rings);
      vs := vs1 + vs2;
      EndedTwice(d, rank, pid, vs1, d1, vs2, View(), others);
      epoch := Open(rank, pid);
    }

    /** A new session under the next epoch. */
    method Open(rank: nat, pid: nat) returns (epoch: nat)
      requires Valid()
      modifies this
      ensures Valid() && epoch == old(nextEpoch)
      ensures View() == OpenSession(old(View()), rank, pid)
    {
      epoch := nextEpoch;
      nextEpoch := nextEpoch + 1;
      sessions := sessions[rank := Session(epoch, pid, true)];
    }
  }

  ghost function SetToSeq(s: set<nat>): (q: seq<nat>)
    ensures forall x | x in s :: x in q
  {
    if s == {} then [] else var x :| x in s; [x] + SetToSeq(s - {x})
  }

  lemma {:induction false} RecoverSnoc(d: Daemon, rank: nat, epoch: nat, order: seq<nat>, id: nat)
    ensures RecoverLeases(d, rank, epoch, order + [id])
      == RecoverLease(RecoverLeases(d, rank, epoch, order), rank, epoch, id)
    decreases |order|
  {
    if order == [] {
      assert [id][1..] == [];
      assert RecoverLeases(d, rank, epoch, [id]) == RecoverLeases(RecoverLease(d, rank, epoch, id), rank, epoch, []);
    } else {
      assert (order + [id])[1..] == order[1..] + [id];
      RecoverSnoc(RecoverLease(d, rank, epoch, order[0]), rank, epoch, order[1..], id);
    }
  }

  /** Recovery of one lease, with the lease table taken as `ls`. */
  lemma ReclaimStep(d: Daemon, ls: map<nat, Lease>, rank: nat, epoch: nat, id: nat)
    requires id in ls && id in d.leases && ls[id] == d.leases[id] && OwnedBy(ls[id], rank, epoch)
    ensures var L := ls[id];
      var kept := RecoveryKeeps(StateAt(d.slots, L.base));
      RecoverLease(d.(leases := ls), rank, epoch, id)
        == (if kept then d else FreeSlots(d, L.base, L.count)).(leases := ls - {id})
  {
  }

  lemma {:induction false} CompleteAllSessions(d: Daemon, cs: seq<Completion>)
    ensures CompleteAll(d, cs).sessions == d.sessions && CompleteAll(d, cs).nextEpoch == d.nextEpoch
    decreases |cs|
  {
    if cs != [] {
      CompleteAllSessions(Complete(d, cs[0], false), cs[1..]);
    }
  }

  lemma {:induction false} RecoverLeasesSessions(d: Daemon, rank: nat, epoch: nat, order: seq<nat>)
    ensures RecoverLeases(d, rank, epoch, order).sessions == d.sessions
    ensures RecoverLeases(d, rank, epoch, order).nextEpoch == d.nextEpoch
    decreases |order|
  {
    if order != [] {
      RecoverLeasesSessions(RecoverLease(d, rank, epoch, order[0]), rank, epoch, order[1..]);
    }
  }

  /** Ending one session leaves the set of known ranks and the epoch counter alone. */
  lemma InvalidateSessions(d: Daemon, v: Victim)
    ensures var d' := Invalidate(d, v.rank, v.order, v.stragglers);
      d'.sessions.Keys == d.sessions.Keys && d'.nextEpoch == d.nextEpoch
  {
    if v.rank in d.sessions && d.sessions[v.rank].alive {
      var s := d.sessions[v.rank];
      var d1 := d.(sessions := d.sessions[v.rank := s.(alive := false)]);
      RecoverLeasesSessions(d1, v.rank, s.epoch, v.order);
      CompleteAllSessions(RecoverLeases(d1, v.rank, s.epoch, v.order), v.stragglers);
    }
  }

  /** Ending the sessions of `vs`, whose ranks are `rs`, leads from `d` to `d'`. */
  ghost predicate Ended(d: Daemon, vs: seq<Victim>, d': Daemon, rs: set<nat>) {
    && VictimsOk(d, vs) && d' == InvalidateAll(d, vs) && Ranks(vs) == rs
    && d'.sessions.Keys == d.sessions.Keys && d'.nextEpoch == d.nextEpoch
  }

  lemma EndOneMore(d: Daemon, vs: seq<Victim>, d1: Daemon, v: Victim, rs: set<nat>)
    requires Ended(d, vs, d1, rs) && VictimOk(d1, v)
    ensures Ended(d, vs + [v], Invalidate(d1, v.rank, v.order, v.stragglers), rs + {v.rank})
  {
    InvalidateSessions(d1, v);
    InvalidateSnoc(d, vs, v);
    RanksSnoc(vs, v);
  }

  lemma RanksSnoc(vs: seq<Victim>, v: Victim)
    ensures Ranks(vs + [v]) == Ranks(vs) + {v.rank}
  {
    forall r | r in Ranks(vs) + {v.rank} ensures r in Ranks(vs + [v]) {
      if r == v.rank {
        assert (vs + [v])[|vs|].rank == r;
      } else {
        var i :| 0 <= i < |vs| && vs[i].rank == r;
        assert (vs + [v])[i].rank == r;
      }
    }
  }

  lemma InvalidateOne(d: Daemon, v: Victim)
    requires VictimOk(d, v)
    ensures VictimsOk(d, [v]) && InvalidateAll(d, [v]) == Invalidate(d, v.rank, v.order, v.stragglers)
  {
    assert [v][1..] == [];
    var d1 := Invalidate(d, v.rank, v.order, v.stragglers);
    assert InvalidateAll(d, [v]) == InvalidateAll(d1, []);
    assert VictimsOk(d1, []);
  }

  lemma {:induction false} InvalidateSnoc(d: Daemon, vs: seq<Victim>, v: Victim)
    requires VictimsOk(d, vs) && VictimOk(InvalidateAll(d, vs), v)
    ensures VictimsOk(d, vs + [v])
    ensures InvalidateAll(d, vs + [v]) == Invalidate(InvalidateAll(d, vs), v.rank, v.order, v.stragglers)
    decreases |vs|
  {
    if vs == [] {
      InvalidateOne(d, v);
      assert vs + [v] == [v];
    } else {
      assert (vs + [v])[1..] == vs[1..] + [v];
      InvalidateSnoc(Invalidate(d, vs[0].rank, vs[0].order, vs[0].stragglers), vs[1..], v);
    }
  }

  lemma {:induction false} InvalidateConcat(d: Daemon, xs: seq<Victim>, ys: seq<Victim>)
    requires VictimsOk(d, xs) && VictimsOk(InvalidateAll(d, xs), ys)
    ensures VictimsOk(d, xs + ys) && InvalidateAll(d, xs + ys) == InvalidateAll(InvalidateAll(d, xs), ys)
    ensures Ranks(xs + ys) == Ranks(xs) + Ranks(ys)
    decreases |ys|
  {
    if ys == [] {
      assert xs + ys == xs;
    } else {
      var y := ys[0];
      var d1 := InvalidateAll(d, xs);
      InvalidateSnoc(d, xs, y);
      InvalidateConcat(d, xs + [y], ys[1..]);
      assert xs + [y] + ys[1..] == xs + ys && [y] + ys[1..] == ys;
      RanksSnoc(xs, y);
      RanksCons(y, ys[1..]);
    }
  }

  /** The two rounds of a registration together end exactly the displaced sessions. */
  lemma EndedTwice(d: Daemon, rank: nat, pid: nat, vs1: seq<Victim>, d1: Daemon, vs2: seq<Victim>, d2: Daemon,
                   others: set<nat>)
    requires others == set r | r in d.sessions && r != rank && d.sessions[r].alive && d.sessions[r].pid == pid
    requires Ended(d, vs1, d1, if rank in d.sessions then {rank} else {}) && Ended(d1, vs2, d2, others)
    ensures RegisterVictims(d, rank, pid, vs1 + vs2) && InvalidateAll(d, vs1 + vs2) == d2
    ensures d2.nextEpoch == d.nextEpoch
  {
    InvalidateConcat(d, vs1, vs2);
    assert Displaced(d, rank, pid) == (if rank in d.sessions then {rank} else {}) + others;
  }

  lemma RanksCons(v: Victim, vs: seq<Victim>)
    ensures Ranks([v] + vs) == {v.rank} + Ranks(vs)
  {
    forall r | r in {v.rank} + Ranks(vs) ensures r in Ranks([v] + vs) {
      if r == v.rank {
        assert ([v] + vs)[0].rank == r;
      } else {
        var i :| 0 <= i < |vs| && vs[i].rank == r;
        assert ([v] + vs)[i + 1].rank == r;
      }
    }
  }
}

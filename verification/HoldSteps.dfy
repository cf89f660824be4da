/**
 How the sections of the slot machine look to the run of one canonical object:
 which leases and locations of its tensor id can appear, and which runs stay
 untouched.
 */
module HoldSteps {
  import opened SlotTable
  import opened DaemonState
  import opened DaemonInv
  import D = Durability
  import opened HoldModel

  /** The run of `tag` still waits for its first bytes. */
  ghost predicate Unfinished(slots: seq<Slot>, g: Grants, tag: nat) {
    StateOf(slots, g, tag) == ReservedD2H || StateOf(slots, g, tag) == D2HInFlight
  }

  /** `loc` is the location of the completed or drained run of `tag`. */
  ghost predicate FromTag(d: Daemon, g: Grants, slots': seq<Slot>, t: nat, loc: Location, tag: nat) {
    && tag in g && g[tag].tensor == t && !Unfinished(slots', g, tag)
    && loc.version == g[tag].version && loc.nbytes == g[tag].nbytes && loc.kind != LocNone
    && (loc.kind == LocPinned ==> loc.slot == g[tag].base && tag in d.leases && Unfinished(d.slots, g, tag))
  }

  /** What a step may do to the location of tensor `t`: nothing, or publish a run of `t`. */
  ghost predicate LocGentle(d: Daemon, g: Grants, d': Daemon, t: nat) {
    && (t in d.locations ==> t in d'.locations)
    && (t in d'.locations ==>
          || (t in d.locations && d'.locations[t] == d.locations[t])
          || exists tag :: FromTag(d, g, d'.slots, t, d'.locations[t], tag))
  }

  /** What a step may do to leases and run states. */
  ghost predicate RunGentle(d: Daemon, g: Grants, d': Daemon) {
    && (forall l | l in d'.leases && l in g :: l in d.leases)
    && (forall tag | tag in g && Unfinished(d'.slots, g, tag) :: Unfinished(d.slots, g, tag))
  }

  ghost predicate Gentle(d: Daemon, g: Grants, d': Daemon, t: nat) {
    RunGentle(d, g, d') && LocGentle(d, g, d', t)
  }

  lemma GentleTrans(d: Daemon, g: Grants, d1: Daemon, d2: Daemon, t: nat)
    requires Gentle(d, g, d1, t) && Gentle(d1, g, d2, t)
    ensures Gentle(d, g, d2, t)
  {
    if t in d2.locations && !(t in d1.locations && d2.locations[t] == d1.locations[t]) {
      var tag :| FromTag(d1, g, d2.slots, t, d2.locations[t], tag);
      assert FromTag(d, g, d2.slots, t, d2.locations[t], tag);
    } else if t in d1.locations && !(t in d.locations && d1.locations[t] == d.locations[t]) {
      var tag :| FromTag(d, g, d1.slots, t, d1.locations[t], tag);
      assert t in d2.locations ==> FromTag(d, g, d2.slots, t, d1.locations[t], tag);
    }
  }

  /** Only slots, leases and locations of the first state matter. */
  lemma GentleFrom(d: Daemon, d1: Daemon, g: Grants, d': Daemon, t: nat)
    requires d1.slots == d.slots && d1.leases == d.leases && d1.locations == d.locations
    requires Gentle(d1, g, d', t)
    ensures Gentle(d, g, d', t)
  {
    if t in d'.locations && !(t in d.locations && d'.locations[t] == d.locations[t]) {
      var tag :| FromTag(d1, g, d'.slots, t, d'.locations[t], tag);
      assert FromTag(d, g, d'.slots, t, d'.locations[t], tag);
    }
  }

  /** Every slot that does not carry `other` is as before. */
  ghost predicate OnlyTag(slots: seq<Slot>, slots': seq<Slot>, other: nat) {
    && |slots'| == |slots|
    && (forall i | 0 <= i < |slots| && slots[i].lease != other :: slots'[i] == slots[i])
  }

  /** Run `tag` is untouched. */
  ghost predicate Steady(slots: seq<Slot>, slots': seq<Slot>, tag: nat) {
    && |slots'| == |slots|
    && (forall i | 0 <= i < |slots| && slots[i].lease == tag :: slots'[i] == slots[i])
  }

  lemma SteadyKeeps(slots: seq<Slot>, slots': seq<Slot>, g: Grants, g': Grants, tag: nat)
    requires Held(slots, g, tag) && Steady(slots, slots', tag) && tag in g' && g'[tag] == g[tag]
    ensures Held(slots', g', tag) && StateOf(slots', g', tag) == StateOf(slots, g, tag)
  {
  }

  /** After a state change or a free of one run, only that run can have left or entered waiting. */
  lemma TagUnfinished(slots: seq<Slot>, slots': seq<Slot>, g: Grants, id: nat, st: SlotState, tag: nat)
    requires Moved(slots, slots', id, st) || Freed(slots, slots', id)
    requires tag in g && Unfinished(slots', g, tag) && tag > 0
    ensures tag != id ==> Unfinished(slots, g, tag)
    ensures tag == id ==> Moved(slots, slots', id, st) && st == StateOf(slots', g, tag)
  {
    assert slots'[g[tag].base].lease == tag;
  }

  lemma MoveGentle(d: Daemon, g: Grants, d': Daemon, id: nat, st: SlotState, t: nat)
    requires TableInv(d.slots, g) && (Moved(d.slots, d'.slots, id, st) || Freed(d.slots, d'.slots, id))
    requires st == ReservedD2H || st == D2HInFlight ==> Unfinished(d.slots, g, id)
    requires d'.leases.Keys <= d.leases.Keys && d'.locations == d.locations
    ensures Gentle(d, g, d', t) && OnlyTag(d.slots, d'.slots, id)
  {
    forall tag | tag in g && Unfinished(d'.slots, g, tag) ensures Unfinished(d.slots, g, tag) {
      TagUnfinished(d.slots, d'.slots, g, id, st, tag);
    }
  }

  lemma SameSlotsGentle(d: Daemon, g: Grants, d': Daemon, t: nat)
    requires d'.slots == d.slots && d'.locations == d.locations && d'.leases.Keys <= d.leases.Keys
    ensures Gentle(d, g, d', t)
  {
  }

  // ------------------------------------------------------------- single steps

  lemma SubmitGentle(d: Daemon, g: Grants, rank: nat, epoch: nat, lease: nat, slot: nat, t: nat)
    requires TableInv(d.slots, g) && LeaseInv(d.slots, d.leases, g)
    ensures Gentle(d, g, Submit(d, rank, epoch, lease, slot), t)
    ensures Submits(d, rank, epoch, lease, slot) ==>
      OnlyTag(d.slots, Submit(d, rank, epoch, lease, slot).slots, lease) && Unfinished(d.slots, g, lease)
  {
    if Submits(d, rank, epoch, lease, slot) {
      assert Held(d.slots, g, lease);
      SetStateByTag(d.slots, g, lease, D2HInFlight);
      MoveGentle(d, g, Submit(d, rank, epoch, lease, slot), lease, D2HInFlight, t);
    }
  }

  lemma CompleteGentle(d: Daemon, g: Grants, c: Completion, creating: bool, t: nat)
    requires TableInv(d.slots, g) && LeaseInv(d.slots, d.leases, g)
    ensures Gentle(d, g, Complete(d, c, creating), t)
    ensures Accepts(d, c) ==>
      OnlyTag(d.slots, Complete(d, c, creating).slots, c.lease) && Unfinished(d.slots, g, c.lease)
  {
    if Accepts(d, c) {
      var d' := Complete(d, c, creating);
      var st := if !creating && d.cfg.drainOnComplete then DrainInFlight else PinnedValid;
      assert Held(d.slots, g, c.lease);
      SetStateByTag(d.slots, g, c.lease, st);
      MoveGentle(d, g, d'.(locations := d.locations), c.lease, st, t);
      if t in d'.locations && !(t in d.locations && d'.locations[t] == d.locations[t]) {
        assert FromTag(d, g, d'.slots, t, d'.locations[t], c.lease);
      }
    }
  }

  lemma FinishGentle(d: Daemon, g: Grants, j: Drainer, kind: LocKind, t: nat)
    requires TableInv(d.slots, g) && j.Copying? && Draining(d.slots, g, j.base, j.count) && CopyTags(d.slots, g, j)
    requires kind == LocPageable || kind == LocNvme
    ensures Gentle(d, g, FinishDrain(d, j, kind), t) && OnlyTag(d.slots, FinishDrain(d, j, kind).slots, j.lease)
  {
    var d' := FinishDrain(d, j, kind);
    FreeRunByTag(d.slots, g, j.lease);
    MoveGentle(d, g, d'.(locations := d.locations), j.lease, Free, t);
    if t in d'.locations && !(t in d.locations && d'.locations[t] == d.locations[t]) {
      assert FromTag(d, g, d'.slots, t, d'.locations[t], j.lease);
    }
  }

  lemma RevertGentle(d: Daemon, g: Grants, j: Drainer, t: nat)
    requires TableInv(d.slots, g) && Draining(d.slots, g, j.base, j.count)
    ensures Gentle(d, g, RevertDrain(d, j), t) && OnlyTag(d.slots, RevertDrain(d, j).slots, d.slots[j.base].lease)
  {
    SetStateByTag(d.slots, g, d.slots[j.base].lease, PinnedValid);
    MoveGentle(d, g, RevertDrain(d, j), d.slots[j.base].lease, PinnedValid, t);
  }

  lemma ForceGentle(d: Daemon, g: Grants, w: nat, lease: nat, t: nat)
    requires TableInv(d.slots, g) && LeaseInv(d.slots, d.leases, g)
    ensures Gentle(d, g, ForceBegin(d, w, lease), t) && OnlyTag(d.slots, ForceBegin(d, w, lease).slots, lease)
  {
    if Drainable(d, lease) && w !in d.drainers {
      assert Held(d.slots, g, lease);
      SetStateByTag(d.slots, g, lease, DrainInFlight);
      MoveGentle(d, g, ForceBegin(d, w, lease), lease, DrainInFlight, t);
    }
  }

  lemma RecoverGentle(d: Daemon, g: Grants, rank: nat, epoch: nat, id: nat, t: nat)
    requires TableInv(d.slots, g) && LeaseInv(d.slots, d.leases, g)
    ensures var d' := RecoverLease(d, rank, epoch, id);
      && Gentle(d, g, d', t)
      && (id !in d.leases || RecoveryKeeps(StateOf(d.slots, g, id)) ==> d'.slots == d.slots)
      && OnlyTag(d.slots, d'.slots, id)
  {
    if id in d.leases && OwnedBy(d.leases[id], rank, epoch) {
      assert Held(d.slots, g, id);
      if !RecoveryKeeps(StateAt(d.slots, d.leases[id].base)) {
        FreeRunByTag(d.slots, g, id);
        MoveGentle(d, g, RecoverLease(d, rank, epoch, id), id, Free, t);
      }
    }
  }

  /** A release that does not concern `t`'s location. */
  lemma ReleaseGentle(d: Daemon, g: Grants, rank: nat, epoch: nat, lease: nat, t: nat)
    requires TableInv(d.slots, g) && LeaseInv(d.slots, d.leases, g)
    requires lease in d.leases ==> d.leases[lease].tensor != t
    ensures Gentle(d, g, ReleaseLease(d, rank, epoch, lease), t)
    ensures OnlyTag(d.slots, ReleaseLease(d, rank, epoch, lease).slots, lease)
  {
    if Releases(d, rank, epoch, lease) && ReleaseFrees(StateAt(d.slots, d.leases[lease].base)) {
      assert Held(d.slots, g, lease);
      FreeRunByTag(d.slots, g, lease);
      MoveGentle(d, g, ReleaseLease(d, rank, epoch, lease).(locations := d.locations), lease, Free, t);
    }
  }

  /** A new run does not concern the runs that exist. */
  lemma StampSteady(d: Daemon, g: Grants, L: Lease, st: SlotState, tag: nat)
    requires TableInv(d.slots, g) && CountersInv(d, g) && L.count > 0 && RunFree(d.slots, L.base, L.count) && st != Free
    requires tag > 0
    ensures Steady(d.slots, Stamp(d.slots, d.nextLease, L, st, d.cfg.gran), tag)
  {
    StampKeepsTable(d.slots, g, d.nextLease, L, st, d.cfg.gran);
  }

  lemma StampUnfinished(d: Daemon, g: Grants, L: Lease, st: SlotState, tag: nat)
    requires TableInv(d.slots, g) && CountersInv(d, g) && L.count > 0 && RunFree(d.slots, L.base, L.count) && st != Free
    requires tag in g && Unfinished(Stamp(d.slots, d.nextLease, L, st, d.cfg.gran), g, tag)
    ensures Unfinished(d.slots, g, tag)
  {
    StampKeepsTable(d.slots, g, d.nextLease, L, st, d.cfg.gran);
  }

  // ---------------------------------------------------------- sessions that end

  /** A run that recovery leaves alone: its bytes are safe, or no lease names it. */
  ghost predicate Sheltered(d: Daemon, g: Grants, tag: nat) {
    Held(d.slots, g, tag) && (StateOf(d.slots, g, tag) == PinnedValid || tag !in d.leases)
  }

  lemma {:induction false} RecoverAllGentle(d: Daemon, g: Grants, rank: nat, epoch: nat, order: seq<nat>, t: nat)
    requires CoreInv(d, g)
    ensures Gentle(d, g, RecoverLeases(d, rank, epoch, order), t)
    decreases |order|
  {
    if order == [] {
      SameSlotsGentle(d, g, d, t);
    } else {
      var d1 := RecoverLease(d, rank, epoch, order[0]);
      CoreRecoverLease(d, g, rank, epoch, order[0]);
      RecoverGentle(d, g, rank, epoch, order[0], t);
      RecoverAllGentle(d1, g, rank, epoch, order[1..], t);
      GentleTrans(d, g, d1, RecoverLeases(d1, rank, epoch, order[1..]), t);
    }
  }

  lemma RecoverOneSteady(d: Daemon, g: Grants, rank: nat, epoch: nat, id: nat, tag: nat)
    requires TableInv(d.slots, g) && LeaseInv(d.slots, d.leases, g) && Sheltered(d, g, tag)
    ensures var d' := RecoverLease(d, rank, epoch, id); Steady(d.slots, d'.slots, tag) && Sheltered(d', g, tag)
  {
    RecoverGentle(d, g, rank, epoch, id, 0);
  }

  lemma {:induction false} RecoverAllSteady(d: Daemon, g: Grants, rank: nat, epoch: nat, order: seq<nat>, tag: nat)
    requires CoreInv(d, g) && Sheltered(d, g, tag)
    ensures Steady(d.slots, RecoverLeases(d, rank, epoch, order).slots, tag)
    ensures Sheltered(RecoverLeases(d, rank, epoch, order), g, tag)
    decreases |order|
  {
    if order != [] {
      var d1 := RecoverLease(d, rank, epoch, order[0]);
      CoreRecoverLease(d, g, rank, epoch, order[0]);
      RecoverOneSteady(d, g, rank, epoch, order[0], tag);
      RecoverAllSteady(d1, g, rank, epoch, order[1..], tag);
    }
  }

  /** Invalidation of a session is recovery of its leases: what its ring still holds is rejected. */
  lemma InvalidateIs(d: Daemon, v: Victim)
    requires VictimOk(d, v)
    ensures Invalidate(d, v.rank, v.order, v.stragglers)
         == if v.rank in d.sessions && d.sessions[v.rank].alive
            then RecoverLeases(d.(sessions := d.sessions[v.rank := d.sessions[v.rank].(alive := false)]),
                               v.rank, d.sessions[v.rank].epoch, v.order)
            else d
  {
    if v.rank in d.sessions && d.sessions[v.rank].alive {
      var s := d.sessions[v.rank];
      var d1 := d.(sessions := d.sessions[v.rank := s.(alive := false)]);
      D.RecoverLeasesKeeps(d1, v.rank, s.epoch, v.order);
      D.StragglersRejected(RecoverLeases(d1, v.rank, s.epoch, v.order), v.stragglers);
    }
  }

  lemma InvalidateGentle(d: Daemon, g: Grants, v: Victim, t: nat)
    requires CoreInv(d, g) && VictimOk(d, v)
    ensures Gentle(d, g, Invalidate(d, v.rank, v.order, v.stragglers), t)
  {
    InvalidateIs(d, v);
    SameSlotsGentle(d, g, d, t);
    if v.rank in d.sessions && d.sessions[v.rank].alive {
      var d1 := d.(sessions := d.sessions[v.rank := d.sessions[v.rank].(alive := false)]);
      RecoverAllGentle(d1, g, v.rank, d.sessions[v.rank].epoch, v.order, t);
      GentleFrom(d, d1, g, RecoverLeases(d1, v.rank, d.sessions[v.rank].epoch, v.order), t);
    }
  }

  lemma InvalidateSteady(d: Daemon, g: Grants, v: Victim, tag: nat)
    requires CoreInv(d, g) && VictimOk(d, v) && Sheltered(d, g, tag)
    ensures var d' := Invalidate(d, v.rank, v.order, v.stragglers);
      Steady(d.slots, d'.slots, tag) && Sheltered(d', g, tag)
  {
    InvalidateIs(d, v);
    if v.rank in d.sessions && d.sessions[v.rank].alive {
      var d1 := d.(sessions := d.sessions[v.rank := d.sessions[v.rank].(alive := false)]);
      RecoverAllSteady(d1, g, v.rank, d.sessions[v.rank].epoch, v.order, tag);
    }
  }

  lemma {:induction false} InvalidateAllGentle(d: Daemon, g: Grants, vs: seq<Victim>, t: nat)
    requires CoreInv(d, g) && VictimsOk(d, vs)
    ensures Gentle(d, g, InvalidateAll(d, vs), t)
    decreases |vs|
  {
    if vs == [] {
      SameSlotsGentle(d, g, d, t);
    } else {
      var d1 := Invalidate(d, vs[0].rank, vs[0].order, vs[0].stragglers);
      CoreInvalidate(d, g, vs[0]);
      InvalidateGentle(d, g, vs[0], t);
      InvalidateAllGentle(d1, g, vs[1..], t);
      GentleTrans(d, g, d1, InvalidateAll(d1, vs[1..]), t);
    }
  }

  lemma {:induction false} InvalidateAllSteady(d: Daemon, g: Grants, vs: seq<Victim>, tag: nat)
    requires CoreInv(d, g) && VictimsOk(d, vs) && Sheltered(d, g, tag)
    ensures Steady(d.slots, InvalidateAll(d, vs).slots, tag)
    decreases |vs|
  {
    if vs != [] {
      CoreInvalidate(d, g, vs[0]);
      InvalidateSteady(d, g, vs[0], tag);
      InvalidateAllSteady(Invalidate(d, vs[0].rank, vs[0].order, vs[0].stragglers), g, vs[1..], tag);
    }
  }

  // -------------------------------------------------------- any step of machine A

  /** Taking a job, noting its tags and copying a piece leave the tables as they are. */
  lemma LightDrain(w: World, a: D.Action)
    requires w.d.cfg.gran > 0 && (a.DoTake? || a.DoSnapshot? || a.DoCopy?)
    ensures var d' := PlainStep(w, a).d; d' == w.d.(queue := d'.queue, drainers := d'.drainers)
  {
    match a
    case DoTake(x) =>
    case DoSnapshot(x) =>
    case DoCopy(x) =>
  }

  lemma DrainStepGentle(w: World, a: D.Action, t: nat)
    requires CoreInv(w.d, w.g) && PlainEnabled(w, a) && D.DrainAction(a)
    ensures Gentle(w.d, w.g, PlainStep(w, a).d, t)
  {
    if a.DoWorkerCommit? || a.DoForceCommit? {
      CommitGentle(w.d, w.g, a.w, a.ok, a.kind, t);
    } else if a.DoForceBegin? {
      ForceGentle(w.d, w.g, a.w, a.lease, t);
    } else {
      LightDrain(w, a);
      SameSlotsGentle(w.d, w.g, PlainStep(w, a).d, t);
    }
  }

  /** The two ways in which a drain ends. */
  lemma DrainEndGentle(d: Daemon, g: Grants, x: nat, kind: LocKind, t: nat)
    requires CoreInv(d, g) && x in d.drainers && d.drainers[x].Copying?
    ensures var j, d1 := d.drainers[x], d.(drainers := d.drainers - {x});
      && Gentle(d, g, RevertDrain(d1, j), t)
      && (kind == LocPageable || kind == LocNvme ==> Gentle(d, g, FinishDrain(d1, j, kind), t))
  {
    var j, d1 := d.drainers[x], d.(drainers := d.drainers - {x});
    assert Draining(d.slots, g, j.base, j.count) && CopyTags(d.slots, g, j);
    RevertGentle(d1, g, j, t);
    GentleFrom(d, d1, g, RevertDrain(d1, j), t);
    if kind == LocPageable || kind == LocNvme {
      FinishGentle(d1, g, j, kind, t);
      GentleFrom(d, d1, g, FinishDrain(d1, j, kind), t);
    }
  }

  lemma LeaveGentle(d: Daemon, g: Grants, x: nat, t: nat)
    ensures Gentle(d, g, d, t) && Gentle(d, g, d.(drainers := d.drainers - {x}), t)
  {
  }

  lemma CommitGentle(d: Daemon, g: Grants, x: nat, ok: bool, kind: LocKind, t: nat)
    requires CoreInv(d, g) && (ok ==> kind == LocPageable || kind == LocNvme)
    ensures Gentle(d, g, WorkerCommit(d, x, ok, kind), t) && Gentle(d, g, ForceCommit(d, x, ok, kind), t)
  {
    LeaveGentle(d, g, x, t);
    if x in d.drainers && d.drainers[x].Copying? {
      DrainEndGentle(d, g, x, kind, t);
    }
  }

  lemma ReserveGentle(d: Daemon, g: Grants, rank: nat, epoch: nat, tensor: nat, v: nat, n: nat, at: nat, t: nat)
    requires CoreInv(d, g)
    ensures Gentle(d, g, Reserve(d, rank, epoch, tensor, v, n, at), t)
  {
    var L := Lease(at, SlotsFor(d.cfg.gran, n), tensor, v, rank, epoch, n);
    if RunFree(d.slots, at, L.count) {
      forall tag | tag in g && Unfinished(Stamp(d.slots, d.nextLease, L, ReservedD2H, d.cfg.gran), g, tag)
        ensures Unfinished(d.slots, g, tag)
      {
        StampUnfinished(d, g, L, ReservedD2H, tag);
      }
    }
  }

  lemma PlainGentle(w: World, a: D.Action, t: nat)
    requires CoreInv(w.d, w.g) && PlainEnabled(w, a) && ObjTid(t)
    ensures Gentle(w.d, w.g, PlainStep(w, a).d, t)
  {
    if D.DrainAction(a) {
      DrainStepGentle(w, a, t);
    } else {
      match a
      case DoRegister(rank, pid, vs) => InvalidateAllGentle(w.d, w.g, vs, t);
      case DoTimeout(v) => InvalidateGentle(w.d, w.g, v, t);
      case DoReserve(rank, epoch, tt, v, n, at) => ReserveGentle(w.d, w.g, rank, epoch, tt, v, n, at, t);
      case DoDma(lease, part) => SameSlotsGentle(w.d, w.g, D.Dma(w.d, w.g, lease, part), t);
      case DoSubmit(rank, epoch, lease, slot) => SubmitGentle(w.d, w.g, rank, epoch, lease, slot, t);
      case DoComplete(c) => CompleteGentle(w.d, w.g, c, UnderCreation(w.st, c.tensor), t);
      case DoRelease(rank, epoch, lease) => ReleaseGentle(w.d, w.g, rank, epoch, lease, t);
    }
  }

  /** Machine A grants nothing under an object's tensor id. */
  lemma PlainGrants(w: World, a: D.Action)
    requires w.d.cfg.gran > 0 && PlainEnabled(w, a) && CountersInv(w.d, w.g)
    ensures var g' := PlainStep(w, a).g;
      && (forall tag | tag in w.g :: tag in g' && g'[tag] == w.g[tag])
      && (forall tag | tag in g' && tag !in w.g :: !ObjTid(g'[tag].tensor))
  {
  }

  // ----------------------------------------------------- runs that must not move

  /** A run that machine A has no business with: read by a restore, or being read back. */
  ghost predicate Guarded(w: World, tag: nat) {
    && Held(w.d.slots, w.g, tag) && ObjTid(w.g[tag].tensor)
    && (|| (StateOf(w.d.slots, w.g, tag) == PinnedValid && Protected(w.st, w.g[tag].tensor))
        || (StateOf(w.d.slots, w.g, tag) == ReadbackInFlight && tag !in w.d.leases))
  }

  lemma CommitSteady(d: Daemon, g: Grants, x: nat, ok: bool, kind: LocKind, tag: nat)
    requires CoreInv(d, g) && (ok ==> kind == LocPageable || kind == LocNvme)
    requires Held(d.slots, g, tag) && StateOf(d.slots, g, tag) != DrainInFlight
    ensures Steady(d.slots, WorkerCommit(d, x, ok, kind).slots, tag)
    ensures Steady(d.slots, ForceCommit(d, x, ok, kind).slots, tag)
  {
    if x in d.drainers && d.drainers[x].Copying? {
      var j := d.drainers[x];
      var d1 := d.(drainers := d.drainers - {x});
      assert Draining(d.slots, g, j.base, j.count) && CopyTags(d.slots, g, j);
      if ok {
        FinishGentle(d1, g, j, kind, 0);
      } else {
        RevertGentle(d1, g, j, 0);
      }
    }
  }

  lemma DrainStepSteady(w: World, a: D.Action, tag: nat)
    requires CoreInv(w.d, w.g) && PlainEnabled(w, a) && D.DrainAction(a) && Guarded(w, tag)
    ensures Steady(w.d.slots, PlainStep(w, a).d.slots, tag)
  {
    if a.DoWorkerCommit? || a.DoForceCommit? {
      CommitSteady(w.d, w.g, a.w, a.ok, a.kind, tag);
    } else if a.DoForceBegin? {
      ForceGentle(w.d, w.g, a.w, a.lease, 0);
    } else {
      LightDrain(w, a);
    }
  }

  lemma HandlerSteady(w: World, a: D.Action, tag: nat)
    requires CoreInv(w.d, w.g) && PlainEnabled(w, a) && (a.DoSubmit? || a.DoComplete? || a.DoRelease?)
      && Guarded(w, tag)
    ensures Steady(w.d.slots, PlainStep(w, a).d.slots, tag)
  {
    match a
    case DoSubmit(rank, epoch, lease, slot) => SubmitGentle(w.d, w.g, rank, epoch, lease, slot, 0);
    case DoComplete(c) => CompleteGentle(w.d, w.g, c, UnderCreation(w.st, c.tensor), 0);
    case DoRelease(rank, epoch, lease) =>
      if lease in w.d.leases {
        ReleaseGentle(w.d, w.g, rank, epoch, lease, w.d.leases[lease].tensor + 1);
      }
  }

  /** No step of machine A touches a guarded run. */
  lemma PlainSteady(w: World, a: D.Action, tag: nat)
    requires CoreInv(w.d, w.g) && PlainEnabled(w, a) && Guarded(w, tag)
    ensures Steady(w.d.slots, PlainStep(w, a).d.slots, tag)
  {
    if D.DrainAction(a) {
      DrainStepSteady(w, a, tag);
    } else if a.DoSubmit? || a.DoComplete? || a.DoRelease? {
      HandlerSteady(w, a, tag);
    } else {
      match a
      case DoRegister(rank, pid, vs) => InvalidateAllSteady(w.d, w.g, vs, tag);
      case DoTimeout(v) => InvalidateSteady(w.d, w.g, v, tag);
      case DoReserve(rank, epoch, tt, v, n, at) =>
        var L := Lease(at, SlotsFor(w.d.cfg.gran, n), tt, v, rank, epoch, n);
        if RunFree(w.d.slots, at, L.count) {
          StampSteady(w.d, w.g, L, ReservedD2H, tag);
        }
      case DoDma(lease, part) =>
    }
  }

  /** GPU copies go to runs that wait for their bytes, so they leave a guarded run's memory alone. */
  lemma PlainArena(w: World, a: D.Action, tag: nat, i: nat)
    requires CoreInv(w.d, w.g) && PlainEnabled(w, a) && Guarded(w, tag) && w.g[tag].Covers(i)
    ensures |PlainStep(w, a).d.arena| == |w.d.arena| && i < |w.d.arena| && PlainStep(w, a).d.arena[i] == w.d.arena[i]
  {
    if a.DoDma? && D.Addresses(w.d, w.g, a.lease, a.part) {
      assert Held(w.d.slots, w.g, a.lease);
      HeldRunsDisjoint(w.d.slots, w.g, tag, a.lease);
      assert w.g[a.lease].Covers(w.g[a.lease].base + a.part);
    } else {
      ArenaKept(w, a);
    }
  }

  lemma ArenaKept(w: World, a: D.Action)
    requires w.d.cfg.gran > 0 && PlainEnabled(w, a) && !(a.DoDma? && D.Addresses(w.d, w.g, a.lease, a.part))
    ensures PlainStep(w, a).d.arena == w.d.arena
  {
    match a
    case DoRegister(rank, pid, vs) => InvalidateAllArena(w.d, vs);
    case DoTimeout(v) => InvalidateAllArena(w.d, [v]);
    case DoReserve(rank, epoch, tt, v, n, at) =>
    case DoDma(lease, part) =>
    case DoSubmit(rank, epoch, lease, slot) =>
    case DoComplete(c) =>
    case DoRelease(rank, epoch, lease) =>
    case DoTake(x) =>
    case DoSnapshot(x) =>
    case DoCopy(x) =>
    case DoWorkerCommit(x, ok, kind) =>
    case DoForceBegin(x, lease) =>
    case DoForceCommit(x, ok, kind) =>
  }

  lemma {:induction false} RecoverArena(d: Daemon, rank: nat, epoch: nat, order: seq<nat>)
    ensures RecoverLeases(d, rank, epoch, order).arena == d.arena
    decreases |order|
  {
    if order != [] {
      RecoverArena(RecoverLease(d, rank, epoch, order[0]), rank, epoch, order[1..]);
    }
  }

  lemma {:induction false} CompleteAllArena(d: Daemon, cs: seq<Completion>)
    ensures CompleteAll(d, cs).arena == d.arena
    decreases |cs|
  {
    if cs != [] {
      CompleteAllArena(Complete(d, cs[0], false), cs[1..]);
    }
  }

  lemma {:induction false} InvalidateAllArena(d: Daemon, vs: seq<Victim>)
    ensures InvalidateAll(d, vs).arena == d.arena
    ensures vs != [] ==> Invalidate(d, vs[0].rank, vs[0].order, vs[0].stragglers).arena == d.arena
    decreases |vs|
  {
    if vs != [] {
      var v := vs[0];
      if v.rank in d.sessions && d.sessions[v.rank].alive {
        var d1 := d.(sessions := d.sessions[v.rank := d.sessions[v.rank].(alive := false)]);
        RecoverArena(d1, v.rank, d.sessions[v.rank].epoch, v.order);
        CompleteAllArena(RecoverLeases(d1, v.rank, d.sessions[v.rank].epoch, v.order), v.stragglers);
      }
      InvalidateAllArena(Invalidate(d, v.rank, v.order, v.stragglers), vs[1..]);
    }
  }
}

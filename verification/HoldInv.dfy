/**
 What ties the canonical store to the slot table in every reachable state: an
 object's pinned location is its recorded run, runs that are read back or read
 are out of everyone else's reach.
 */
module HoldInv {
  import opened SlotTable
  import opened DaemonState
  import opened DaemonInv
  import D = Durability
  import opened CanonicalStore
  import opened StoreInv
  import opened HoldModel
  import opened HoldSteps

  // ------------------------------------------------------------- components

  /** The id was handed out and its creation is over. */
  ghost predicate Known(st: Store, id: nat) {
    id < st.nextObject && forall th | th in st.creates :: st.creates[th].id != id
  }

  /** Grants and locations under object tensor ids belong to ids that were handed out. */
  ghost predicate KnownInv(g: Grants, locs: map<nat, Location>, st: Store) {
    && (forall tag | tag in g && ObjTid(g[tag].tensor) :: Known(st, g[tag].tensor - TID_BIT))
    && (forall t | t in locs && ObjTid(t) :: Known(st, t - TID_BIT))
  }

  /** Run and location of an object of `nbytes` bytes, created with `lease`, recorded at slot `base`. */
  ghost predicate ObjRun(d: Daemon, g: Grants, t: nat, nbytes: nat, lease: nat, base: nat) {
    && (forall tag | tag in g && g[tag].tensor == t :: g[tag].version == 1 && g[tag].nbytes == nbytes)
    && (t in d.locations ==>
          var loc := d.locations[t];
          && loc.version == 1 && loc.nbytes == nbytes && loc.kind != LocNone
          && (loc.kind == LocPinned ==> loc.slot == base))
    && (forall l | l in d.leases && l in g && g[l].tensor == t :: l == lease)
    && (lease in d.leases && lease in g && g[lease].tensor == t && Unfinished(d.slots, g, lease) ==>
          && base == g[lease].base && t !in d.locations
          && forall tag | tag in g && g[tag].tensor == t :: tag == lease)
  }

  ghost predicate ObjRuns(d: Daemon, g: Grants, objects: map<nat, Obj>, base: map<nat, nat>) {
    forall id | id in objects ::
      id in base && ObjRun(d, g, Tid(id), objects[id].nbytes, objects[id].lease, base[id])
  }

  /** A run that is being read back, and what it holds so far. */
  ghost predicate WarmOk(d: Daemon, g: Grants, objects: map<nat, Obj>, r: Warmer) {
    && Held(d.slots, g, r.tag) && StateOf(d.slots, g, r.tag) == ReadbackInFlight && r.tag !in d.leases
    && g[r.tag].tensor == Tid(r.id) && g[r.tag].version == 1 && ObjTid(Tid(r.id))
    && g[r.tag].base + g[r.tag].count <= |d.arena|
    && r.data == Pieces(Tid(r.id), 1, g[r.tag].count) && r.filled <= g[r.tag].count
    && d.arena[g[r.tag].base..g[r.tag].base + r.filled] == r.data[..r.filled]
    && (r.id in objects ==>
          && Tid(r.id) in d.locations && g[r.tag].nbytes == objects[r.id].nbytes
          && objects[r.id].state != Creating)
  }

  ghost predicate TagsDistinct(warmers: map<nat, Warmer>) {
    forall t, u | t in warmers && u in warmers && t != u :: warmers[t].tag != warmers[u].tag
  }

  ghost predicate WarmsInv(d: Daemon, g: Grants, objects: map<nat, Obj>, warmers: map<nat, Warmer>) {
    && (forall th | th in warmers :: WarmOk(d, g, objects, warmers[th]))
    && TagsDistinct(warmers)
  }

  function HoldsOf(holds: map<nat, Hold>, id: nat): set<nat> {
    set k | k in holds && holds[k].id == id
  }

  /** A granted restore: its object is in the table, its run pinned. */
  ghost predicate HoldOk(d: Daemon, g: Grants, objects: map<nat, Obj>, h: Hold) {
    && h.id in objects && objects[h.id].state != Creating && ObjTid(Tid(h.id))
    && Held(d.slots, g, h.tag) && StateOf(d.slots, g, h.tag) == PinnedValid
    && g[h.tag].tensor == Tid(h.id)
  }

  ghost predicate HoldsInv(d: Daemon, g: Grants, objects: map<nat, Obj>, holds: map<nat, Hold>) {
    && (forall k | k in holds :: HoldOk(d, g, objects, holds[k]))
    && (forall id | id in objects :: |HoldsOf(holds, id)| <= objects[id].restores)
  }

  /** Cold references are given to one location each. */
  ghost predicate ColdInv(locs: map<nat, Location>, next: nat) {
    && next > 0
    && (forall t | t in locs :: locs[t].cold < next)
    && (forall t, u | t in locs && u in locs && t != u && locs[t].cold != 0 :: locs[t].cold != locs[u].cold)
  }

  ghost predicate WorldInv(w: World) {
    && CoreInv(w.d, w.g) && DataInv(w.d, w.g) && ColdInv(w.d.locations, w.d.nextCold)
    && StoreOk(w.st)
    && KnownInv(w.g, w.d.locations, w.st)
    && ObjRuns(w.d, w.g, w.st.objects, w.base)
    && WarmsInv(w.d, w.g, w.st.objects, w.warmers)
    && HoldsInv(w.d, w.g, w.st.objects, w.holds)
  }

  // ---------------------------------------------------- what gentle steps keep

  /** Grants only grow, and not under tensor `t`. */
  ghost predicate GrantsGrow(g: Grants, g': Grants, t: nat) {
    && (forall tag | tag in g :: tag in g' && g'[tag] == g[tag])
    && (forall tag | tag in g' && tag !in g :: g'[tag].tensor != t)
  }

  lemma UnfinishedSame(slots: seq<Slot>, g: Grants, g': Grants, tag: nat)
    requires tag in g && tag in g' && g'[tag] == g[tag]
    ensures Unfinished(slots, g, tag) == Unfinished(slots, g', tag)
  {
  }

  lemma ObjRunGentle(d: Daemon, g: Grants, d': Daemon, g': Grants, t: nat, nbytes: nat, lease: nat, base: nat)
    requires ObjRun(d, g, t, nbytes, lease, base) && Gentle(d, g, d', t) && GrantsGrow(g, g', t)
    ensures ObjRun(d', g', t, nbytes, lease, base)
  {
    if t in d'.locations && !(t in d.locations && d'.locations[t] == d.locations[t]) {
      var tag :| FromTag(d, g, d'.slots, t, d'.locations[t], tag);
      assert g[tag].version == 1 && g[tag].nbytes == nbytes;
    }
    if lease in d'.leases && lease in g' && g'[lease].tensor == t && Unfinished(d'.slots, g', lease) {
      assert lease in g;
      UnfinishedSame(d'.slots, g, g', lease);
    }
  }

  lemma KnownGentle(g: Grants, d: Daemon, d': Daemon, g': Grants, st: Store)
    requires KnownInv(g, d.locations, st)
    requires forall tag | tag in g' && ObjTid(g'[tag].tensor) :: tag in g && g[tag] == g'[tag]
    requires forall t | t in d'.locations && ObjTid(t) :: LocGentle(d, g, d', t)
    ensures KnownInv(g', d'.locations, st)
  {
    forall t | t in d'.locations && ObjTid(t) ensures Known(st, t - TID_BIT) {
      assert LocGentle(d, g, d', t);
      if t !in d.locations {
        var tag :| FromTag(d, g, d'.slots, t, d'.locations[t], tag);
        assert g[tag].tensor == t;
      }
    }
  }

  lemma WarmSteady(d: Daemon, g: Grants, d': Daemon, g': Grants, objects: map<nat, Obj>, r: Warmer)
    requires WarmOk(d, g, objects, r) && Steady(d.slots, d'.slots, r.tag) && r.tag in g' && g'[r.tag] == g[r.tag]
    requires r.tag !in d'.leases && |d'.arena| == |d.arena|
    requires forall i | g[r.tag].Covers(i) && 0 <= i < |d.arena| :: d'.arena[i] == d.arena[i]
    requires r.id in objects ==> Tid(r.id) in d'.locations
    ensures WarmOk(d', g', objects, r)
  {
    SteadyKeeps(d.slots, d'.slots, g, g', r.tag);
    SameStretch(d.arena, d'.arena, g[r.tag].base, g[r.tag].base + r.filled);
  }

  lemma SameStretch(a: seq<Piece>, b: seq<Piece>, lo: nat, hi: nat)
    requires lo <= hi <= |a| == |b| && forall i | lo <= i < hi :: a[i] == b[i]
    ensures a[lo..hi] == b[lo..hi]
  {
  }

  lemma HoldSteady(d: Daemon, g: Grants, d': Daemon, g': Grants, objects: map<nat, Obj>, h: Hold)
    requires HoldOk(d, g, objects, h) && Steady(d.slots, d'.slots, h.tag) && h.tag in g' && g'[h.tag] == g[h.tag]
    ensures HoldOk(d', g', objects, h)
  {
    SteadyKeeps(d.slots, d'.slots, g, g', h.tag);
  }

  /** A held object is in flight, so its run is protected. */
  lemma HeldIsProtected(w: World, k: nat)
    requires HoldsInv(w.d, w.g, w.st.objects, w.holds) && k in w.holds
    ensures Guarded(w, w.holds[k].tag) && w.st.objects[w.holds[k].id].restores > 0
  {
    var h := w.holds[k];
    assert HoldOk(w.d, w.g, w.st.objects, h);
    assert k in HoldsOf(w.holds, h.id);
  }

  lemma WarmIsGuarded(w: World, th: nat)
    requires WarmsInv(w.d, w.g, w.st.objects, w.warmers) && th in w.warmers
    ensures Guarded(w, w.warmers[th].tag)
  {
    assert WarmOk(w.d, w.g, w.st.objects, w.warmers[th]);
  }

  // ------------------------------------------------- steps of the slot machine

  lemma UpdateCold(locs: map<nat, Location>, next: nat, t: nat, loc: Location, next': nat)
    requires ColdInv(locs, next) && next <= next'
    requires loc.cold == 0 || (loc.cold == next && next < next') || (t in locs && loc.cold == locs[t].cold)
    ensures ColdInv(locs[t := loc], next')
  {
  }

  lemma WorkerCold(d: Daemon, x: nat, ok: bool, kind: LocKind)
    requires ColdInv(d.locations, d.nextCold)
    ensures ColdInv(WorkerCommit(d, x, ok, kind).locations, WorkerCommit(d, x, ok, kind).nextCold)
  {
    if x in d.drainers && d.drainers[x].Copying? {
      var j := d.drainers[x];
      UpdateCold(d.locations, d.nextCold, j.tensor, Location(j.version, kind, j.base, d.nextCold, j.nbytes),
                 d.nextCold + 1);
    }
  }

  lemma ForceCold(d: Daemon, x: nat, ok: bool, kind: LocKind)
    requires ColdInv(d.locations, d.nextCold)
    ensures ColdInv(ForceCommit(d, x, ok, kind).locations, ForceCommit(d, x, ok, kind).nextCold)
  {
    if x in d.drainers && d.drainers[x].Copying? {
      var j := d.drainers[x];
      UpdateCold(d.locations, d.nextCold, j.tensor, Location(j.version, kind, j.base, d.nextCold, j.nbytes),
                 d.nextCold + 1);
    }
  }

  lemma CompleteCold(d: Daemon, c: Completion, creating: bool)
    requires ColdInv(d.locations, d.nextCold)
    ensures ColdInv(Complete(d, c, creating).locations, Complete(d, c, creating).nextCold)
  {
    if Accepts(d, c) {
      var L := d.leases[c.lease];
      UpdateCold(d.locations, d.nextCold, c.tensor, Location(c.version, LocPinned, L.base, 0, L.nbytes), d.nextCold);
    }
  }

  lemma ReleaseCold(d: Daemon, rank: nat, epoch: nat, lease: nat)
    requires ColdInv(d.locations, d.nextCold)
    ensures ColdInv(ReleaseLease(d, rank, epoch, lease).locations, ReleaseLease(d, rank, epoch, lease).nextCold)
  {
    if Releases(d, rank, epoch, lease) && NamesRun(d.locations, d.leases[lease]) {
      var t := d.leases[lease].tensor;
      UpdateCold(d.locations, d.nextCold, t, d.locations[t].(kind := LocNone), d.nextCold);
    }
  }

  lemma {:induction false} RecoverCold(d: Daemon, rank: nat, epoch: nat, order: seq<nat>)
    ensures RecoverLeases(d, rank, epoch, order).nextCold == d.nextCold
    decreases |order|
  {
    if order != [] {
      RecoverCold(RecoverLease(d, rank, epoch, order[0]), rank, epoch, order[1..]);
    }
  }

  lemma InvalidateCold(d: Daemon, v: Victim)
    requires VictimOk(d, v)
    ensures Invalidate(d, v.rank, v.order, v.stragglers).nextCold == d.nextCold
  {
    InvalidateIs(d, v);
    if v.rank in d.sessions && d.sessions[v.rank].alive {
      RecoverCold(d.(sessions := d.sessions[v.rank := d.sessions[v.rank].(alive := false)]),
                  v.rank, d.sessions[v.rank].epoch, v.order);
    }
  }

  lemma {:induction false} InvalidateAllCold(d: Daemon, vs: seq<Victim>)
    requires VictimsOk(d, vs)
    ensures InvalidateAll(d, vs).nextCold == d.nextCold
    decreases |vs|
  {
    if vs != [] {
      InvalidateCold(d, vs[0]);
      InvalidateAllCold(Invalidate(d, vs[0].rank, vs[0].order, vs[0].stragglers), vs[1..]);
    }
  }

  lemma PlainCold(w: World, a: D.Action)
    requires CoreInv(w.d, w.g) && DataInv(w.d, w.g) && PlainEnabled(w, a) && ColdInv(w.d.locations, w.d.nextCold)
    ensures ColdInv(PlainStep(w, a).d.locations, PlainStep(w, a).d.nextCold)
  {
    if a.DoWorkerCommit? {
      WorkerCold(w.d, a.w, a.ok, a.kind);
    } else if a.DoForceCommit? {
      ForceCold(w.d, a.w, a.ok, a.kind);
    } else if a.DoComplete? {
      CompleteCold(w.d, a.c, UnderCreation(w.st, a.c.tensor));
    } else if a.DoRelease? {
      ReleaseCold(w.d, a.rank, a.epoch, a.lease);
    } else if a.DoRegister? {
      D.DataInvalidateAll(w.d, w.g, a.victims);
      InvalidateAllCold(w.d, a.victims);
    } else if a.DoTimeout? {
      D.DataInvalidate(w.d, w.g, a.victim);
      InvalidateCold(w.d, a.victim);
    } else if a.DoTake? || a.DoSnapshot? || a.DoCopy? {
      LightDrain(w, a);
    }
  }

  lemma PlainAB(w: World, a: D.Action)
    requires CoreInv(w.d, w.g) && DataInv(w.d, w.g) && PlainEnabled(w, a)
    ensures CoreInv(PlainStep(w, a).d, PlainStep(w, a).g) && DataInv(PlainStep(w, a).d, PlainStep(w, a).g)
  {
    if a.DoComplete? {
      CoreComplete(w.d, w.g, a.c, UnderCreation(w.st, a.c.tensor));
      D.DataComplete(w.d, w.g, a.c, UnderCreation(w.st, a.c.tensor));
    } else {
      D.CoreStep(D.Sys(w.d, w.g), a);
      D.DataStep(D.Sys(w.d, w.g), a);
    }
  }
}

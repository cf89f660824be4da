/**
 Giving up the run, location and lease of an erased object: it frees exactly
 the object's own pinned run, and nothing that another object or a reader uses.
 */
module HoldRelease {
  import opened SlotTable
  import opened DaemonState
  import opened DaemonInv
  import D = Durability
  import opened CanonicalStore
  import opened HoldModel
  import opened HoldSteps
  import opened HoldInv

  /** Tables and contents are in order. */
  ghost predicate Orderly(d: Daemon, g: Grants) {
    CoreInv(d, g) && DataInv(d, g) && ColdInv(d.locations, d.nextCold)
  }

  /** The release frees the run at the object's recorded base. */
  predicate Frees(d: Daemon, t: nat, base: nat) {
    t in d.locations && d.locations[t].kind == LocPinned && StateAt(d.slots, base) == PinnedValid
  }

  /** An object's pinned location names a whole run of the object's own. */
  lemma OwnRun(d: Daemon, g: Grants, t: nat, nbytes: nat, lease: nat, base: nat)
    requires Orderly(d, g) && ObjRun(d, g, t, nbytes, lease, base)
    requires t in d.locations && d.locations[t].kind == LocPinned
    ensures base < |d.slots|
    ensures var tag := d.slots[base].lease;
      && Held(d.slots, g, tag) && g[tag].tensor == t && g[tag].base == base
      && g[tag].count == SlotsFor(d.cfg.gran, nbytes) && (tag in d.leases ==> tag == lease)
  {
    assert LocOk(d.slots, d.cold, g, d.cfg.gran, t, d.locations[t]);
  }

  /** The leases and slots after the release. */
  lemma ReleaseShape(d: Daemon, g: Grants, t: nat, nbytes: nat, lease: nat, base: nat)
    requires Orderly(d, g) && ObjRun(d, g, t, nbytes, lease, base)
    ensures var d' := ReleaseBacking(d, t, base, SlotsFor(d.cfg.gran, nbytes), lease);
      && d'.leases == d.leases - {lease} && d'.arena == d.arena && d'.cfg == d.cfg
      && d'.locations == d.locations - {t} && d'.nextCold == d.nextCold
      && |d'.slots| == |d.slots|
      && (!Frees(d, t, base) ==> d'.slots == d.slots)
      && (Frees(d, t, base) ==> base < |d.slots| && DaemonInv.Freed(d.slots, d'.slots, d.slots[base].lease))
  {
    if Frees(d, t, base) {
      OwnRun(d, g, t, nbytes, lease, base);
      FreeRunByTag(d.slots, g, d.slots[base].lease);
    }
  }

  lemma CoreForget(d: Daemon, g: Grants, locs: map<nat, Location>, cold: map<nat, ColdEntry>)
    requires CoreInv(d, g) && cold.Keys <= d.cold.Keys
    ensures CoreInv(d.(locations := locs, cold := cold), g)
  {
    assert CountersInv(d.(locations := locs, cold := cold), g);
  }

  /** The tables without the object's lease, location and cold copy. */
  function Forgotten(d: Daemon, t: nat, lease: nat): Daemon {
    d.(leases := d.leases - {lease}, locations := d.locations - {t},
       cold := if t in d.locations && d.locations[t].kind != LocPinned && d.locations[t].cold != 0
               then d.cold - {d.locations[t].cold} else d.cold)
  }

  lemma ReleaseIs(d: Daemon, t: nat, base: nat, count: nat, lease: nat)
    ensures ReleaseBacking(d, t, base, count, lease)
      == if Frees(d, t, base) then FreeSlots(Forgotten(d, t, lease), base, count) else Forgotten(d, t, lease)
  {
    if t !in d.locations {
      assert d.locations - {t} == d.locations;
    }
  }

  lemma ForgottenCore(d: Daemon, g: Grants, t: nat, lease: nat)
    requires CoreInv(d, g)
    ensures CoreInv(Forgotten(d, t, lease), g)
  {
    CoreDropLease(d, g, lease);
    CoreForget(d.(leases := d.leases - {lease}), g, Forgotten(d, t, lease).locations, Forgotten(d, t, lease).cold);
  }

  lemma ReleaseCore(d: Daemon, g: Grants, t: nat, nbytes: nat, lease: nat, base: nat)
    requires Orderly(d, g) && ObjRun(d, g, t, nbytes, lease, base)
    ensures CoreInv(ReleaseBacking(d, t, base, SlotsFor(d.cfg.gran, nbytes), lease), g)
  {
    ReleaseIs(d, t, base, SlotsFor(d.cfg.gran, nbytes), lease);
    ForgottenCore(d, g, t, lease);
    if Frees(d, t, base) {
      OwnRun(d, g, t, nbytes, lease, base);
      FreeForgotten(Forgotten(d, t, lease), g, d.slots[base].lease);
    }
  }

  lemma FreeForgotten(d: Daemon, g: Grants, tag: nat)
    requires CoreInv(d, g) && Held(d.slots, g, tag) && StateOf(d.slots, g, tag) == PinnedValid && tag !in d.leases
    ensures CoreInv(FreeSlots(d, g[tag].base, g[tag].count), g)
  {
    CoreFree(d, g, tag);
    assert d.leases - {tag} == d.leases;
  }

  /** The location of another tensor stays readable. */
  lemma ReleaseLoc(d: Daemon, g: Grants, t: nat, nbytes: nat, lease: nat, base: nat, u: nat)
    requires Orderly(d, g) && ObjRun(d, g, t, nbytes, lease, base) && u in d.locations && u != t
    ensures var d' := ReleaseBacking(d, t, base, SlotsFor(d.cfg.gran, nbytes), lease);
      LocOk(d'.slots, d'.cold, g, d.cfg.gran, u, d.locations[u])
  {
    assert LocOk(d.slots, d.cold, g, d.cfg.gran, u, d.locations[u]);
    ReleaseShape(d, g, t, nbytes, lease, base);
    if Frees(d, t, base) {
      OwnRun(d, g, t, nbytes, lease, base);
    }
  }

  lemma ReleaseData(d: Daemon, g: Grants, t: nat, nbytes: nat, lease: nat, base: nat)
    requires Orderly(d, g) && ObjRun(d, g, t, nbytes, lease, base)
    ensures DataInv(ReleaseBacking(d, t, base, SlotsFor(d.cfg.gran, nbytes), lease), g)
  {
    var d' := ReleaseBacking(d, t, base, SlotsFor(d.cfg.gran, nbytes), lease);
    ReleaseShape(d, g, t, nbytes, lease, base);
    if Frees(d, t, base) {
      D.MemFree(d.slots, d'.slots, d.arena, g, d.slots[base].lease);
    }
    forall u | u in d'.locations ensures LocOk(d'.slots, d'.cold, g, d.cfg.gran, u, d'.locations[u]) {
      ReleaseLoc(d, g, t, nbytes, lease, base, u);
    }
  }

  lemma ReleaseOrderly(d: Daemon, g: Grants, t: nat, nbytes: nat, lease: nat, base: nat)
    requires Orderly(d, g) && ObjRun(d, g, t, nbytes, lease, base)
    ensures Orderly(ReleaseBacking(d, t, base, SlotsFor(d.cfg.gran, nbytes), lease), g)
  {
    ReleaseCore(d, g, t, nbytes, lease, base);
    ReleaseData(d, g, t, nbytes, lease, base);
    ReleaseShape(d, g, t, nbytes, lease, base);
  }

  /** Another object's leases, states and location are as a gentle step leaves them. */
  lemma ReleaseGentleTo(d: Daemon, g: Grants, t: nat, nbytes: nat, lease: nat, base: nat, u: nat)
    requires Orderly(d, g) && ObjRun(d, g, t, nbytes, lease, base) && u != t
    ensures Gentle(d, g, ReleaseBacking(d, t, base, SlotsFor(d.cfg.gran, nbytes), lease), u)
  {
    var d' := ReleaseBacking(d, t, base, SlotsFor(d.cfg.gran, nbytes), lease);
    ReleaseShape(d, g, t, nbytes, lease, base);
    if Frees(d, t, base) {
      MoveGentle(d, g, d'.(locations := d.locations), d.slots[base].lease, Free, u);
    } else {
      SameSlotsGentle(d, g, d'.(locations := d.locations), u);
    }
  }

  /** Runs of other tensors, and runs that are not pinned, are untouched. */
  lemma ReleaseSteady(d: Daemon, g: Grants, t: nat, nbytes: nat, lease: nat, base: nat, tag: nat)
    requires Orderly(d, g) && ObjRun(d, g, t, nbytes, lease, base) && Held(d.slots, g, tag)
    requires g[tag].tensor != t || StateOf(d.slots, g, tag) != PinnedValid
    ensures Steady(d.slots, ReleaseBacking(d, t, base, SlotsFor(d.cfg.gran, nbytes), lease).slots, tag)
  {
    ReleaseShape(d, g, t, nbytes, lease, base);
    if Frees(d, t, base) {
      OwnRun(d, g, t, nbytes, lease, base);
    }
  }

  // --------------------------------------------------------- several at a time

  /** The objects of `order` are distinct and have runs in order. */
  ghost predicate Releasable(d: Daemon, g: Grants, objects: map<nat, Obj>, base: map<nat, nat>, order: seq<nat>) {
    && (forall i, j | 0 <= i < j < |order| :: order[i] != order[j])
    && (forall id | id in order ::
          id in objects && id in base && ObjRun(d, g, Tid(id), objects[id].nbytes, objects[id].lease, base[id]))
  }

  function ReleaseFirst(d: Daemon, objects: map<nat, Obj>, base: map<nat, nat>, id: nat): Daemon
    requires d.cfg.gran > 0 && id in objects && id in base
  {
    ReleaseBacking(d, Tid(id), base[id], SlotsFor(d.cfg.gran, objects[id].nbytes), objects[id].lease)
  }

  lemma ReleasableRest(d: Daemon, g: Grants, objects: map<nat, Obj>, base: map<nat, nat>, order: seq<nat>)
    requires Orderly(d, g) && Releasable(d, g, objects, base, order) && order != []
    ensures order[0] in objects && order[0] in base
    ensures Orderly(ReleaseFirst(d, objects, base, order[0]), g)
    ensures Releasable(ReleaseFirst(d, objects, base, order[0]), g, objects, base, order[1..])
  {
    var id := order[0];
    assert id in order;
    ReleaseOrderly(d, g, Tid(id), objects[id].nbytes, objects[id].lease, base[id]);
    var d1 := ReleaseFirst(d, objects, base, id);
    forall x | x in order[1..]
      ensures x in objects && x in base && ObjRun(d1, g, Tid(x), objects[x].nbytes, objects[x].lease, base[x])
    {
      assert x in order && x != id;
      ReleaseGentleTo(d, g, Tid(id), objects[id].nbytes, objects[id].lease, base[id], Tid(x));
      ObjRunGentle(d, g, d1, g, Tid(x), objects[x].nbytes, objects[x].lease, base[x]);
    }
  }

  lemma {:induction false} ReleaseAllOrderly(d: Daemon, g: Grants, objects: map<nat, Obj>, base: map<nat, nat>,
                                             order: seq<nat>)
    requires Orderly(d, g) && Releasable(d, g, objects, base, order)
    ensures var d' := ReleaseAll(d, objects, base, order);
      && Orderly(d', g) && d'.arena == d.arena && d'.leases.Keys <= d.leases.Keys
      && d'.locations.Keys <= d.locations.Keys
    decreases |order|
  {
    if order != [] {
      var id := order[0];
      ReleasableRest(d, g, objects, base, order);
      ReleaseShape(d, g, Tid(id), objects[id].nbytes, objects[id].lease, base[id]);
      ReleaseAllOrderly(ReleaseFirst(d, objects, base, id), g, objects, base, order[1..]);
    }
  }

  lemma {:induction false} ReleaseAllGentle(d: Daemon, g: Grants, objects: map<nat, Obj>, base: map<nat, nat>,
                                            order: seq<nat>, x: nat)
    requires Orderly(d, g) && Releasable(d, g, objects, base, order) && x !in order
    ensures Gentle(d, g, ReleaseAll(d, objects, base, order), Tid(x))
    decreases |order|
  {
    if order == [] {
      SameSlotsGentle(d, g, d, Tid(x));
    } else {
      var id := order[0];
      var d1 := ReleaseFirst(d, objects, base, id);
      ReleasableRest(d, g, objects, base, order);
      ReleaseGentleTo(d, g, Tid(id), objects[id].nbytes, objects[id].lease, base[id], Tid(x));
      ReleaseAllGentle(d1, g, objects, base, order[1..], x);
      GentleTrans(d, g, d1, ReleaseAll(d1, objects, base, order[1..]), Tid(x));
    }
  }

  /** Runs of objects that are not released, and runs that are not pinned, are untouched. */
  lemma {:induction false} ReleaseAllSteady(d: Daemon, g: Grants, objects: map<nat, Obj>, base: map<nat, nat>,
                                            order: seq<nat>, tag: nat)
    requires Orderly(d, g) && Releasable(d, g, objects, base, order) && Held(d.slots, g, tag)
    requires StateOf(d.slots, g, tag) != PinnedValid || forall id | id in order :: g[tag].tensor != Tid(id)
    ensures Steady(d.slots, ReleaseAll(d, objects, base, order).slots, tag)
    decreases |order|
  {
    if order != [] {
      var id := order[0];
      var d1 := ReleaseFirst(d, objects, base, id);
      ReleasableRest(d, g, objects, base, order);
      assert id in order;
      ReleaseSteady(d, g, Tid(id), objects[id].nbytes, objects[id].lease, base[id], tag);
      SteadyKeeps(d.slots, d1.slots, g, g, tag);
      ReleaseAllSteady(d1, g, objects, base, order[1..], tag);
    }
  }
}

/**
 The sections that concern both machines keep what ties them together: objects
 erased with their runs, creations, commits, and restores of resident and of
 cold objects.
 */
module HoldTransfers {
  import opened SlotTable
  import opened DaemonState
  import opened DaemonInv
  import D = Durability
  import opened CanonicalStore
  import opened StoreInv
  import R = CanonicalRuns
  import opened HoldModel
  import opened HoldSteps
  import opened HoldInv
  import opened HoldRelease
  import opened HoldFrames

  // ------------------------------------------------------------ objects erased

  /** Objects may go; those that stay keep size and lease, and a finished creation stays finished. */
  ghost predicate StoreThins(st: Store, st': Store) {
    && KnownGrows(st, st')
    && (forall x | x in st'.objects ::
          && x in st.objects && st'.objects[x].nbytes == st.objects[x].nbytes
          && st'.objects[x].lease == st.objects[x].lease
          && (st.objects[x].state != Creating ==> st'.objects[x].state != Creating))
  }

  /** Holds may end; the objects of those that remain stay, and count them. */
  ghost predicate HoldsThin(holds: map<nat, Hold>, holds': map<nat, Hold>, objects': map<nat, Obj>) {
    && (forall k | k in holds' :: k in holds && holds'[k] == holds[k] && holds'[k].id in objects')
    && (forall x | x in objects' :: |HoldsOf(holds', x)| <= objects'[x].restores)
  }

  ghost predicate Thins(w: World, st': Store, holds': map<nat, Hold>) {
    StoreOk(st') && StoreThins(w.st, st') && HoldsThin(w.holds, holds', st'.objects)
  }

  lemma ErasedAreReleasable(w: World, st': Store, order: seq<nat>)
    requires WorldInv(w) && Erases(w.st, st', order)
    ensures Orderly(w.d, w.g) && Releasable(w.d, w.g, w.st.objects, w.base, order)
  {
  }

  lemma ThinObjRuns(w: World, st': Store, holds': map<nat, Hold>, order: seq<nat>)
    requires WorldInv(w) && Thins(w, st', holds') && Erases(w.st, st', order)
    ensures ObjRuns(ReleaseAll(w.d, w.st.objects, w.base, order), w.g, st'.objects, w.base)
  {
    var d' := ReleaseAll(w.d, w.st.objects, w.base, order);
    ErasedAreReleasable(w, st', order);
    forall x | x in st'.objects
      ensures x in w.base && ObjRun(d', w.g, Tid(x), st'.objects[x].nbytes, st'.objects[x].lease, w.base[x])
    {
      ReleaseAllGentle(w.d, w.g, w.st.objects, w.base, order, x);
      ObjRunGentle(w.d, w.g, d', w.g, Tid(x), w.st.objects[x].nbytes, w.st.objects[x].lease, w.base[x]);
    }
  }

  lemma ThinWarms(w: World, st': Store, holds': map<nat, Hold>, order: seq<nat>)
    requires WorldInv(w) && Thins(w, st', holds') && Erases(w.st, st', order)
    ensures WarmsInv(ReleaseAll(w.d, w.st.objects, w.base, order), w.g, st'.objects, w.warmers)
  {
    var d' := ReleaseAll(w.d, w.st.objects, w.base, order);
    ErasedAreReleasable(w, st', order);
    ReleaseAllOrderly(w.d, w.g, w.st.objects, w.base, order);
    forall th | th in w.warmers ensures WarmOk(d', w.g, st'.objects, w.warmers[th]) {
      var r := w.warmers[th];
      assert WarmOk(w.d, w.g, w.st.objects, r);
      ReleaseAllSteady(w.d, w.g, w.st.objects, w.base, order, r.tag);
      if r.id in st'.objects {
        ReleaseAllGentle(w.d, w.g, w.st.objects, w.base, order, r.id);
      }
      assert WarmOk(w.d, w.g, st'.objects, r);
      WarmSteady(w.d, w.g, d', w.g, st'.objects, r);
    }
  }

  lemma ThinHold(d: Daemon, g: Grants, objects: map<nat, Obj>, base: map<nat, nat>, order: seq<nat>, h: Hold)
    requires Orderly(d, g) && Releasable(d, g, objects, base, order) && HoldOk(d, g, objects, h) && h.id !in order
    ensures HoldOk(ReleaseAll(d, objects, base, order), g, objects, h)
  {
    ReleaseAllSteady(d, g, objects, base, order, h.tag);
    HoldSteady(d, g, ReleaseAll(d, objects, base, order), g, objects, h);
  }

  lemma ThinHolds(w: World, st': Store, holds': map<nat, Hold>, order: seq<nat>)
    requires WorldInv(w) && Thins(w, st', holds') && Erases(w.st, st', order)
    ensures HoldsInv(ReleaseAll(w.d, w.st.objects, w.base, order), w.g, st'.objects, holds')
  {
    var d' := ReleaseAll(w.d, w.st.objects, w.base, order);
    ErasedAreReleasable(w, st', order);
    forall k | k in holds' ensures HoldOk(d', w.g, st'.objects, holds'[k]) {
      assert HoldOk(w.d, w.g, w.st.objects, w.holds[k]);
      ThinHold(w.d, w.g, w.st.objects, w.base, order, holds'[k]);
    }
  }

  lemma ThinStep(w: World, st': Store, holds': map<nat, Hold>, order: seq<nat>)
    requires WorldInv(w) && Thins(w, st', holds') && Erases(w.st, st', order)
    ensures WorldInv(w.(d := ReleaseAll(w.d, w.st.objects, w.base, order), st := st', holds := holds'))
  {
    var d' := ReleaseAll(w.d, w.st.objects, w.base, order);
    ErasedAreReleasable(w, st', order);
    ReleaseAllOrderly(w.d, w.g, w.st.objects, w.base, order);
    KnownWeaker(w.g, w.d.locations, d'.locations, w.st, st');
    ThinObjRuns(w, st', holds', order);
    ThinWarms(w, st', holds', order);
    ThinHolds(w, st', holds', order);
  }

  lemma TableKnown(c: SealConfig, st: Store, a: R.Act)
    requires StoreOk(st)
    ensures KnownGrows(st, R.Apply(c, st, a))
  {
    R.StepCreates(c, st, a);
  }

  lemma StepTable(c: SealConfig, w: World, act: R.Act, order: seq<nat>)
    requires WorldInv(w) && TableEnabled(c, w, act, order)
    ensures WorldInv(ApplyTable(c, w, act, order))
  {
    var st' := R.Apply(c, w.st, act);
    TableUse(c, w.st, act);
    TableKnown(c, w.st, act);
    R.StepOk(c, w.st, act);
    forall k | k in w.holds ensures w.holds[k].id in st'.objects {
      HeldIsProtected(w, k);
    }
    assert Thins(w, st', w.holds);
    ThinStep(w, st', w.holds, order);
  }

  // --------------------------------------------------------------- holds that end

  lemma HoldsOfLess(holds: map<nat, Hold>, token: nat, x: nat)
    requires token in holds
    ensures |HoldsOf(holds - {token}, x)| == |HoldsOf(holds, x)| - if holds[token].id == x then 1 else 0
  {
    assert HoldsOf(holds - {token}, x) == HoldsOf(holds, x) - {token};
  }

  /** Only the object's restore count, or the whole object, goes. */
  lemma RestoreReleaseUse(st: Store, id: nat)
    requires id in st.objects && st.objects[id].restores > 0
    ensures var st' := RestoreRelease(st, id);
      && st'.creates == st.creates && st'.nextObject == st.nextObject
      && (forall x | x in st'.objects :: x in st.objects
            && st'.objects[x] == st.objects[x].(restores := st.objects[x].restores - if x == id then 1 else 0))
      && (forall x | x in st.objects && (x != id || st.objects[x].restores > 1) :: x in st'.objects)
  {
  }

  lemma EndStoreThins(st: Store, id: nat)
    requires id in st.objects && st.objects[id].restores > 0
    ensures StoreThins(st, RestoreRelease(st, id))
  {
    RestoreReleaseUse(st, id);
  }

  lemma EndHoldsThin(w: World, token: nat)
    requires HoldsInv(w.d, w.g, w.st.objects, w.holds) && token in w.holds
    ensures HoldsThin(w.holds, w.holds - {token}, RestoreRelease(w.st, w.holds[token].id).objects)
  {
    var id, holds' := w.holds[token].id, w.holds - {token};
    var st' := RestoreRelease(w.st, id);
    HeldIsProtected(w, token);
    RestoreReleaseUse(w.st, id);
    forall k | k in holds' ensures holds'[k].id in st'.objects {
      EndKeepsOthers(w, token, k);
    }
    forall x | x in st'.objects ensures |HoldsOf(holds', x)| <= st'.objects[x].restores {
      HoldsOfLess(w.holds, token, x);
    }
  }

  /** The restore count of the ended hold's object, or the object, goes; the others' stay. */
  lemma EndThins(w: World, token: nat)
    requires StoreOk(w.st) && HoldsInv(w.d, w.g, w.st.objects, w.holds) && token in w.holds
    ensures Thins(w, RestoreRelease(w.st, w.holds[token].id), w.holds - {token})
  {
    RestoreReleaseOk(w.st, w.holds[token].id);
    HeldIsProtected(w, token);
    EndStoreThins(w.st, w.holds[token].id);
    EndHoldsThin(w, token);
  }

  lemma EndKeepsOthers(w: World, token: nat, k: nat)
    requires HoldsInv(w.d, w.g, w.st.objects, w.holds) && token in w.holds && k in w.holds && k != token
    ensures var x := w.holds[k].id;
      x in w.st.objects && (x == w.holds[token].id ==> w.st.objects[x].restores > 1)
  {
    var x := w.holds[k].id;
    assert HoldOk(w.d, w.g, w.st.objects, w.holds[k]);
    if x == w.holds[token].id {
      assert {k, token} <= HoldsOf(w.holds, x);
      assert HoldsOf(w.holds, x) == {k, token} + (HoldsOf(w.holds, x) - {k, token});
    }
  }

  lemma StepEndHold(w: World, token: nat, order: seq<nat>)
    requires WorldInv(w) && (token in w.holds ==> Erases(w.st, RestoreRelease(w.st, w.holds[token].id), order))
    ensures WorldInv(ApplyEnd(w, token, order))
  {
    if token in w.holds {
      EndThins(w, token);
      ThinStep(w, RestoreRelease(w.st, w.holds[token].id), w.holds - {token}, order);
    }
  }

  // ------------------------------------------------------------------ creation

  /** Nothing is known yet under the tensor id of an object that is being created. */
  lemma NoRunYet(w: World, th: nat)
    requires StoreOk(w.st) && KnownInv(w.g, w.d.locations, w.st) && th in w.st.creates
      && w.st.nextObject < CANDIDATE_BIT
    ensures var t := Tid(w.st.creates[th].id);
      ObjTid(t) && t !in w.d.locations && forall tag | tag in w.g :: w.g[tag].tensor != t
  {
    assert !Known(w.st, w.st.creates[th].id);
  }

  lemma CreateKnown(w: World, th: nat, lease: nat, L: Lease)
    requires StoreOk(w.st) && KnownInv(w.g, w.d.locations, w.st) && th in w.st.creates
    requires L.tensor == Tid(w.st.creates[th].id)
    ensures KnownInv(w.g[lease := L], w.d.locations, FinishCreate(w.st, th, true, lease))
  {
    var p, st' := w.st.creates[th], FinishCreate(w.st, th, true, lease);
    assert Known(st', p.id);
    forall id | Known(w.st, id) ensures Known(st', id) {
    }
  }

  /** The new object has just its own run. */
  lemma CreateObjRun(d: Daemon, g: Grants, d': Daemon, n: nat, L: Lease)
    requires L.tensor !in d.locations && n !in g && L.version == 1
    requires forall tag | tag in g :: g[tag].tensor != L.tensor
    requires d'.leases == d.leases[n := L] && d'.locations == d.locations
    ensures ObjRun(d', g[n := L], L.tensor, L.nbytes, n, L.base)
  {
    assert forall tag | tag in g[n := L] && tag != n :: tag in g && g[n := L][tag] == g[tag];
  }

  lemma CreateObjRuns(w: World, p: Pending, d': Daemon, n: nat, L: Lease, objects': map<nat, Obj>)
    requires ObjRuns(w.d, w.g, w.st.objects, w.base) && n !in w.g
    requires L.tensor == Tid(p.id) && L.tensor !in w.d.locations && L.version == 1 && L.nbytes == p.key.nbytes
    requires forall tag | tag in w.g :: w.g[tag].tensor != L.tensor
    requires d'.leases == w.d.leases[n := L] && d'.locations == w.d.locations
    requires forall t :: Gentle(w.d, w.g, d', t)
    requires objects' == w.st.objects[p.id := NewObject(p, n)]
    ensures ObjRuns(d', w.g[n := L], objects', w.base[p.id := L.base])
  {
    var base' := w.base[p.id := L.base];
    forall id | id in objects'
      ensures id in base' && ObjRun(d', w.g[n := L], Tid(id), objects'[id].nbytes, objects'[id].lease, base'[id])
    {
      if id == p.id {
        CreateObjRun(w.d, w.g, d', n, L);
      } else {
        ObjRunGentle(w.d, w.g, d', w.g[n := L], Tid(id), w.st.objects[id].nbytes, w.st.objects[id].lease, w.base[id]);
      }
    }
  }

  lemma CreateWarms(w: World, p: Pending, d': Daemon, n: nat, L: Lease, objects': map<nat, Obj>)
    requires WarmsInv(w.d, w.g, w.st.objects, w.warmers) && n !in w.g && 0 !in w.g
    requires forall tag | tag in w.g :: w.g[tag].tensor != Tid(p.id)
    requires d'.leases == w.d.leases[n := L] && d'.locations == w.d.locations && d'.arena == w.d.arena
    requires forall tag: nat | tag > 0 :: Steady(w.d.slots, d'.slots, tag)
    requires objects' == w.st.objects[p.id := NewObject(p, n)]
    ensures WarmsInv(d', w.g[n := L], objects', w.warmers)
  {
    forall th | th in w.warmers ensures WarmOk(d', w.g[n := L], objects', w.warmers[th]) {
      var r := w.warmers[th];
      assert WarmOk(w.d, w.g, w.st.objects, r);
      assert r.id != p.id;
      WarmSteady(w.d, w.g, d', w.g[n := L], w.st.objects, r);
    }
  }

  lemma CreateHolds(w: World, p: Pending, d': Daemon, n: nat, L: Lease, objects': map<nat, Obj>)
    requires HoldsInv(w.d, w.g, w.st.objects, w.holds) && n !in w.g && 0 !in w.g && p.id !in w.st.objects
    requires forall tag: nat | tag > 0 :: Steady(w.d.slots, d'.slots, tag)
    requires objects' == w.st.objects[p.id := NewObject(p, n)]
    ensures HoldsInv(d', w.g[n := L], objects', w.holds)
  {
    forall k | k in w.holds ensures HoldOk(d', w.g[n := L], objects', w.holds[k]) {
      assert HoldOk(w.d, w.g, w.st.objects, w.holds[k]);
      HoldSteady(w.d, w.g, d', w.g[n := L], w.st.objects, w.holds[k]);
    }
    assert HoldsOf(w.holds, p.id) == {};
  }

  /** A new lease number is fresh. */
  lemma FreshLease(d: Daemon, g: Grants)
    requires CoreInv(d, g)
    ensures d.nextLease !in g && 0 !in g && d.nextLease !in d.leases
  {
  }

  lemma StepCreate(w: World, th: nat, rank: nat, epoch: nat, at: nat)
    requires WorldInv(w) && w.st.nextObject < CANDIDATE_BIT && R.Enabled(w.st, R.AFinishCreate(th, true, 0))
    ensures WorldInv(ApplyCreate(w, th, rank, epoch, at))
  {
    if th in w.st.creates && RunFree(w.d.slots, at, SlotsFor(w.d.cfg.gran, w.st.creates[th].key.nbytes)) {
      var p, n := w.st.creates[th], w.d.nextLease;
      var L := Lease(at, SlotsFor(w.d.cfg.gran, p.key.nbytes), Tid(p.id), 1, rank, epoch, p.key.nbytes);
      var d' := Reserve(w.d, rank, epoch, Tid(p.id), 1, p.key.nbytes, at);
      var st' := FinishCreate(w.st, th, true, n);
      CoreReserve(w.d, w.g, rank, epoch, Tid(p.id), 1, p.key.nbytes, at);
      D.DataReserve(w.d, w.g, rank, epoch, Tid(p.id), 1, p.key.nbytes, at);
      FinishCreateOk(w.st, th, true, n);
      CreateKnown(w, th, n, L);
      FreshLease(w.d, w.g);
      NoRunYet(w, th);
      CreateGentle(w.d, w.g, rank, epoch, p, at, d', L);
      CreateObjRuns(w, p, d', n, L, st'.objects);
      CreateWarms(w, p, d', n, L, st'.objects);
      CreateHolds(w, p, d', n, L, st'.objects);
    }
  }

  lemma CreateGentle(d: Daemon, g: Grants, rank: nat, epoch: nat, p: Pending, at: nat, d': Daemon, L: Lease)
    requires CoreInv(d, g) && L == Lease(at, SlotsFor(d.cfg.gran, p.key.nbytes), Tid(p.id), 1, rank, epoch,
      p.key.nbytes)
    requires RunFree(d.slots, at, L.count) && d' == Reserve(d, rank, epoch, Tid(p.id), 1, p.key.nbytes, at)
    ensures forall t :: Gentle(d, g, d', t)
    ensures forall tag: nat | tag > 0 :: Steady(d.slots, d'.slots, tag)
  {
    forall t ensures Gentle(d, g, d', t) {
      ReserveGentle(d, g, rank, epoch, Tid(p.id), 1, p.key.nbytes, at, t);
    }
    forall tag: nat | tag > 0 ensures Steady(d.slots, d'.slots, tag) {
      StampSteady(d, g, L, ReservedD2H, tag);
    }
  }

  // -------------------------------------------------------------------- commit

  predicate DiscardFrees(d: Daemon, lease: nat) {
    lease in d.leases && var st := StateAt(d.slots, d.leases[lease].base);
    st == PinnedValid || st == ReservedD2H || st == D2HInFlight
  }

  lemma DiscardFields(d: Daemon, lease: nat)
    requires lease in d.leases
    ensures var d' := Discard(d, lease);
      d' == d.(leases := d.leases - {lease}, locations := d.locations - {d.leases[lease].tensor},
               slots := d'.slots, used := d'.used)
  {
  }

  lemma DiscardShape(d: Daemon, g: Grants, lease: nat)
    requires CoreInv(d, g) && lease in d.leases
    ensures var d' := Discard(d, lease);
      && d' == d.(leases := d.leases - {lease}, locations := d.locations - {d.leases[lease].tensor},
                  slots := d'.slots, used := d'.used)
      && OnlyTag(d.slots, d'.slots, lease) && Held(d.slots, g, lease)
      && (if DiscardFrees(d, lease) then DaemonInv.Freed(d.slots, d'.slots, lease) else d'.slots == d.slots)
  {
    assert Held(d.slots, g, lease) && d.leases[lease] == g[lease];
    DiscardFields(d, lease);
    FreeRunByTag(d.slots, g, lease);
  }

  lemma DiscardCore(d: Daemon, g: Grants, lease: nat)
    requires CoreInv(d, g) && lease in d.leases
    ensures CoreInv(Discard(d, lease), g)
  {
    var locs := d.locations - {d.leases[lease].tensor};
    CoreForget(d, g, locs, d.cold);
    var d1 := d.(locations := locs, cold := d.cold);
    if DiscardFrees(d, lease) {
      CoreFree(d1, g, lease);
    } else {
      CoreDropLease(d1, g, lease);
    }
  }

  lemma DiscardData(d: Daemon, g: Grants, lease: nat)
    requires CoreInv(d, g) && DataInv(d, g) && lease in d.leases
    ensures DataInv(Discard(d, lease), g)
  {
    var d' := Discard(d, lease);
    DiscardShape(d, g, lease);
    if DiscardFrees(d, lease) {
      D.MemFree(d.slots, d'.slots, d.arena, g, lease);
      forall u | u in d'.locations ensures LocOk(d'.slots, d'.cold, g, d.cfg.gran, u, d'.locations[u]) {
        D.LocFree(d, g, lease, d'.slots, u);
      }
    }
  }

  lemma DiscardGentle(d: Daemon, g: Grants, lease: nat, t: nat)
    requires CoreInv(d, g) && lease in d.leases && d.leases[lease].tensor != t
    ensures Gentle(d, g, Discard(d, lease), t)
  {
    var d' := Discard(d, lease);
    DiscardShape(d, g, lease);
    if DiscardFrees(d, lease) {
      MoveGentle(d, g, d'.(locations := d.locations), lease, Free, t);
    } else {
      SameSlotsGentle(d, g, d'.(locations := d.locations), t);
    }
  }

  /** Discarding a candidate keeps everything that objects rely on. */
  lemma StepDiscard(w: World, lease: nat)
    requires WorldInv(w) && lease in w.d.leases && !ObjTid(w.d.leases[lease].tensor) && w.st.nextObject < CANDIDATE_BIT
    ensures WorldInv(w.(d := Discard(w.d, lease)))
  {
    var d' := Discard(w.d, lease);
    DiscardShape(w.d, w.g, lease);
    DiscardCore(w.d, w.g, lease);
    DiscardData(w.d, w.g, lease);
    KnownWeaker(w.g, w.d.locations, d'.locations, w.st, w.st);
    DiscardObjRuns(w, lease);
    DiscardReaders(w, lease);
  }

  lemma DiscardObjRuns(w: World, lease: nat)
    requires WorldInv(w) && lease in w.d.leases && !ObjTid(w.d.leases[lease].tensor) && w.st.nextObject < CANDIDATE_BIT
    ensures ObjRuns(Discard(w.d, lease), w.g, w.st.objects, w.base)
  {
    forall id | id in w.st.objects
      ensures id in w.base && ObjRun(Discard(w.d, lease), w.g, Tid(id), w.st.objects[id].nbytes,
        w.st.objects[id].lease, w.base[id])
    {
      ObjIdsAreTids(w, id);
      DiscardGentle(w.d, w.g, lease, Tid(id));
      ObjRunGentle(w.d, w.g, Discard(w.d, lease), w.g, Tid(id), w.st.objects[id].nbytes, w.st.objects[id].lease,
        w.base[id]);
    }
  }

  lemma DiscardReaders(w: World, lease: nat)
    requires CoreInv(w.d, w.g) && lease in w.d.leases && !ObjTid(w.d.leases[lease].tensor)
    requires WarmsInv(w.d, w.g, w.st.objects, w.warmers) && HoldsInv(w.d, w.g, w.st.objects, w.holds)
    ensures WarmsInv(Discard(w.d, lease), w.g, w.st.objects, w.warmers)
    ensures HoldsInv(Discard(w.d, lease), w.g, w.st.objects, w.holds)
  {
    DiscardWarms(w, lease);
    DiscardShape(w.d, w.g, lease);
    forall k | k in w.holds ensures w.holds[k].tag in w.g && w.holds[k].tag != lease {
      assert HoldOk(w.d, w.g, w.st.objects, w.holds[k]);
    }
    HoldsFrame(w, Discard(w.d, lease), w.g);
  }

  lemma DiscardWarms(w: World, lease: nat)
    requires CoreInv(w.d, w.g) && lease in w.d.leases && !ObjTid(w.d.leases[lease].tensor)
    requires WarmsInv(w.d, w.g, w.st.objects, w.warmers)
    ensures WarmsInv(Discard(w.d, lease), w.g, w.st.objects, w.warmers)
  {
    DiscardShape(w.d, w.g, lease);
    forall th | th in w.warmers ensures StaysWarm(w, Discard(w.d, lease), w.g, w.warmers[th]) {
      assert WarmOk(w.d, w.g, w.st.objects, w.warmers[th]);
    }
    WarmsFrame(w, Discard(w.d, lease), w.g);
  }

  lemma SameUseReaders(w: World, st': Store)
    requires UseKept(w.st, st') && st'.objects.Keys == w.st.objects.Keys
    requires WarmsInv(w.d, w.g, w.st.objects, w.warmers) && HoldsInv(w.d, w.g, w.st.objects, w.holds)
    ensures WarmsInv(w.d, w.g, st'.objects, w.warmers) && HoldsInv(w.d, w.g, st'.objects, w.holds)
  {
    forall k | k in w.holds ensures HoldOk(w.d, w.g, st'.objects, w.holds[k]) {
      assert HoldOk(w.d, w.g, w.st.objects, w.holds[k]);
    }
    forall th | th in w.warmers ensures WarmOk(w.d, w.g, st'.objects, w.warmers[th]) {
      assert WarmOk(w.d, w.g, w.st.objects, w.warmers[th]);
    }
  }

  lemma SameUseObjRuns(d: Daemon, g: Grants, st: Store, st': Store, base: map<nat, nat>)
    requires UseKept(st, st') && ObjRuns(d, g, st.objects, base)
    ensures ObjRuns(d, g, st'.objects, base)
  {
    forall id | id in st'.objects
      ensures id in base && ObjRun(d, g, Tid(id), st'.objects[id].nbytes, st'.objects[id].lease, base[id])
    {
      assert ObjRun(d, g, Tid(id), st.objects[id].nbytes, st.objects[id].lease, base[id]);
    }
  }

  /** A change of the store that keeps the objects and their use. */
  lemma SameUseStep(w: World, st': Store)
    requires WorldInv(w) && StoreOk(st') && UseKept(w.st, st') && st'.objects.Keys == w.st.objects.Keys
    requires KnownGrows(w.st, st')
    ensures WorldInv(w.(st := st'))
  {
    KnownWeaker(w.g, w.d.locations, w.d.locations, w.st, st');
    SameUseReaders(w, st');
    SameUseObjRuns(w.d, w.g, w.st, st', w.base);
  }

  lemma CommitKeys(st: Store, rank: nat, id: nat, lease: nat, h: Hash, tier: Tier)
    ensures Commit(st, rank, id, lease, h, tier).objects.Keys == st.objects.Keys
  {
  }

  lemma CommitKnown(st: Store, rank: nat, id: nat, lease: nat, h: Hash, tier: Tier)
    ensures KnownGrows(st, Commit(st, rank, id, lease, h, tier))
  {
  }

  lemma CommitUse(st: Store, rank: nat, id: nat, lease: nat, h: Hash, tier: Tier)
    ensures UseKept(st, Commit(st, rank, id, lease, h, tier))
  {
  }

  lemma StepCommit(w: World, rank: nat, id: nat, lease: nat, h: Hash, tier: Tier)
    requires WorldInv(w) && w.st.nextObject < CANDIDATE_BIT
    requires CommitsCandidate(w, rank, id, lease) && lease in w.d.leases ==> !ObjTid(w.d.leases[lease].tensor)
    ensures WorldInv(ApplyCommit(w, rank, id, lease, h, tier))
  {
    var w1 := w;
    if CommitsCandidate(w, rank, id, lease) && lease in w.d.leases {
      StepDiscard(w, lease);
      w1 := w.(d := Discard(w.d, lease));
    }
    CommitOk(w.st, rank, id, lease, h, tier);
    CommitKeys(w.st, rank, id, lease, h, tier);
    CommitKnown(w.st, rank, id, lease, h, tier);
    CommitUse(w.st, rank, id, lease, h, tier);
    SameUseStep(w1, Commit(w.st, rank, id, lease, h, tier));
  }
}

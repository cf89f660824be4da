/**
 What the sections of either machine leave alone, and that the plain sections
 of the slot machine keep everything that ties it to the store.
 */
module HoldFrames {
  import opened SlotTable
  import opened DaemonState
  import opened DaemonInv
  import D = Durability
  import opened CanonicalStore
  import opened StoreInv
  import R = CanonicalRuns
  import opened HoldModel
  import opened HoldSteps
  import opened HoldInv

  // --------------------------------------------- what store sections leave alone

  /** Size, lease and restore count stay, and a finished creation stays finished. */
  ghost predicate SameUse(o: Obj, o': Obj) {
    && o'.nbytes == o.nbytes && o'.lease == o.lease && o'.restores == o.restores
    && (o.state != Creating ==> o'.state != Creating)
  }

  ghost predicate UseKept(st: Store, st': Store) {
    && (forall id | id in st'.objects :: id in st.objects && SameUse(st.objects[id], st'.objects[id]))
    && (forall id | id in st.objects && st.objects[id].restores > 0 :: id in st'.objects)
  }

  lemma DropHoldsUse(st: Store, rank: nat, ids: set<nat>)
    ensures UseKept(st, DropHolds(st, rank, ids))
  {
  }

  lemma PublishUse(c: SealConfig, st: Store, q: SealRequest)
    ensures UseKept(st, Publish(st, c, q))
  {
    var m := Freeze(st, q.vk);
    assert forall id | id in m :: SameUse(st.objects[id], m[id]) && InFlight(m[id]) == InFlight(st.objects[id]);
  }

  lemma EvictUse(st: Store, th: nat, q: EvictRequest, ks: string)
    ensures UseKept(st, Evict(st, th, q, ks))
  {
    DecideFacts(st, q, ks);
  }

  lemma PullBeginUse(st: Store, th: nat, vk: VersionKey, id: nat)
    ensures UseKept(st, PullBegin(st, th, vk, id))
  {
  }

  lemma PullOverUse(st: Store, th: nat)
    ensures UseKept(st, PullFail(st, th)) && UseKept(st, PullEnd(st, th))
  {
  }

  lemma SameObjectsUse(st: Store, st': Store)
    requires st'.objects == st.objects
    ensures UseKept(st, st')
  {
  }

  lemma SealUse(c: SealConfig, st: Store, q: SealRequest, gathered: seq<nat>)
    ensures UseKept(st, Seal(st, c, q, gathered))
  {
    PublishUse(c, st, q);
    SameObjectsUse(st, st);
    SameObjectsUse(st, st.(manifests := st.manifests[q.vk := FailedManifest(st, gathered)]));
  }

  lemma DropVersionUse(st: Store, vk: VersionKey)
    ensures UseKept(st, DropVersion(st, vk))
  {
  }

  lemma TableUse(c: SealConfig, st: Store, a: R.Act)
    requires Ordinary(a)
    ensures UseKept(st, R.Apply(c, st, a))
  {
    SameObjectsUse(st, st);
    match a
    case ARegisterJob(job) => SameObjectsUse(st, RegisterJob(st, job));
    case AArrive(rank) => SameObjectsUse(st, Arrive(st, rank));
    case ADepart(rank) => DropHoldsUse(st, rank, st.objects.Keys);
    case AEvict(th, q, ks) => EvictUse(st, th, q, ks);
    case AFinishCreate(th, reserved, lease) => SameObjectsUse(st, FinishCreate(st, th, false, lease));
    case ARelease(rank, vk, id) => DropHoldsUse(st, rank, ReleaseIds(st, vk, id));
    case APullBegin(th, vk, id) => PullBeginUse(st, th, vk, id);
    case APullFail(th) => PullOverUse(st, th);
    case APullEnd(th) => PullOverUse(st, th);
    case ADropVersion(vk) => DropVersionUse(st, vk);
    case ASeal(q, gathered) => SealUse(c, st, q, gathered);
  }

  // --------------------------------------------------------------- frame lemmas

  lemma ObjIdsAreTids(w: World, id: nat)
    requires StoreOk(w.st) && w.st.nextObject <= CANDIDATE_BIT && id in w.st.objects
    ensures ObjTid(Tid(id))
  {
  }

  /** Ids that were handed out stay so. */
  ghost predicate KnownGrows(st: Store, st': Store) {
    forall id | Known(st, id) :: Known(st', id)
  }

  lemma KnownWeaker(g: Grants, locs: map<nat, Location>, locs': map<nat, Location>, st: Store, st': Store)
    requires KnownInv(g, locs, st) && locs'.Keys <= locs.Keys && KnownGrows(st, st')
    ensures KnownInv(g, locs', st')
  {
  }

  lemma WarmsFrame(w: World, d': Daemon, g': Grants)
    requires WarmsInv(w.d, w.g, w.st.objects, w.warmers)
    requires forall th | th in w.warmers :: StaysWarm(w, d', g', w.warmers[th])
    ensures WarmsInv(d', g', w.st.objects, w.warmers)
  {
    forall th | th in w.warmers ensures WarmOk(d', g', w.st.objects, w.warmers[th]) {
      assert WarmOk(w.d, w.g, w.st.objects, w.warmers[th]);
      WarmSteady(w.d, w.g, d', g', w.st.objects, w.warmers[th]);
    }
  }

  ghost predicate StaysWarm(w: World, d': Daemon, g': Grants, r: Warmer) {
    && r.tag in w.g && r.tag in g' && g'[r.tag] == w.g[r.tag]
    && Steady(w.d.slots, d'.slots, r.tag) && r.tag !in d'.leases && |d'.arena| == |w.d.arena|
    && (forall i | w.g[r.tag].Covers(i) && 0 <= i < |w.d.arena| :: d'.arena[i] == w.d.arena[i])
    && (r.id in w.st.objects ==> Tid(r.id) in d'.locations)
  }

  lemma HoldsFrame(w: World, d': Daemon, g': Grants)
    requires HoldsInv(w.d, w.g, w.st.objects, w.holds)
    requires forall k | k in w.holds ::
      w.holds[k].tag in w.g && w.holds[k].tag in g' && g'[w.holds[k].tag] == w.g[w.holds[k].tag]
      && Steady(w.d.slots, d'.slots, w.holds[k].tag)
    ensures HoldsInv(d', g', w.st.objects, w.holds)
  {
    forall k | k in w.holds ensures HoldOk(d', g', w.st.objects, w.holds[k]) {
      assert HoldOk(w.d, w.g, w.st.objects, w.holds[k]);
      HoldSteady(w.d, w.g, d', g', w.st.objects, w.holds[k]);
    }
  }

  // ------------------------------------------------------ steps of the slot machine

  lemma PlainObjRuns(w: World, a: D.Action)
    requires WorldInv(w) && PlainEnabled(w, a) && w.st.nextObject <= CANDIDATE_BIT
    ensures ObjRuns(PlainStep(w, a).d, PlainStep(w, a).g, w.st.objects, w.base)
  {
    var s := PlainStep(w, a);
    PlainGrants(w, a);
    forall id | id in w.st.objects
      ensures id in w.base && ObjRun(s.d, s.g, Tid(id), w.st.objects[id].nbytes, w.st.objects[id].lease, w.base[id])
    {
      ObjIdsAreTids(w, id);
      PlainGentle(w, a, Tid(id));
      ObjRunGentle(w.d, w.g, s.d, s.g, Tid(id), w.st.objects[id].nbytes, w.st.objects[id].lease, w.base[id]);
    }
  }

  lemma PlainKnown(w: World, a: D.Action)
    requires CoreInv(w.d, w.g) && PlainEnabled(w, a) && KnownInv(w.g, w.d.locations, w.st)
    ensures KnownInv(PlainStep(w, a).g, PlainStep(w, a).d.locations, w.st)
  {
    var s := PlainStep(w, a);
    PlainGrants(w, a);
    forall t | t in s.d.locations && ObjTid(t) ensures LocGentle(w.d, w.g, s.d, t) {
      PlainGentle(w, a, t);
    }
    KnownGentle(w.g, w.d, s.d, s.g, w.st);
  }

  lemma PlainWarm(w: World, a: D.Action, th: nat)
    requires CoreInv(w.d, w.g) && PlainEnabled(w, a) && WarmsInv(w.d, w.g, w.st.objects, w.warmers) && th in w.warmers
    ensures StaysWarm(w, PlainStep(w, a).d, PlainStep(w, a).g, w.warmers[th])
  {
    var r, s := w.warmers[th], PlainStep(w, a);
    assert WarmOk(w.d, w.g, w.st.objects, r);
    WarmIsGuarded(w, th);
    PlainGrants(w, a);
    PlainSteady(w, a, r.tag);
    PlainGentle(w, a, Tid(r.id));
    forall i | w.g[r.tag].Covers(i) && 0 <= i < |w.d.arena|
      ensures |s.d.arena| == |w.d.arena| && s.d.arena[i] == w.d.arena[i]
    {
      PlainArena(w, a, r.tag, i);
    }
    PlainArena(w, a, r.tag, w.g[r.tag].base);
  }

  lemma PlainWarms(w: World, a: D.Action)
    requires CoreInv(w.d, w.g) && PlainEnabled(w, a) && WarmsInv(w.d, w.g, w.st.objects, w.warmers)
    ensures WarmsInv(PlainStep(w, a).d, PlainStep(w, a).g, w.st.objects, w.warmers)
  {
    forall th | th in w.warmers ensures StaysWarm(w, PlainStep(w, a).d, PlainStep(w, a).g, w.warmers[th]) {
      PlainWarm(w, a, th);
    }
    WarmsFrame(w, PlainStep(w, a).d, PlainStep(w, a).g);
  }

  lemma PlainHolds(w: World, a: D.Action)
    requires CoreInv(w.d, w.g) && PlainEnabled(w, a) && HoldsInv(w.d, w.g, w.st.objects, w.holds)
    ensures HoldsInv(PlainStep(w, a).d, PlainStep(w, a).g, w.st.objects, w.holds)
  {
    PlainGrants(w, a);
    forall k | k in w.holds ensures w.holds[k].tag in w.g && Steady(w.d.slots, PlainStep(w, a).d.slots,
      w.holds[k].tag) {
      HeldIsProtected(w, k);
      PlainSteady(w, a, w.holds[k].tag);
    }
    HoldsFrame(w, PlainStep(w, a).d, PlainStep(w, a).g);
  }

  lemma StepPlain(w: World, a: D.Action)
    requires WorldInv(w) && PlainEnabled(w, a) && w.st.nextObject <= CANDIDATE_BIT
    ensures WorldInv(ApplyPlain(w, a))
  {
    PlainAB(w, a);
    PlainCold(w, a);
    PlainKnown(w, a);
    PlainObjRuns(w, a);
    PlainWarms(w, a);
    PlainHolds(w, a);
  }
}

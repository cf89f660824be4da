/**
 What every critical section of the canonical store keeps: holder sets and
 counters, the key index, per-job counts, transfer counts and promoted pointers.
 */
module StoreInv {
  import opened CanonicalKey
  import opened CanonicalStore

  // ------------------------------------------------------------- components

  /** One object: its count, live holders, and the shape of an unfinished creation. */
  ghost predicate ObjOk(o: Obj, alive: set<nat>) {
    && o.refcount == |o.holders| && o.holders <= alive
    && (o.state == Creating ==>
          o.creator.Rank? && o.holders == {o.creator.rank} && o.exports == 0 && o.restores == 0)
  }

  ghost predicate ObjsOk(objects: map<nat, Obj>, alive: set<nat>) {
    forall id | id in objects :: ObjOk(objects[id], alive)
  }

  /** No object is left that nobody holds and nothing reads. */
  ghost predicate AllHeld(objects: map<nat, Obj>) {
    forall id | id in objects :: objects[id].holders != {} || InFlight(objects[id])
  }

  /** Key index and object table are inverse to each other. */
  ghost predicate IndexInv(objects: map<nat, Obj>, byKey: map<string, nat>) {
    && (forall id | id in objects :: objects[id].ks in byKey && byKey[objects[id].ks] == id)
    && (forall ks | ks in byKey :: byKey[ks] in objects && objects[byKey[ks]].ks == ks)
  }

  ghost predicate CountInv(objects: map<nat, Obj>, jobs: map<JobUid, nat>) {
    && (forall id | id in objects :: objects[id].key.job in jobs)
    && (forall j | j in jobs :: jobs[j] == |InJob(objects, objects.Keys, j)|)
  }

  /** Ids are never reused: those in the table and those taken by creations are below the counter. */
  ghost predicate IdsInv(objects: map<nat, Obj>, creates: map<nat, Pending>, jobs: map<JobUid, nat>, next: nat) {
    && (forall id | id in objects :: id < next)
    && (forall th | th in creates ::
          creates[th].id < next && creates[th].id !in objects && creates[th].key.job in jobs)
    && (forall t, u | t in creates && u in creates && t != u :: creates[t].id != creates[u].id)
  }

  function Pulling(pulls: map<nat, nat>, id: nat): set<nat> {
    set th | th in pulls && pulls[th] == id
  }

  /** The export count is the number of pulls in flight, and a pulled object stays in the table. */
  ghost predicate PullsInv(objects: map<nat, Obj>, pulls: map<nat, nat>) {
    && (forall th | th in pulls :: pulls[th] in objects)
    && (forall id | id in objects :: objects[id].exports == |Pulling(pulls, id)|)
    && (forall id | id in objects :: objects[id].exports > 0 ==> objects[id].state != Creating)
  }

  ghost predicate LatestInv(manifests: map<VersionKey, Manifest>, latest: map<RoleKey, nat>) {
    forall rk | rk in latest ::
      var vk := VersionKey(rk.job, rk.role, latest[rk]);
      vk in manifests && manifests[vk].state == ManifestSealed
  }

  ghost predicate StoreOk(st: Store) {
    && ObjsOk(st.objects, st.alive)
    && IndexInv(st.objects, st.byKey)
    && CountInv(st.objects, st.jobs)
    && IdsInv(st.objects, st.creates, st.jobs, st.nextObject)
    && PullsInv(st.objects, st.pulls)
    && LatestInv(st.manifests, st.latest)
  }

  // --------------------------------------------------------- objects updated

  /** Same objects with the same identities. */
  ghost predicate SameKeys(m: map<nat, Obj>, m': map<nat, Obj>) {
    m'.Keys == m.Keys && forall id | id in m :: m'[id].key == m[id].key && m'[id].ks == m[id].ks
  }

  lemma SameKeysIndex(m: map<nat, Obj>, m': map<nat, Obj>, byKey: map<string, nat>)
    requires IndexInv(m, byKey) && SameKeys(m, m')
    ensures IndexInv(m', byKey)
  {
  }

  lemma SameKeysCount(m: map<nat, Obj>, m': map<nat, Obj>, jobs: map<JobUid, nat>)
    requires CountInv(m, jobs) && SameKeys(m, m')
    ensures CountInv(m', jobs)
  {
    forall j | j in jobs ensures InJob(m', m'.Keys, j) == InJob(m, m.Keys, j) {
    }
  }

  lemma SameKeysIds(m: map<nat, Obj>, m': map<nat, Obj>, creates: map<nat, Pending>, jobs: map<JobUid, nat>, n: nat)
    requires IdsInv(m, creates, jobs, n) && SameKeys(m, m')
    ensures IdsInv(m', creates, jobs, n)
  {
  }

  /** Same identities and export counts, and no object goes back to creation. */
  ghost predicate Mild(m: map<nat, Obj>, m': map<nat, Obj>) {
    && SameKeys(m, m')
    && forall id | id in m :: m'[id].exports == m[id].exports && (m'[id].state == Creating ==> m[id].state == Creating)
  }

  lemma SameKeysPulls(m: map<nat, Obj>, m': map<nat, Obj>, pulls: map<nat, nat>)
    requires PullsInv(m, pulls) && Mild(m, m')
    ensures PullsInv(m', pulls)
  {
  }

  lemma ObjsUpdate(m: map<nat, Obj>, alive: set<nat>, id: nat, o: Obj)
    requires ObjsOk(m, alive) && ObjOk(o, alive)
    ensures ObjsOk(m[id := o], alive)
  {
  }

  /** A rewrite of the table that changes no identity keeps everything but the objects themselves. */
  lemma Rewrite(st: Store, m': map<nat, Obj>, pulls': map<nat, nat>)
    requires StoreOk(st) && SameKeys(st.objects, m') && ObjsOk(m', st.alive) && PullsInv(m', pulls')
    ensures StoreOk(st.(objects := m', pulls := pulls'))
  {
    SameKeysIndex(st.objects, m', st.byKey);
    SameKeysCount(st.objects, m', st.jobs);
    SameKeysIds(st.objects, m', st.creates, st.jobs, st.nextObject);
  }

  lemma RewriteMild(st: Store, m': map<nat, Obj>)
    requires StoreOk(st) && Mild(st.objects, m') && ObjsOk(m', st.alive)
    ensures StoreOk(st.(objects := m'))
  {
    SameKeysPulls(st.objects, m', st.pulls);
    Rewrite(st, m', st.pulls);
  }

  /** One object changes without its identity or export count. */
  lemma UpdateOne(st: Store, id: nat, o: Obj)
    requires StoreOk(st) && id in st.objects && ObjOk(o, st.alive)
    requires o.key == st.objects[id].key && o.ks == st.objects[id].ks && o.exports == st.objects[id].exports
    requires o.state == Creating ==> st.objects[id].state == Creating
    ensures StoreOk(st.(objects := st.objects[id := o]))
  {
    ObjsUpdate(st.objects, st.alive, id, o);
    RewriteMild(st, st.objects[id := o]);
  }

  // ---------------------------------------------------------------- removal

  lemma CountRemoved(objects: map<nat, Obj>, ids: set<nat>, j: JobUid)
    ensures |InJob(objects - ids, (objects - ids).Keys, j)|
         == |InJob(objects, objects.Keys, j)| - |InJob(objects, ids, j)|
  {
    assert InJob(objects - ids, (objects - ids).Keys, j) == InJob(objects, objects.Keys, j) - InJob(objects, ids, j);
    assert InJob(objects, ids, j) <= InJob(objects, objects.Keys, j);
  }

  lemma RemoveIndex(m: map<nat, Obj>, byKey: map<string, nat>, ids: set<nat>)
    requires IndexInv(m, byKey)
    ensures IndexInv(m - ids, IndexWithout(byKey, m, ids))
  {
    forall id | id in m - ids ensures m[id].ks !in KeysOf(m, ids) {
    }
    forall ks | ks in byKey && ks !in KeysOf(m, ids) ensures byKey[ks] in m - ids {
      assert m[byKey[ks]].ks == ks;
    }
  }

  lemma RemoveCount(m: map<nat, Obj>, jobs: map<JobUid, nat>, ids: set<nat>)
    requires CountInv(m, jobs)
    ensures CountInv(m - ids, CountsWithout(jobs, m, ids))
  {
    forall j | j in jobs ensures CountsWithout(jobs, m, ids)[j] == |InJob(m - ids, (m - ids).Keys, j)| {
      CountRemoved(m, ids, j);
    }
  }

  lemma RemovePulls(m: map<nat, Obj>, pulls: map<nat, nat>, ids: set<nat>)
    requires PullsInv(m, pulls) && forall id | id in ids && id in m :: m[id].exports == 0
    ensures PullsInv(m - ids, pulls)
  {
    forall th | th in pulls ensures pulls[th] !in ids {
      assert th in Pulling(pulls, pulls[th]);
    }
  }

  /** Erasing objects that nothing exports keeps everything. */
  lemma RemoveOk(st: Store, ids: set<nat>)
    requires StoreOk(st) && forall id | id in ids && id in st.objects :: st.objects[id].exports == 0
    ensures StoreOk(Remove(st, ids))
  {
    RemoveIndex(st.objects, st.byKey, ids);
    RemoveCount(st.objects, st.jobs, ids);
    RemovePulls(st.objects, st.pulls, ids);
  }

  /** The table after `rank` left the objects `ids`, before the empty ones are erased. */
  function Left(m: map<nat, Obj>, rank: nat, ids: set<nat>): map<nat, Obj> {
    map id | id in m :: if id in ids && rank in m[id].holders then Unheld(m[id], rank) else m[id]
  }

  /** Leaving breaks an unfinished creation, but only one that is then erased. */
  lemma LeftObjs(st: Store, rank: nat, ids: set<nat>)
    requires ObjsOk(st.objects, st.alive)
    ensures ObjsOk(Left(st.objects, rank, ids) - Freed(st, rank, ids), st.alive)
  {
    var m := Left(st.objects, rank, ids);
    forall id | id in m && id !in Freed(st, rank, ids) ensures ObjOk(m[id], st.alive) {
      assert ObjOk(st.objects[id], st.alive);
    }
  }

  lemma LeftHeld(st: Store, rank: nat, ids: set<nat>)
    requires AllHeld(st.objects)
    ensures AllHeld(Left(st.objects, rank, ids) - Freed(st, rank, ids))
  {
    var m := Left(st.objects, rank, ids);
    forall id | id in m && id !in Freed(st, rank, ids) ensures m[id].holders != {} || InFlight(m[id]) {
      if rank in st.objects[id].holders && m[id].holders == {} && m[id] != st.objects[id] {
        assert st.objects[id].holders == {rank};
      }
    }
  }

  lemma DropHoldsIs(st: Store, rank: nat, ids: set<nat>)
    ensures DropHolds(st, rank, ids) == Remove(st.(objects := Left(st.objects, rank, ids)), Freed(st, rank, ids))
    ensures SameKeys(st.objects, Left(st.objects, rank, ids))
  {
  }

  lemma DropHoldsIndex(st: Store, rank: nat, ids: set<nat>)
    requires IndexInv(st.objects, st.byKey)
    ensures IndexInv(DropHolds(st, rank, ids).objects, DropHolds(st, rank, ids).byKey)
  {
    DropHoldsIs(st, rank, ids);
    var m := Left(st.objects, rank, ids);
    SameKeysIndex(st.objects, m, st.byKey);
    RemoveIndex(m, st.byKey, Freed(st, rank, ids));
  }

  lemma DropHoldsCount(st: Store, rank: nat, ids: set<nat>)
    requires CountInv(st.objects, st.jobs)
    ensures CountInv(DropHolds(st, rank, ids).objects, DropHolds(st, rank, ids).jobs)
  {
    DropHoldsIs(st, rank, ids);
    var m := Left(st.objects, rank, ids);
    SameKeysCount(st.objects, m, st.jobs);
    RemoveCount(m, st.jobs, Freed(st, rank, ids));
  }

  lemma DropHoldsIds(st: Store, rank: nat, ids: set<nat>)
    requires IdsInv(st.objects, st.creates, st.jobs, st.nextObject)
    ensures IdsInv(DropHolds(st, rank, ids).objects, st.creates, DropHolds(st, rank, ids).jobs, st.nextObject)
  {
  }

  lemma DropHoldsPulls(st: Store, rank: nat, ids: set<nat>)
    requires PullsInv(st.objects, st.pulls)
    ensures PullsInv(DropHolds(st, rank, ids).objects, st.pulls)
  {
    DropHoldsIs(st, rank, ids);
    var m := Left(st.objects, rank, ids);
    SameKeysPulls(st.objects, m, st.pulls);
    RemovePulls(m, st.pulls, Freed(st, rank, ids));
  }

  lemma DropHoldsOk(st: Store, rank: nat, ids: set<nat>)
    requires StoreOk(st)
    ensures StoreOk(DropHolds(st, rank, ids))
  {
    DropHoldsIndex(st, rank, ids);
    DropHoldsCount(st, rank, ids);
    DropHoldsIds(st, rank, ids);
    DropHoldsPulls(st, rank, ids);
    LeftObjs(st, rank, ids);
    DropHoldsIs(st, rank, ids);
  }

  lemma DropHoldsHeld(st: Store, rank: nat, ids: set<nat>)
    requires AllHeld(st.objects)
    ensures AllHeld(DropHolds(st, rank, ids).objects)
  {
    LeftHeld(st, rank, ids);
    DropHoldsIs(st, rank, ids);
  }

  lemma MaybeFreeOk(st: Store, id: nat)
    requires StoreOk(st)
    ensures StoreOk(MaybeFree(st, id))
  {
    if id in st.objects && st.objects[id].holders == {} && !InFlight(st.objects[id]) {
      RemoveOk(st, {id});
    }
  }

  // ------------------------------------------------------------------- steps

  lemma RegisterJobOk(st: Store, job: JobUid)
    requires StoreOk(st)
    ensures StoreOk(RegisterJob(st, job))
  {
    if job !in st.jobs {
      assert InJob(st.objects, st.objects.Keys, job) == {};
    }
  }

  lemma ArriveOk(st: Store, rank: nat)
    requires StoreOk(st)
    ensures StoreOk(Arrive(st, rank))
  {
  }

  lemma DepartObjs(st: Store, rank: nat)
    requires ObjsOk(st.objects, st.alive)
    ensures ObjsOk(Depart(st, rank).objects, Depart(st, rank).alive)
  {
    LeftObjs(st, rank, st.objects.Keys);
    DropHoldsIs(st, rank, st.objects.Keys);
    var r := Depart(st, rank);
    forall id | id in r.objects ensures ObjOk(r.objects[id], r.alive) {
      assert ObjOk((Left(st.objects, rank, st.objects.Keys) - Freed(st, rank, st.objects.Keys))[id], st.alive);
    }
  }

  lemma DepartOk(st: Store, rank: nat)
    requires StoreOk(st)
    ensures StoreOk(Depart(st, rank))
  {
    DropHoldsOk(st, rank, st.objects.Keys);
    DepartObjs(st, rank);
  }

  lemma AttachOk(st: Store, rank: nat, id: nat)
    requires StoreOk(st) && id in st.objects && rank in st.alive && st.objects[id].state != Creating
    ensures StoreOk(Attach(st, rank, id))
  {
    UpdateOne(st, id, Attach(st, rank, id).objects[id]);
  }

  lemma DecideFacts(st: Store, q: EvictRequest, ks: string)
    ensures match Decide(st, q, ks)
      case AttachTo(id) => id in st.objects && st.objects[id].state != Creating && q.rank in st.alive
      case Create => q.key.job in st.jobs && !(ks in st.byKey && st.byKey[ks] in st.objects)
      case _ => true
  {
  }

  lemma EvictOk(st: Store, th: nat, q: EvictRequest, ks: string)
    requires StoreOk(st)
    ensures StoreOk(Evict(st, th, q, ks))
  {
    DecideFacts(st, q, ks);
    if th !in st.creates {
      match Decide(st, q, ks)
      case AttachTo(id) => AttachOk(st, q.rank, id);
      case Create =>
        TakeId(st.objects, st.creates, st.jobs, st.nextObject, th, Pending(st.nextObject, q.rank, q.key, ks));
      case Candidate(id) => TakeNoId(st.objects, st.creates, st.jobs, st.nextObject);
      case Refuse =>
      case WaitFor(id) =>
    }
  }

  lemma TakeId(m: map<nat, Obj>, creates: map<nat, Pending>, jobs: map<JobUid, nat>, n: nat, th: nat, p: Pending)
    requires IdsInv(m, creates, jobs, n) && p.id == n && p.key.job in jobs
    ensures IdsInv(m, creates[th := p], jobs, n + 1)
  {
  }

  lemma TakeNoId(m: map<nat, Obj>, creates: map<nat, Pending>, jobs: map<JobUid, nat>, n: nat)
    requires IdsInv(m, creates, jobs, n)
    ensures IdsInv(m, creates, jobs, n + 1)
  {
  }

  lemma AddIndex(m: map<nat, Obj>, byKey: map<string, nat>, id: nat, o: Obj)
    requires IndexInv(m, byKey) && id !in m
    ensures IndexInv(m[id := o], byKey[o.ks := id]) <==> o.ks !in byKey
  {
    if o.ks in byKey {
      var old_ := byKey[o.ks];
      assert m[id := o][old_].ks == o.ks;
    }
  }

  lemma AddInJob(m: map<nat, Obj>, id: nat, o: Obj, j: JobUid)
    requires id !in m
    ensures |InJob(m[id := o], m[id := o].Keys, j)| == |InJob(m, m.Keys, j)| + if j == o.key.job then 1 else 0
  {
    var was, is_ := InJob(m, m.Keys, j), InJob(m[id := o], m[id := o].Keys, j);
    assert is_ == if j == o.key.job then was + {id} else was;
  }

  lemma AddCount(m: map<nat, Obj>, jobs: map<JobUid, nat>, id: nat, o: Obj)
    requires CountInv(m, jobs) && id !in m && o.key.job in jobs
    ensures CountInv(m[id := o], jobs[o.key.job := jobs[o.key.job] + 1])
  {
    var jobs' := jobs[o.key.job := jobs[o.key.job] + 1];
    forall j | j in jobs' ensures jobs'[j] == |InJob(m[id := o], m[id := o].Keys, j)| {
      AddInJob(m, id, o, j);
    }
  }

  lemma AddPulls(m: map<nat, Obj>, pulls: map<nat, nat>, id: nat, o: Obj)
    requires PullsInv(m, pulls) && id !in m && o.exports == 0
    ensures PullsInv(m[id := o], pulls)
  {
    assert Pulling(pulls, id) == {};
  }

  lemma AddIds(m: map<nat, Obj>, creates: map<nat, Pending>, jobs: map<JobUid, nat>, n: nat, th: nat, o: Obj, c: nat)
    requires IdsInv(m, creates, jobs, n) && th in creates
    ensures IdsInv(m[creates[th].id := o], creates - {th}, jobs[o.key.job := c], n)
  {
  }

  /** Everything that mentions the new object, each part on its own. */
  lemma AddParts(st: Store, p: Pending, o: Obj)
    requires StoreOk(st) && p.id !in st.objects && p.key.job in st.jobs && p.ks !in st.byKey
    requires o.key == p.key && o.ks == p.ks && o.exports == 0 && ObjOk(o, st.alive)
    ensures IndexInv(st.objects[p.id := o], st.byKey[p.ks := p.id])
    ensures CountInv(st.objects[p.id := o], st.jobs[p.key.job := st.jobs[p.key.job] + 1])
    ensures PullsInv(st.objects[p.id := o], st.pulls) && ObjsOk(st.objects[p.id := o], st.alive)
  {
    AddIndex(st.objects, st.byKey, p.id, o);
    AddCount(st.objects, st.jobs, p.id, o);
    AddPulls(st.objects, st.pulls, p.id, o);
    ObjsUpdate(st.objects, st.alive, p.id, o);
  }

  lemma NewObjectOk(p: Pending, lease: nat, alive: set<nat>)
    requires p.rank in alive
    ensures ObjOk(NewObject(p, lease), alive)
  {
  }

  lemma AddOk(st: Store, th: nat, lease: nat)
    requires StoreOk(st) && th in st.creates && st.creates[th].rank in st.alive && st.creates[th].ks !in st.byKey
    ensures StoreOk(FinishCreate(st, th, true, lease))
  {
    var p := st.creates[th];
    var o := NewObject(p, lease);
    NewObjectOk(p, lease, st.alive);
    AddParts(st, p, o);
    AddIds(st.objects, st.creates, st.jobs, st.nextObject, th, o, st.jobs[p.key.job] + 1);
  }

  /** A creation that finds its key still free, and its rank still alive, keeps everything. */
  lemma FinishCreateOk(st: Store, th: nat, reserved: bool, lease: nat)
    requires StoreOk(st)
    requires th in st.creates && reserved ==> st.creates[th].rank in st.alive && st.creates[th].ks !in st.byKey
    ensures StoreOk(FinishCreate(st, th, reserved, lease))
  {
    if th in st.creates {
      if reserved {
        AddOk(st, th, lease);
      } else {
        DropPending(st.objects, st.creates, st.jobs, st.nextObject, th);
      }
    }
  }

  lemma DropPending(m: map<nat, Obj>, creates: map<nat, Pending>, jobs: map<JobUid, nat>, n: nat, th: nat)
    requires IdsInv(m, creates, jobs, n)
    ensures IdsInv(m, creates - {th}, jobs, n)
  {
  }

  lemma CommittedOk(o: Obj, rank: nat, lease: nat, h: Hash, tier: Tier, alive: set<nat>)
    requires ObjOk(o, alive) && rank in alive
    ensures var o' := Committed(o, rank, lease, h, tier);
      && ObjOk(o', alive) && o'.key == o.key && o'.ks == o.ks && o'.exports == o.exports
      && (o'.state == Creating ==> o.state == Creating)
  {
  }

  lemma CommitOk(st: Store, rank: nat, id: nat, lease: nat, h: Hash, tier: Tier)
    requires StoreOk(st)
    ensures StoreOk(Commit(st, rank, id, lease, h, tier))
  {
    if rank in st.alive && id in st.objects {
      CommittedOk(st.objects[id], rank, lease, h, tier, st.alive);
      UpdateOne(st, id, Committed(st.objects[id], rank, lease, h, tier));
    }
  }

  /** A thread starts or stops pulling `id`, and the export count follows. */
  lemma PullsChange(st: Store, id: nat, o: Obj, pulls: map<nat, nat>)
    requires StoreOk(st) && id in st.objects && ObjOk(o, st.alive) && o.state != Creating
    requires o.key == st.objects[id].key && o.ks == st.objects[id].ks && o.exports == |Pulling(pulls, id)|
    requires forall th | th in pulls :: pulls[th] in st.objects
    requires forall i | i in st.objects && i != id :: Pulling(pulls, i) == Pulling(st.pulls, i)
    ensures StoreOk(st.(objects := st.objects[id := o], pulls := pulls))
  {
    ObjsUpdate(st.objects, st.alive, id, o);
    PullsFollow(st.objects, st.pulls, id, o, pulls);
    Rewrite(st, st.objects[id := o], pulls);
  }

  lemma PullsFollow(m: map<nat, Obj>, pulls: map<nat, nat>, id: nat, o: Obj, pulls': map<nat, nat>)
    requires PullsInv(m, pulls) && id in m && o.state != Creating && o.exports == |Pulling(pulls', id)|
    requires forall th | th in pulls' :: pulls'[th] in m
    requires forall i | i in m && i != id :: Pulling(pulls', i) == Pulling(pulls, i)
    ensures PullsInv(m[id := o], pulls')
  {
  }

  lemma OnePullMore(m: map<nat, Obj>, pulls: map<nat, nat>, th: nat, id: nat)
    requires PullsInv(m, pulls) && th !in pulls && id in m
    ensures |Pulling(pulls[th := id], id)| == m[id].exports + 1
    ensures forall i | i != id :: Pulling(pulls[th := id], i) == Pulling(pulls, i)
    ensures var p := pulls[th := id]; forall t | t in p :: p[t] in m
  {
    assert Pulling(pulls[th := id], id) == Pulling(pulls, id) + {th};
  }

  lemma PullBeginOk(st: Store, th: nat, vk: VersionKey, id: nat)
    requires StoreOk(st)
    ensures StoreOk(PullBegin(st, th, vk, id))
  {
    if th !in st.pulls && CanPull(st, vk, id) {
      var r := PullBegin(st, th, vk, id);
      assert ObjOk(st.objects[id], st.alive);
      OnePullMore(st.objects, st.pulls, th, id);
      PullsChange(st, id, r.objects[id], r.pulls);
    }
  }

  lemma OnePullLess(st: Store, th: nat)
    requires PullsInv(st.objects, st.pulls) && th in st.pulls
    ensures var id := st.pulls[th];
      && id in st.objects && st.objects[id].exports >= 1 && st.objects[id].state != Creating
      && |Pulling(st.pulls - {th}, id)| == st.objects[id].exports - 1
      && forall i | i != id :: Pulling(st.pulls - {th}, i) == Pulling(st.pulls, i)
  {
    var id := st.pulls[th];
    assert th in Pulling(st.pulls, id);
    assert Pulling(st.pulls - {th}, id) == Pulling(st.pulls, id) - {th};
  }

  lemma PullFailOk(st: Store, th: nat)
    requires StoreOk(st)
    ensures StoreOk(PullFail(st, th))
  {
    if th in st.pulls {
      OnePullLess(st, th);
      var id := st.pulls[th];
      assert ObjOk(st.objects[id], st.alive);
      PullsChange(st, id, PullFail(st, th).objects[id], st.pulls - {th});
    }
  }

  lemma PullEndOk(st: Store, th: nat)
    requires StoreOk(st)
    ensures StoreOk(PullEnd(st, th))
  {
    if th in st.pulls {
      OnePullLess(st, th);
      var id := st.pulls[th];
      assert ObjOk(st.objects[id], st.alive);
      var o := Unexported(st.objects[id]);
      PullsChange(st, id, o, st.pulls - {th});
      MaybeFreeOk(st.(objects := st.objects[id := o], pulls := st.pulls - {th}), id);
    }
  }

  lemma RestoreGrantOk(st: Store, id: nat, warmed: bool)
    requires StoreOk(st)
    ensures StoreOk(RestoreGrant(st, id, warmed))
  {
    if id in st.objects && st.objects[id].state != Creating {
      assert ObjOk(st.objects[id], st.alive);
      UpdateOne(st, id, RestoreGrant(st, id, warmed).objects[id]);
    }
  }

  lemma RestoreReleaseOk(st: Store, id: nat)
    requires StoreOk(st)
    ensures StoreOk(RestoreRelease(st, id))
  {
    if id in st.objects {
      var o := st.objects[id];
      assert ObjOk(o, st.alive);
      var o' := o.(restores := Monus(o.restores, 1));
      UpdateOne(st, id, o');
      MaybeFreeOk(st.(objects := st.objects[id := o']), id);
    }
  }

  lemma DropVersionOk(st: Store, vk: VersionKey)
    requires StoreOk(st)
    ensures StoreOk(DropVersion(st, vk))
  {
    if vk.job in st.jobs {
      RemoveOk(st, Idle(st, vk));
      LatestDropped(st, vk);
    }
  }

  lemma LatestDropped(st: Store, vk: VersionKey)
    requires LatestInv(st.manifests, st.latest)
    ensures LatestInv(DropVersion(st, vk).manifests, DropVersion(st, vk).latest)
  {
  }

  lemma RetainOk(st: Store, rk: RoleKey, keep: nat)
    requires StoreOk(st) && rk in st.latest
    ensures StoreOk(Retain(st, rk, keep))
  {
    if keep > 0 {
      RemoveOk(st, IdleOf(st, rk, Outdated(st, rk, keep)));
      LatestRetained(st, rk, keep);
    }
  }

  /** The promoted version is never among the outdated ones. */
  lemma LatestRetained(st: Store, rk: RoleKey, keep: nat)
    requires LatestInv(st.manifests, st.latest) && rk in st.latest
    ensures LatestInv(Retain(st, rk, keep).manifests, st.latest)
  {
    var r := Retain(st, rk, keep);
    forall k | k in st.latest
      ensures VersionKey(k.job, k.role, st.latest[k]) in r.manifests
    {
      if k.job == rk.job && k.role == rk.role {
        assert k == rk;
      }
    }
  }

  lemma FreezeObjs(st: Store, vk: VersionKey)
    requires ObjsOk(st.objects, st.alive)
    ensures ObjsOk(Freeze(st, vk), st.alive) && Mild(st.objects, Freeze(st, vk))
  {
    forall id | id in st.objects ensures ObjOk(Freeze(st, vk)[id], st.alive) {
      assert ObjOk(st.objects[id], st.alive);
    }
  }

  lemma FreezeOk(st: Store, vk: VersionKey)
    requires StoreOk(st)
    ensures StoreOk(st.(objects := Freeze(st, vk)))
  {
    FreezeObjs(st, vk);
    RewriteMild(st, Freeze(st, vk));
  }

  lemma PublishOk(st: Store, c: SealConfig, q: SealRequest)
    requires StoreOk(st)
    ensures StoreOk(Publish(st, c, q))
  {
    FreezeOk(st, q.vk);
    var rk := RoleKey(q.vk.job, q.vk.role);
    var st0 := st.(objects := Freeze(st, q.vk));
    var man := SealedManifest(st, c, q.vk);
    RecordOk(st0, q.vk, man);
    if q.promote {
      var st1 := st0.(manifests := st.manifests[q.vk := man], latest := st.latest[rk := q.vk.version]);
      RetainOk(st1, rk, c.keep);
    }
  }

  /** Recording a sealed manifest, and pointing at it, keeps the pointers good. */
  lemma RecordOk(st: Store, vk: VersionKey, man: Manifest)
    requires StoreOk(st) && man.state == ManifestSealed
    ensures StoreOk(st.(manifests := st.manifests[vk := man]))
    ensures StoreOk(st.(manifests := st.manifests[vk := man],
                        latest := st.latest[RoleKey(vk.job, vk.role) := vk.version]))
  {
  }

  lemma SealOk(st: Store, c: SealConfig, q: SealRequest, gathered: seq<nat>)
    requires StoreOk(st)
    ensures StoreOk(Seal(st, c, q, gathered))
  {
    if q.vk.job in st.jobs && !SealedIn(st, q.vk) {
      if SealFails(st, c, q) {
        FailOk(st, q.vk, FailedManifest(st, gathered));
      } else {
        PublishOk(st, c, q);
      }
    }
  }

  lemma FailOk(st: Store, vk: VersionKey, man: Manifest)
    requires StoreOk(st) && !SealedIn(st, vk)
    ensures StoreOk(st.(manifests := st.manifests[vk := man]))
  {
  }
}

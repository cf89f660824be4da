/**
 Whole runs of the canonical store, over every interleaving of its critical
 sections, and what they guarantee about holders, identities, sealed manifests
 and retention.
 */
module CanonicalRuns {
  import opened CanonicalKey
  import opened CanonicalStore
  import opened StoreInv

  datatype Act =
    | ARegisterJob(job: JobUid)
    | AArrive(rank: nat)
    | ADepart(rank: nat)
    | AEvict(th: nat, q: EvictRequest, ks: string)
    | AFinishCreate(th: nat, reserved: bool, lease: nat)
    | ACommit(rank: nat, id: nat, lease: nat, h: Hash, tier: Tier)
    | ARelease(rank: nat, vk: VersionKey, id: nat)
    | APullBegin(th: nat, vk: VersionKey, id: nat)
    | APullFail(th: nat)
    | APullEnd(th: nat)
    | AGrant(id: nat, warmed: bool)
    | ARestoreRelease(id: nat)
    | ADropVersion(vk: VersionKey)
    | ASeal(sq: SealRequest, gathered: seq<nat>)

  ghost function Apply(c: SealConfig, st: Store, a: Act): Store {
    match a
    case ARegisterJob(job) => RegisterJob(st, job)
    case AArrive(rank) => Arrive(st, rank)
    case ADepart(rank) => Depart(st, rank)
    case AEvict(th, q, ks) => Evict(st, th, q, ks)
    case AFinishCreate(th, reserved, lease) => FinishCreate(st, th, reserved, lease)
    case ACommit(rank, id, lease, h, tier) => Commit(st, rank, id, lease, h, tier)
    case ARelease(rank, vk, id) => ReleaseCanonical(st, rank, vk, id)
    case APullBegin(th, vk, id) => PullBegin(st, th, vk, id)
    case APullFail(th) => PullFail(st, th)
    case APullEnd(th) => PullEnd(st, th)
    case AGrant(id, warmed) => RestoreGrant(st, id, warmed)
    case ARestoreRelease(id) => RestoreRelease(st, id)
    case ADropVersion(vk) => DropVersion(st, vk)
    case ASeal(q, gathered) => Seal(st, c, q, gathered)
  }

  /**
   An evict uses the key's own string. A creation whose reservation released the mutex is taken to
   find its rank alive and its key free when it has the mutex again: the code does not look.
   */
  ghost predicate Enabled(st: Store, a: Act) {
    match a
    case AEvict(th, q, ks) => ks == KeyString(q.key)
    case AFinishCreate(th, reserved, lease) =>
      th in st.creates && reserved ==> st.creates[th].rank in st.alive && st.creates[th].ks !in st.byKey
    case _ => true
  }

  ghost predicate Init(st: Store) {
    && st.objects == map[] && st.byKey == map[] && st.jobs == map[] && st.manifests == map[]
    && st.latest == map[] && st.alive == {} && st.creates == map[] && st.pulls == map[]
  }

  ghost predicate StepAt(c: SealConfig, tr: seq<Store>, acts: seq<Act>, i: nat)
    requires i < |acts| && |tr| == |acts| + 1
  {
    Enabled(tr[i], acts[i]) && tr[i + 1] == Apply(c, tr[i], acts[i])
  }

  ghost predicate Run(c: SealConfig, tr: seq<Store>, acts: seq<Act>) {
    && |tr| == |acts| + 1 && Init(tr[0])
    && forall i: nat | i < |acts| :: StepAt(c, tr, acts, i)
  }

  // ---------------------------------------------------------------- holders

  lemma StepOk(c: SealConfig, st: Store, a: Act)
    requires StoreOk(st) && Enabled(st, a)
    ensures StoreOk(Apply(c, st, a))
  {
    match a
    case ARegisterJob(job) => RegisterJobOk(st, job);
    case AArrive(rank) => ArriveOk(st, rank);
    case ADepart(rank) => DepartOk(st, rank);
    case AEvict(th, q, ks) => EvictOk(st, th, q, ks);
    case AFinishCreate(th, reserved, lease) => FinishCreateOk(st, th, reserved, lease);
    case ACommit(rank, id, lease, h, tier) => CommitOk(st, rank, id, lease, h, tier);
    case ARelease(rank, vk, id) => DropHoldsOk(st, rank, ReleaseIds(st, vk, id));
    case APullBegin(th, vk, id) => PullBeginOk(st, th, vk, id);
    case APullFail(th) => PullFailOk(st, th);
    case APullEnd(th) => PullEndOk(st, th);
    case AGrant(id, warmed) => RestoreGrantOk(st, id, warmed);
    case ARestoreRelease(id) => RestoreReleaseOk(st, id);
    case ADropVersion(vk) => DropVersionOk(st, vk);
    case ASeal(q, gathered) => SealOk(st, c, q, gathered);
  }

  lemma InitOk(st: Store)
    requires Init(st)
    ensures StoreOk(st)
  {
  }

  lemma OkNext(c: SealConfig, tr: seq<Store>, acts: seq<Act>, n: nat)
    requires Run(c, tr, acts) && n < |acts| && StoreOk(tr[n])
    ensures StoreOk(tr[n + 1])
  {
    assert StepAt(c, tr, acts, n);
    StepOk(c, tr[n], acts[n]);
  }

  /** Every state of every run: counts, live holders, index, job counts, transfer counts, pointers. */
  lemma {:induction false} RunOk(c: SealConfig, tr: seq<Store>, acts: seq<Act>, n: nat)
    requires Run(c, tr, acts) && n < |tr|
    ensures StoreOk(tr[n])
  {
    if n == 0 {
      InitOk(tr[0]);
    } else {
      RunOk(c, tr, acts, n - 1);
      OkNext(c, tr, acts, n - 1);
    }
  }

  /** A failed staging that gives up the last hold on an object. */
  ghost predicate LeavesOrphan(st: Store, a: Act) {
    && a.APullFail? && a.th in st.pulls && st.pulls[a.th] in st.objects
    && var o := st.objects[st.pulls[a.th]];
    o.holders == {} && o.exports == 1 && o.restores == 0
  }

  lemma PullFailHeld(st: Store, th: nat)
    requires StoreOk(st) && AllHeld(st.objects)
    ensures AllHeld(PullFail(st, th).objects) <==> !LeavesOrphan(st, APullFail(th))
  {
    if th in st.pulls {
      OnePullLess(st, th);
      var id := st.pulls[th];
      var o := PullFail(st, th).objects[id];
      assert AllHeld(PullFail(st, th).objects) ==> o.holders != {} || InFlight(o);
    }
  }

  lemma UpdateHeld(m: map<nat, Obj>, id: nat, o: Obj)
    requires AllHeld(m) && (o.holders != {} || InFlight(o))
    ensures AllHeld(m[id := o])
  {
  }

  lemma MaybeFreeHeld(st: Store, m: map<nat, Obj>, id: nat)
    requires AllHeld(m) && id in m && id in st.objects && st.objects == m[id := st.objects[id]]
    ensures AllHeld(MaybeFree(st, id).objects)
  {
  }

  lemma ReleasesHeld(st: Store, a: Act)
    requires StoreOk(st) && AllHeld(st.objects) && (a.APullEnd? || a.ARestoreRelease?)
    ensures a.APullEnd? ==> AllHeld(PullEnd(st, a.th).objects)
    ensures a.ARestoreRelease? ==> AllHeld(RestoreRelease(st, a.id).objects)
  {
    if a.APullEnd? && a.th in st.pulls && st.pulls[a.th] in st.objects {
      var id := st.pulls[a.th];
      MaybeFreeHeld(st.(objects := st.objects[id := Unexported(st.objects[id])], pulls := st.pulls - {a.th}),
        st.objects, id);
    } else if a.ARestoreRelease? && a.id in st.objects {
      var o := st.objects[a.id];
      MaybeFreeHeld(st.(objects := st.objects[a.id := o.(restores := Monus(o.restores, 1))]), st.objects, a.id);
    }
  }

  lemma SealHeld(c: SealConfig, st: Store, q: SealRequest, gathered: seq<nat>)
    requires AllHeld(st.objects)
    ensures AllHeld(Seal(st, c, q, gathered).objects)
  {
    assert AllHeld(Freeze(st, q.vk));
  }

  lemma CreateHeld(st: Store, th: nat, reserved: bool, lease: nat)
    requires AllHeld(st.objects)
    ensures AllHeld(FinishCreate(st, th, reserved, lease).objects)
  {
  }

  lemma EvictHeld(st: Store, th: nat, q: EvictRequest, ks: string)
    requires AllHeld(st.objects)
    ensures AllHeld(Evict(st, th, q, ks).objects)
  {
    DecideFacts(st, q, ks);
  }

  lemma JoinsHeld(c: SealConfig, st: Store, a: Act)
    requires AllHeld(st.objects) && (a.ACommit? || a.APullBegin? || a.AGrant?)
    ensures AllHeld(Apply(c, st, a).objects)
  {
    match a
    case ACommit(rank, id, lease, h, tier) => CommitHeld(st, rank, id, lease, h, tier);
    case APullBegin(th, vk, id) =>
    case AGrant(id, warmed) =>
  }

  lemma CommitHeld(st: Store, rank: nat, id: nat, lease: nat, h: Hash, tier: Tier)
    requires AllHeld(st.objects)
    ensures AllHeld(Commit(st, rank, id, lease, h, tier).objects)
  {
    if rank in st.alive && id in st.objects {
      UpdateHeld(st.objects, id, Commit(st, rank, id, lease, h, tier).objects[id]);
    }
  }

  /** A step leaves an object that nobody holds and nothing reads exactly if it is such a failed staging. */
  lemma HeldStep(c: SealConfig, st: Store, a: Act)
    requires StoreOk(st) && AllHeld(st.objects)
    ensures AllHeld(Apply(c, st, a).objects) <==> !LeavesOrphan(st, a)
  {
    if a.APullFail? {
      PullFailHeld(st, a.th);
    } else if a.ADepart? {
      DropHoldsHeld(st, a.rank, st.objects.Keys);
    } else if a.ARelease? {
      DropHoldsHeld(st, a.rank, ReleaseIds(st, a.vk, a.id));
    } else if a.APullEnd? || a.ARestoreRelease? {
      ReleasesHeld(st, a);
    } else if a.ASeal? {
      SealHeld(c, st, a.sq, a.gathered);
    } else if a.AEvict? {
      EvictHeld(st, a.th, a.q, a.ks);
    } else if a.AFinishCreate? {
      CreateHeld(st, a.th, a.reserved, a.lease);
    } else if a.ACommit? || a.APullBegin? || a.AGrant? {
      JoinsHeld(c, st, a);
    }
  }

  /** No reachable object is without a holder and without a transfer, failed stagings of the last hold aside. */
  lemma {:induction false} NoOrphans(c: SealConfig, tr: seq<Store>, acts: seq<Act>, n: nat)
    requires Run(c, tr, acts) && n < |tr|
    requires forall i | 0 <= i < n :: !LeavesOrphan(tr[i], acts[i])
    ensures AllHeld(tr[n].objects)
  {
    if n > 0 {
      NoOrphans(c, tr, acts, n - 1);
      HeldNext(c, tr, acts, n - 1);
    }
  }

  lemma HeldNext(c: SealConfig, tr: seq<Store>, acts: seq<Act>, n: nat)
    requires Run(c, tr, acts) && n < |acts| && AllHeld(tr[n].objects) && !LeavesOrphan(tr[n], acts[n])
    ensures AllHeld(tr[n + 1].objects)
  {
    RunOk(c, tr, acts, n);
    assert StepAt(c, tr, acts, n);
    HeldStep(c, tr[n], acts[n]);
  }

  /** A creator that dies takes its unfinished object along ... */
  lemma DeadCreatorIsFreed(st: Store, rank: nat, id: nat)
    requires StoreOk(st) && id in st.objects && st.objects[id].state == Creating && st.objects[id].creator == Rank(rank)
    ensures id !in Depart(st, rank).objects && st.objects[id].ks !in Depart(st, rank).byKey
  {
    assert ObjOk(st.objects[id], st.alive);
    var m, freed := Left(st.objects, rank, st.objects.Keys), Freed(st, rank, st.objects.Keys);
    DropHoldsIs(st, rank, st.objects.Keys);
    assert id in freed && id in m && m[id].ks == st.objects[id].ks;
    assert st.objects[id].ks in KeysOf(m, freed);
  }

  /** ... so the key is free and the next rank that asks for it creates it, instead of waiting. */
  lemma DeadCreatorFreesKey(st: Store, rank: nat, id: nat, q: EvictRequest)
    requires StoreOk(st) && id in st.objects && st.objects[id].state == Creating && st.objects[id].creator == Rank(rank)
    requires q.rank != rank && q.rank in st.alive && q.create && q.key.job in st.jobs && !SealedIn(st, VersionOf(q.key))
    ensures Decide(Depart(st, rank), q, st.objects[id].ks) == Create
  {
    DeadCreatorIsFreed(st, rank, id);
  }

  // -------------------------------------------------------------- identities

  ghost predicate KeyedBy(key: Key, ks: string) { ks == KeyString(key) }

  ghost predicate Keyed(st: Store) {
    && (forall id | id in st.objects :: KeyedBy(st.objects[id].key, st.objects[id].ks))
    && (forall th | th in st.creates :: KeyedBy(st.creates[th].key, st.creates[th].ks))
  }

  /** What a rollout relies on: identity and size always, the content hash once created. */
  ghost predicate SameContent(o: Obj, o': Obj) {
    && o'.key == o.key && o'.ks == o.ks && o'.nbytes == o.nbytes
    && (o.state != Creating ==> o'.hash == o.hash && o'.state != Creating)
  }

  /** Object `id` was there before with the same content, or comes from a pending creation. */
  ghost predicate Descends(st: Store, o: Obj, id: nat) {
    || (id in st.objects && SameContent(st.objects[id], o))
    || (exists th :: th in st.creates && st.creates[th].id == id
          && o.key == st.creates[th].key && o.ks == st.creates[th].ks)
  }

  lemma DropHoldsDescends(st: Store, rank: nat, ids: set<nat>, id: nat)
    requires id in DropHolds(st, rank, ids).objects
    ensures Descends(st, DropHolds(st, rank, ids).objects[id], id)
  {
  }

  lemma PublishDescends(c: SealConfig, st: Store, q: SealRequest, id: nat)
    requires id in Publish(st, c, q).objects
    ensures Descends(st, Publish(st, c, q).objects[id], id)
  {
    var m := Freeze(st, q.vk);
    assert id in m && Publish(st, c, q).objects[id] == m[id];
  }

  lemma EvictDescends(st: Store, th: nat, q: EvictRequest, ks: string, id: nat)
    requires id in Evict(st, th, q, ks).objects
    ensures Descends(st, Evict(st, th, q, ks).objects[id], id)
  {
    DecideFacts(st, q, ks);
  }

  lemma EndsDescend(st: Store, th: nat, id: nat)
    requires id in PullEnd(st, th).objects
    ensures Descends(st, PullEnd(st, th).objects[id], id)
  {
  }

  lemma CreateDescends(st: Store, th: nat, reserved: bool, lease: nat, id: nat)
    requires id in FinishCreate(st, th, reserved, lease).objects
    ensures Descends(st, FinishCreate(st, th, reserved, lease).objects[id], id)
  {
    if th in st.creates && st.creates[th].id == id {
    }
  }

  lemma StepDescends(c: SealConfig, st: Store, a: Act, id: nat)
    requires id in Apply(c, st, a).objects
    ensures Descends(st, Apply(c, st, a).objects[id], id)
  {
    if a.ASeal? {
      if id in Publish(st, c, a.sq).objects {
        PublishDescends(c, st, a.sq, id);
      }
    } else if a.ADepart? {
      DropHoldsDescends(st, a.rank, st.objects.Keys, id);
    } else if a.ARelease? {
      if id in DropHolds(st, a.rank, ReleaseIds(st, a.vk, a.id)).objects {
        DropHoldsDescends(st, a.rank, ReleaseIds(st, a.vk, a.id), id);
      }
    } else if a.AEvict? {
      EvictDescends(st, a.th, a.q, a.ks, id);
    } else if a.APullEnd? {
      EndsDescend(st, a.th, id);
    } else if a.AFinishCreate? {
      CreateDescends(st, a.th, a.reserved, a.lease, id);
    } else if a.APullFail? {
      FailDescends(st, a.th, id);
    } else {
      OtherDescends(c, st, a, id);
    }
  }

  lemma FailDescends(st: Store, th: nat, id: nat)
    requires id in PullFail(st, th).objects
    ensures Descends(st, PullFail(st, th).objects[id], id)
  {
  }

  lemma CommittedContent(o: Obj, rank: nat, lease: nat, h: Hash, tier: Tier)
    ensures SameContent(o, Committed(o, rank, lease, h, tier))
  {
  }

  lemma CommitDescends(st: Store, rank: nat, i: nat, lease: nat, h: Hash, tier: Tier, id: nat)
    requires id in Commit(st, rank, i, lease, h, tier).objects
    ensures Descends(st, Commit(st, rank, i, lease, h, tier).objects[id], id)
  {
    if i in st.objects {
      CommittedContent(st.objects[i], rank, lease, h, tier);
    }
  }

  lemma GrantDescends(st: Store, i: nat, warmed: bool, id: nat)
    requires id in RestoreGrant(st, i, warmed).objects
    ensures Descends(st, RestoreGrant(st, i, warmed).objects[id], id)
  {
  }

  lemma RestoreReleaseDescends(st: Store, i: nat, id: nat)
    requires id in RestoreRelease(st, i).objects
    ensures Descends(st, RestoreRelease(st, i).objects[id], id)
  {
  }

  lemma OtherDescends(c: SealConfig, st: Store, a: Act, id: nat)
    requires a.ARegisterJob? || a.AArrive? || a.ACommit? || a.APullBegin? || a.AGrant? || a.ARestoreRelease?
      || a.ADropVersion?
    requires id in Apply(c, st, a).objects
    ensures Descends(st, Apply(c, st, a).objects[id], id)
  {
    match a
    case ARegisterJob(job) =>
    case AArrive(rank) =>
    case ACommit(rank, i, lease, h, tier) => CommitDescends(st, rank, i, lease, h, tier, id);
    case APullBegin(th, vk, i) =>
    case AGrant(i, warmed) => GrantDescends(st, i, warmed, id);
    case ARestoreRelease(i) => RestoreReleaseDescends(st, i, id);
    case ADropVersion(vk) =>
  }

  predicate TouchesOneObject(a: Act) {
    a.ACommit? || a.APullBegin? || a.APullFail? || a.APullEnd? || a.AGrant? || a.ARestoreRelease?
  }

  /** The parts of the store that most sections leave alone. */
  ghost predicate SameRest(st: Store, st': Store) {
    st' == st.(objects := st'.objects, byKey := st'.byKey, jobs := st'.jobs, pulls := st'.pulls)
  }

  lemma CommitRest(st: Store, rank: nat, id: nat, lease: nat, h: Hash, tier: Tier)
    ensures SameRest(st, Commit(st, rank, id, lease, h, tier))
  {
  }

  lemma PullsRest(st: Store, th: nat, vk: VersionKey, id: nat)
    ensures SameRest(st, PullBegin(st, th, vk, id)) && SameRest(st, PullFail(st, th)) && SameRest(st, PullEnd(st, th))
  {
  }

  lemma RestoresRest(st: Store, id: nat, warmed: bool)
    ensures SameRest(st, RestoreGrant(st, id, warmed)) && SameRest(st, RestoreRelease(st, id))
  {
  }

  lemma OneObjectRest(c: SealConfig, st: Store, a: Act)
    requires TouchesOneObject(a)
    ensures SameRest(st, Apply(c, st, a))
  {
    match a
    case ACommit(rank, i, lease, h, tier) => CommitRest(st, rank, i, lease, h, tier);
    case APullBegin(th, vk, i) => PullsRest(st, th, vk, i);
    case APullFail(th) => PullsRest(st, th, VersionKey(JobUid(0, 0, 0), 0, 0), 0);
    case APullEnd(th) => PullsRest(st, th, VersionKey(JobUid(0, 0, 0), 0, 0), 0);
    case AGrant(i, warmed) => RestoresRest(st, i, warmed);
    case ARestoreRelease(i) => RestoresRest(st, i, false);
  }

  lemma DropHoldsRest(st: Store, rank: nat, ids: set<nat>)
    ensures SameRest(st, DropHolds(st, rank, ids))
  {
  }

  lemma SealCreates(c: SealConfig, st: Store, q: SealRequest, gathered: seq<nat>)
    ensures var r := Seal(st, c, q, gathered);
      r == st.(objects := r.objects, byKey := r.byKey, jobs := r.jobs, manifests := r.manifests, latest := r.latest)
  {
  }

  lemma CreatesKept(c: SealConfig, st: Store, a: Act)
    requires !a.AEvict? && !a.AFinishCreate?
    ensures Apply(c, st, a).creates == st.creates && Apply(c, st, a).nextObject == st.nextObject
  {
    if TouchesOneObject(a) {
      OneObjectRest(c, st, a);
    } else if a.ADepart? {
      DropHoldsRest(st, a.rank, st.objects.Keys);
    } else if a.ARelease? {
      DropHoldsRest(st, a.rank, ReleaseIds(st, a.vk, a.id));
    } else if a.ASeal? {
      SealCreates(c, st, a.sq, a.gathered);
    }
  }

  lemma StepCreates(c: SealConfig, st: Store, a: Act)
    ensures var st' := Apply(c, st, a);
      && st.nextObject <= st'.nextObject
      && forall th | th in st'.creates ::
           || (th in st.creates && st.creates[th] == st'.creates[th])
           || (a.AEvict? && st'.creates[th] == Pending(st.nextObject, a.q.rank, a.q.key, a.ks))
  {
    if a.AEvict? {
      EvictCreates(st, a.th, a.q, a.ks);
    } else if a.AFinishCreate? {
      FinishCreates(st, a.th, a.reserved, a.lease);
    } else {
      CreatesKept(c, st, a);
    }
  }

  lemma EvictCreates(st: Store, th: nat, q: EvictRequest, ks: string)
    ensures var st' := Evict(st, th, q, ks);
      && st.nextObject <= st'.nextObject
      && (st'.creates == st.creates || st'.creates == st.creates[th := Pending(st.nextObject, q.rank, q.key, ks)])
  {
  }

  lemma FinishCreates(st: Store, th: nat, reserved: bool, lease: nat)
    ensures var st' := FinishCreate(st, th, reserved, lease);
      st'.nextObject == st.nextObject && st'.creates == st.creates - {th}
  {
  }

  lemma StepKeyed(c: SealConfig, st: Store, a: Act)
    requires StoreOk(st) && Keyed(st) && Enabled(st, a)
    ensures Keyed(Apply(c, st, a))
  {
    var st' := Apply(c, st, a);
    StepCreates(c, st, a);
    forall th | th in st'.creates ensures KeyedBy(st'.creates[th].key, st'.creates[th].ks) {
    }
    forall id | id in st'.objects ensures KeyedBy(st'.objects[id].key, st'.objects[id].ks) {
      StepDescends(c, st, a, id);
      DescendsKeyed(st, st'.objects[id], id);
    }
  }

  lemma DescendsKeyed(st: Store, o: Obj, id: nat)
    requires Keyed(st) && Descends(st, o, id)
    ensures KeyedBy(o.key, o.ks)
  {
    if id in st.objects && SameContent(st.objects[id], o) {
      assert KeyedBy(st.objects[id].key, st.objects[id].ks);
    } else {
      var th :| th in st.creates && st.creates[th].id == id && o.key == st.creates[th].key && o.ks == st.creates[th].ks;
      assert KeyedBy(st.creates[th].key, st.creates[th].ks);
    }
  }

  lemma KeyedNext(c: SealConfig, tr: seq<Store>, acts: seq<Act>, n: nat)
    requires Run(c, tr, acts) && n < |acts| && Keyed(tr[n])
    ensures Keyed(tr[n + 1])
  {
    assert StepAt(c, tr, acts, n);
    RunOk(c, tr, acts, n);
    StepKeyed(c, tr[n], acts[n]);
  }

  lemma RunKeyed(c: SealConfig, tr: seq<Store>, acts: seq<Act>, n: nat)
    requires Run(c, tr, acts) && n < |tr|
    ensures Keyed(tr[n])
  {
    InitKeyed(tr[0]);
    for k := 0 to n
      invariant Keyed(tr[k])
    {
      KeyedNext(c, tr, acts, k);
    }
  }

  lemma InitKeyed(st: Store)
    requires Init(st)
    ensures Keyed(st)
  {
  }

  /** Dedup is exact in every reachable state: one object per identity, and the index finds it. */
  lemma OneObjectPerIdentity(c: SealConfig, tr: seq<Store>, acts: seq<Act>, n: nat, i: nat, j: nat)
    requires Run(c, tr, acts) && n < |tr| && i in tr[n].objects && j in tr[n].objects
    ensures SameIdentity(tr[n].objects[i].key, tr[n].objects[j].key) <==> i == j
  {
    RunOk(c, tr, acts, n);
    RunKeyed(c, tr, acts, n);
    var st := tr[n];
    assert KeyedBy(st.objects[i].key, st.objects[i].ks) && KeyedBy(st.objects[j].key, st.objects[j].ks);
    KeyStringExact(st.objects[i].key, st.objects[j].key);
  }

  lemma LookupExact(c: SealConfig, tr: seq<Store>, acts: seq<Act>, n: nat, k: Key)
    requires Run(c, tr, acts) && n < |tr|
    ensures var st := tr[n]; var ks := KeyString(k);
      && (ks in st.byKey ==> st.byKey[ks] in st.objects && SameIdentity(st.objects[st.byKey[ks]].key, k))
      && (forall id | id in st.objects && SameIdentity(st.objects[id].key, k) :: ks in st.byKey && st.byKey[ks] == id)
  {
    RunOk(c, tr, acts, n);
    RunKeyed(c, tr, acts, n);
    var st := tr[n];
    forall id | id in st.objects ensures SameIdentity(st.objects[id].key, k) <==> st.objects[id].ks == KeyString(k) {
      assert KeyedBy(st.objects[id].key, st.objects[id].ks);
      KeyStringExact(st.objects[id].key, k);
    }
  }

  /** A creation that has its reservation keeps index and table inverse exactly if its key is still free. */
  lemma CreateKeepsIndexIff(st: Store, th: nat, lease: nat)
    requires StoreOk(st) && th in st.creates
    ensures var st' := FinishCreate(st, th, true, lease);
      IndexInv(st'.objects, st'.byKey) <==> st.creates[th].ks !in st.byKey
  {
    var p := st.creates[th];
    AddIndex(st.objects, st.byKey, p.id, NewObject(p, lease));
  }

  /** It keeps every holder alive exactly if its rank still is. */
  lemma CreateKeepsHoldersIff(st: Store, th: nat, lease: nat)
    requires StoreOk(st) && th in st.creates
    ensures var st' := FinishCreate(st, th, true, lease);
      ObjsOk(st'.objects, st'.alive) <==> st.creates[th].rank in st.alive
  {
    var p := st.creates[th];
    var st' := FinishCreate(st, th, true, lease);
    assert st'.objects[p.id] == NewObject(p, lease);
    if p.rank in st.alive {
      forall id | id in st'.objects ensures ObjOk(st'.objects[id], st'.alive) {
      }
    } else {
      assert !ObjOk(st'.objects[p.id], st'.alive);
    }
  }

  /** The whole invariant survives exactly if the rank is alive and the key free. */
  lemma CreateKeepsStoreIff(st: Store, th: nat, lease: nat)
    requires StoreOk(st) && th in st.creates
    ensures StoreOk(FinishCreate(st, th, true, lease)) <==>
      st.creates[th].rank in st.alive && st.creates[th].ks !in st.byKey
  {
    CreateKeepsHoldersIff(st, th, lease);
    CreateKeepsIndexIff(st, th, lease);
    if st.creates[th].rank in st.alive && st.creates[th].ks !in st.byKey {
      FinishCreateOk(st, th, true, lease);
    }
  }

  // ------------------------------------------------------- what never changes

  /** An id that was erased and cannot come back. */
  ghost predicate Gone(st: Store, id: nat) {
    id < st.nextObject && id !in st.objects && forall th | th in st.creates :: st.creates[th].id != id
  }

  /** What has become of an object that looked like `o`. */
  ghost predicate KeptOrGone(o: Obj, st: Store, id: nat) {
    if id in st.objects then SameContent(o, st.objects[id]) else Gone(st, id)
  }

  lemma KeptStep(c: SealConfig, st: Store, a: Act, id: nat)
    requires StoreOk(st) && id in st.objects
    ensures KeptOrGone(st.objects[id], Apply(c, st, a), id)
  {
    StepCreates(c, st, a);
    if id in Apply(c, st, a).objects {
      StepDescends(c, st, a, id);
    }
  }

  lemma GoneStep(c: SealConfig, st: Store, a: Act, id: nat)
    requires StoreOk(st) && Gone(st, id)
    ensures Gone(Apply(c, st, a), id)
  {
    StepCreates(c, st, a);
    if id in Apply(c, st, a).objects {
      StepDescends(c, st, a, id);
    }
  }

  lemma KeptOrGoneStep(c: SealConfig, o: Obj, st: Store, a: Act, id: nat)
    requires StoreOk(st) && KeptOrGone(o, st, id)
    ensures KeptOrGone(o, Apply(c, st, a), id)
  {
    if id in st.objects {
      KeptStep(c, st, a, id);
    } else {
      GoneStep(c, st, a, id);
    }
  }

  /** Once created, an object keeps key, size and hash for as long as it is in the table. */
  lemma {:induction false} ContentFrozen(c: SealConfig, tr: seq<Store>, acts: seq<Act>, i: nat, j: nat, id: nat)
    requires Run(c, tr, acts) && i <= j < |tr| && id in tr[i].objects
    ensures KeptOrGone(tr[i].objects[id], tr[j], id)
    decreases j
  {
    if i < j {
      ContentFrozen(c, tr, acts, i, j - 1, id);
      RunOk(c, tr, acts, j - 1);
      KeptOrGoneStep(c, tr[i].objects[id], tr[j - 1], acts[j - 1], id);
      assert StepAt(c, tr, acts, j - 1);
    }
  }

  lemma ManifestsKept(c: SealConfig, st: Store, a: Act)
    requires !a.ASeal? && !a.ADropVersion?
    ensures Apply(c, st, a).manifests == st.manifests
  {
    if TouchesOneObject(a) {
      OneObjectRest(c, st, a);
    } else if a.ADepart? {
      DropHoldsRest(st, a.rank, st.objects.Keys);
    } else if a.ARelease? {
      DropHoldsRest(st, a.rank, ReleaseIds(st, a.vk, a.id));
    }
  }

  lemma SealKeepsManifest(c: SealConfig, st: Store, q: SealRequest, gathered: seq<nat>, vk: VersionKey)
    requires SealedIn(st, vk)
    ensures var st' := Seal(st, c, q, gathered);
      || (vk in st'.manifests && st'.manifests[vk] == st.manifests[vk])
      || (vk !in st'.manifests && q.promote && q.vk.job == vk.job && q.vk.role == vk.role && q.vk != vk)
  {
    if Seal(st, c, q, gathered) == Publish(st, c, q) && q.promote {
      var rk := RoleKey(q.vk.job, q.vk.role);
      RetainKeepsManifest(Promoted(st, c, q), rk, c.keep, vk);
    }
  }

  lemma RetainKeepsManifest(st: Store, rk: RoleKey, keep: nat, vk: VersionKey)
    requires vk in st.manifests && rk in st.latest
    ensures var st' := Retain(st, rk, keep);
      if vk in st'.manifests then st'.manifests[vk] == st.manifests[vk]
      else vk.job == rk.job && vk.role == rk.role && vk.version != st.latest[rk]
  {
  }

  lemma DropKeepsManifest(st: Store, dropped: VersionKey, vk: VersionKey)
    requires vk in st.manifests
    ensures var st' := DropVersion(st, dropped);
      if vk in st'.manifests then st'.manifests[vk] == st.manifests[vk] else dropped == vk
  {
  }

  /** A sealed manifest stays as it is or is erased, and only a drop or a promotion erases it. */
  lemma ManifestStep(c: SealConfig, st: Store, a: Act, vk: VersionKey)
    requires SealedIn(st, vk)
    ensures var st' := Apply(c, st, a);
      || (vk in st'.manifests && st'.manifests[vk] == st.manifests[vk])
      || (vk !in st'.manifests && a == ADropVersion(vk))
      || (vk !in st'.manifests && a.ASeal? && a.sq.promote && a.sq.vk.job == vk.job && a.sq.vk.role == vk.role
          && a.sq.vk != vk)
  {
    if a.ASeal? {
      SealKeepsManifest(c, st, a.sq, a.gathered, vk);
    } else if a.ADropVersion? {
      DropKeepsManifest(st, a.vk, vk);
    } else {
      ManifestsKept(c, st, a);
    }
  }

  lemma {:induction false} ManifestImmutable(c: SealConfig, tr: seq<Store>, acts: seq<Act>, i: nat, j: nat,
                                             vk: VersionKey)
    requires Run(c, tr, acts) && i <= j < |tr| && SealedIn(tr[i], vk)
    requires forall k | i <= k <= j :: vk in tr[k].manifests
    ensures tr[j].manifests[vk] == tr[i].manifests[vk]
    decreases j
  {
    if i < j {
      ManifestImmutable(c, tr, acts, i, j - 1, vk);
      assert StepAt(c, tr, acts, j - 1);
      ManifestStep(c, tr[j - 1], acts[j - 1], vk);
    }
  }

  /** What a rollout engine is pointed at exists and is sealed, in every reachable state. */
  lemma PromotedIsSealed(c: SealConfig, tr: seq<Store>, acts: seq<Act>, n: nat, rk: RoleKey)
    requires Run(c, tr, acts) && n < |tr| && rk in tr[n].latest
    ensures SealedIn(tr[n], VersionKey(rk.job, rk.role, tr[n].latest[rk]))
  {
    RunOk(c, tr, acts, n);
  }

  /** Members that agree give one manifest, hash included: nothing else of the tables enters it. */
  lemma ManifestOfMembers(st: Store, st': Store, c: SealConfig, vk: VersionKey)
    requires Members(st, vk) == Members(st', vk)
    requires forall id | id in Members(st, vk) ::
               st.objects[id].hash == st'.objects[id].hash && st.objects[id].nbytes == st'.objects[id].nbytes
    ensures SealedManifest(st, c, vk) == SealedManifest(st', c, vk)
  {
    AscendingIs(Members(st, vk));
    var ids := Ascending(Members(st, vk));
    forall id | id in ids ensures id in Members(st, vk) {
      assert id in Elements(ids);
    }
    MixAgrees(c, st.objects, st'.objects, ids);
  }

  lemma {:induction false} MixAgrees(c: SealConfig, m: map<nat, Obj>, m': map<nat, Obj>, ids: seq<nat>)
    requires forall id | id in ids :: id in m && id in m' && m[id].hash == m'[id].hash && m[id].nbytes == m'[id].nbytes
    ensures MixAll(c, m, ids) == MixAll(c, m', ids) && TotalBytes(m, ids) == TotalBytes(m', ids)
    decreases |ids|
  {
    if ids != [] {
      assert ids[|ids| - 1] in ids;
      MixAgrees(c, m, m', ids[..|ids| - 1]);
    }
  }

  /** A finished object, or one that was erased for good. */
  ghost predicate SettledOrGone(st: Store, id: nat) {
    if id in st.objects then st.objects[id].state != Creating else Gone(st, id)
  }

  ghost predicate AllIn(m: map<nat, Obj>, ids: seq<nat>) { forall id | id in ids :: id in m }

  /** While all members are there, hash and total are theirs. */
  ghost predicate Accounts(c: SealConfig, st: Store, m: Manifest) {
    && (forall id | id in m.members :: SettledOrGone(st, id))
    && (AllIn(st.objects, m.members) ==>
          m.hash == MixAll(c, st.objects, m.members) && m.total == TotalBytes(st.objects, m.members))
  }

  lemma SettledStep(c: SealConfig, st: Store, a: Act, id: nat)
    requires StoreOk(st) && SettledOrGone(st, id)
    ensures var st' := Apply(c, st, a);
      && SettledOrGone(st', id)
      && (id in st'.objects ==> id in st.objects && SameContent(st.objects[id], st'.objects[id]))
  {
    if id in st.objects {
      KeptStep(c, st, a, id);
    } else {
      GoneStep(c, st, a, id);
    }
  }

  lemma AccountsKept(c: SealConfig, st: Store, st': Store, m: Manifest)
    requires Accounts(c, st, m)
    requires forall id | id in m.members :: SettledOrGone(st', id)
    requires forall id | id in m.members && id in st'.objects ::
      id in st.objects && SameContent(st.objects[id], st'.objects[id])
    ensures Accounts(c, st', m)
  {
    if AllIn(st'.objects, m.members) {
      assert forall id | id in m.members :: SettledOrGone(st, id);
      MixAgrees(c, st.objects, st'.objects, m.members);
    }
  }

  lemma AccountsStep(c: SealConfig, st: Store, a: Act, m: Manifest)
    requires StoreOk(st) && Accounts(c, st, m)
    ensures Accounts(c, Apply(c, st, a), m)
  {
    var st' := Apply(c, st, a);
    forall id | id in m.members
      ensures SettledOrGone(st', id)
      ensures id in st'.objects ==> id in st.objects && SameContent(st.objects[id], st'.objects[id])
    {
      SettledStep(c, st, a, id);
    }
    AccountsKept(c, st, st', m);
  }

  /** The seal itself: what it computes from the members still holds after it froze and retained. */
  lemma SealAccounts(c: SealConfig, st: Store, a: Act)
    requires StoreOk(st) && a.ASeal?
    ensures Accounts(c, Apply(c, st, a), SealedManifest(st, c, a.sq.vk))
  {
    var m := SealedManifest(st, c, a.sq.vk);
    AscendingIs(Members(st, a.sq.vk));
    forall id | id in m.members ensures SettledOrGone(st, id) && id in st.objects {
      assert id in Elements(m.members);
    }
    AccountsStep(c, st, a, m);
  }

  /** A sealed manifest was there before, or is the one that the seal computed. */
  lemma SealedFrom(c: SealConfig, st: Store, a: Act, vk: VersionKey)
    requires SealedIn(Apply(c, st, a), vk)
    ensures var m := Apply(c, st, a).manifests[vk];
      || (SealedIn(st, vk) && st.manifests[vk] == m)
      || (a.ASeal? && a.sq.vk == vk && m == SealedManifest(st, c, vk))
  {
    if a.ASeal? {
      SealSource(c, st, a.sq, a.gathered, vk);
    } else if !a.ADropVersion? {
      ManifestsKept(c, st, a);
    }
  }

  lemma SealSource(c: SealConfig, st: Store, q: SealRequest, gathered: seq<nat>, vk: VersionKey)
    requires SealedIn(Seal(st, c, q, gathered), vk)
    ensures var m := Seal(st, c, q, gathered).manifests[vk];
      (SealedIn(st, vk) && st.manifests[vk] == m) || (q.vk == vk && m == SealedManifest(st, c, vk))
  {
  }

  lemma AccountsNext(c: SealConfig, tr: seq<Store>, acts: seq<Act>, n: nat, vk: VersionKey)
    requires Run(c, tr, acts) && 0 < n < |tr| && StoreOk(tr[n - 1]) && SealedIn(tr[n], vk)
    requires SealedIn(tr[n - 1], vk) ==> Accounts(c, tr[n - 1], tr[n - 1].manifests[vk])
    ensures Accounts(c, tr[n], tr[n].manifests[vk])
  {
    var st, a := tr[n - 1], acts[n - 1];
    assert StepAt(c, tr, acts, n - 1);
    SealedFrom(c, st, a, vk);
    if SealedIn(st, vk) && st.manifests[vk] == tr[n].manifests[vk] {
      AccountsStep(c, st, a, st.manifests[vk]);
    } else {
      SealAccounts(c, st, a);
    }
  }

  /** In every reachable state, a sealed manifest whose members are all present has their hash and total. */
  lemma {:induction false} ManifestAccounts(c: SealConfig, tr: seq<Store>, acts: seq<Act>, n: nat, vk: VersionKey)
    requires Run(c, tr, acts) && n < |tr| && SealedIn(tr[n], vk)
    ensures Accounts(c, tr[n], tr[n].manifests[vk])
  {
    if n > 0 {
      RunOk(c, tr, acts, n - 1);
      if SealedIn(tr[n - 1], vk) {
        ManifestAccounts(c, tr, acts, n - 1, vk);
      }
      AccountsNext(c, tr, acts, n, vk);
    }
  }

  // --------------------------------------------------------------- retention

  /** A promotion leaves exactly the newest, the promoted and the busy versions sealed. */
  lemma RetentionExact(st: Store, c: SealConfig, q: SealRequest)
    requires q.promote && c.keep > 0
    ensures var rk := RoleKey(q.vk.job, q.vk.role);
      var before := SealedVersions(st, rk) + {q.vk.version};
      forall v :: v in SealedVersions(Publish(st, c, q), rk) <==>
        v in before && (|Newer(before, v)| < c.keep || v == q.vk.version || Busy(st, VersionKey(rk.job, rk.role, v)))
  {
    var rk := RoleKey(q.vk.job, q.vk.role);
    var before := SealedVersions(st, rk) + {q.vk.version};
    var st1 := Promoted(st, c, q);
    assert SealedVersions(st1, rk) == before by { SealedAfter(st, c, q); }
    forall v ensures v in SealedVersions(Publish(st, c, q), rk) <==>
      v in before && (|Newer(before, v)| < c.keep || v == q.vk.version || Busy(st, VersionKey(rk.job, rk.role, v)))
    {
      BusyAfter(st, c, q, VersionKey(rk.job, rk.role, v));
      SurvivesIff(st1, rk, c.keep, v);
    }
  }

  /** The store with the new manifest promoted, before retention looks at it. */
  ghost function Promoted(st: Store, c: SealConfig, q: SealRequest): Store {
    st.(objects := Freeze(st, q.vk), manifests := st.manifests[q.vk := SealedManifest(st, c, q.vk)],
        latest := st.latest[RoleKey(q.vk.job, q.vk.role) := q.vk.version])
  }

  lemma SealedIff(st: Store, rk: RoleKey, v: nat)
    ensures v in SealedVersions(st, rk) <==> SealedIn(st, VersionKey(rk.job, rk.role, v))
  {
    var vk := VersionKey(rk.job, rk.role, v);
    if SealedIn(st, vk) {
      assert vk.version == v;
    }
  }

  lemma SealedAfter(st: Store, c: SealConfig, q: SealRequest)
    ensures var rk := RoleKey(q.vk.job, q.vk.role);
      SealedVersions(Promoted(st, c, q), rk) == SealedVersions(st, rk) + {q.vk.version}
  {
    var rk := RoleKey(q.vk.job, q.vk.role);
    forall v ensures v in SealedVersions(Promoted(st, c, q), rk) <==> v in SealedVersions(st, rk) + {q.vk.version} {
      SealedIff(st, rk, v);
      SealedIff(Promoted(st, c, q), rk, v);
    }
  }

  lemma BusyAfter(st: Store, c: SealConfig, q: SealRequest, vk: VersionKey)
    ensures Busy(Promoted(st, c, q), vk) <==> Busy(st, vk)
  {
    var m := Freeze(st, q.vk);
    forall id | id in st.objects
      ensures OfVersion(m[id], vk) == OfVersion(st.objects[id], vk) && InFlight(m[id]) == InFlight(st.objects[id])
    {
    }
  }

  lemma SurvivesIff(st: Store, rk: RoleKey, keep: nat, v: nat)
    requires keep > 0
    ensures v in SealedVersions(Retain(st, rk, keep), rk) <==>
      v in SealedVersions(st, rk) && (v !in Outdated(st, rk, keep) || Busy(st, VersionKey(rk.job, rk.role, v)))
  {
    SealedIff(st, rk, v);
    SealedIff(Retain(st, rk, keep), rk, v);
  }

  /** Retention erases an object exactly if its version is outdated and no transfer reads it. */
  lemma ErasedExactly(st: Store, rk: RoleKey, keep: nat, id: nat)
    requires keep > 0 && id in st.objects
    ensures id !in Retain(st, rk, keep).objects <==>
      && st.objects[id].key.job == rk.job && st.objects[id].key.role == rk.role
      && st.objects[id].key.version in Outdated(st, rk, keep) && !InFlight(st.objects[id])
  {
  }

  /** A version that survives loses no object exactly if it is not outdated, or has no idle object. */
  lemma SurvivorWholeIff(st: Store, rk: RoleKey, keep: nat, v: nat)
    requires keep > 0 && v in SealedVersions(Retain(st, rk, keep), rk)
    ensures var vk := VersionKey(rk.job, rk.role, v);
      (forall id | id in st.objects && OfVersion(st.objects[id], vk) :: id in Retain(st, rk, keep).objects)
      <==> v !in Outdated(st, rk, keep) || Idle(st, vk) == {}
  {
    var vk := VersionKey(rk.job, rk.role, v);
    forall id | id in st.objects && OfVersion(st.objects[id], vk)
      ensures id in Retain(st, rk, keep).objects <==> v !in Outdated(st, rk, keep) || id !in Idle(st, vk)
    {
      ErasedExactly(st, rk, keep, id);
    }
  }
}

/**
 Runs of the canonical store in which a guarantee fails: a surviving version
 loses a tensor, a failed staging leaves an orphan, and a creation finds its key
 taken or its rank dead.
 */
module StoreWitness {
  import opened CanonicalKey
  import opened CanonicalStore
  import opened StoreInv
  import opened CanonicalRuns

  /** `a` may happen in `st` and leads to `st'`. */
  ghost predicate Leads(c: SealConfig, st: Store, a: Act, st': Store) {
    Enabled(st, a) && st' == Apply(c, st, a)
  }

  lemma Extend(c: SealConfig, tr: seq<Store>, acts: seq<Act>, a: Act, st: Store)
    returns (tr': seq<Store>, acts': seq<Act>)
    requires Run(c, tr, acts) && Leads(c, tr[|acts|], a, st)
    ensures Run(c, tr', acts') && tr' == tr + [st] && acts' == acts + [a]
  {
    tr', acts' := tr + [st], acts + [a];
    forall i: nat | i < |acts'| ensures StepAt(c, tr', acts', i) {
      if i < |acts| {
        assert StepAt(c, tr, acts, i);
      }
    }
  }

  /** Ranks 0 and 1 are there and the job is registered. */
  function Ready(job: JobUid): Store {
    Store(map[], map[], map[job := 0], map[], map[], {0, 1}, 1, map[], map[])
  }

  lemma ReadyRun(c: SealConfig, job: JobUid) returns (tr: seq<Store>, acts: seq<Act>)
    ensures Run(c, tr, acts) && tr[|acts|] == Ready(job)
  {
    var st := Store(map[], map[], map[], map[], map[], {}, 1, map[], map[]);
    tr, acts := [st], [];
    tr, acts := Extend(c, tr, acts, AArrive(0), st.(alive := {0}));
    tr, acts := Extend(c, tr, acts, AArrive(1), st.(alive := {0, 1}));
    tr, acts := Extend(c, tr, acts, ARegisterJob(job), Ready(job));
  }

  // ---------------------------------------------------------------- creations

  /** `rank` may create an object under key `k`, whose string is `ks`. */
  predicate MayCreate(st: Store, rank: nat, k: Key, ks: string) {
    rank in st.alive && k.job in st.jobs && !SealedIn(st, VersionOf(k)) && ks !in st.byKey
  }

  function Asked(rank: nat, k: Key): EvictRequest { EvictRequest(rank, k, true, false, false, true) }

  /** Thread `th` waits for the run of its new object. */
  function Waiting(st: Store, th: nat, rank: nat, k: Key, ks: string): Store {
    st.(nextObject := st.nextObject + 1, creates := st.creates[th := Pending(st.nextObject, rank, k, ks)])
  }

  lemma EvictLeads(c: SealConfig, st: Store, th: nat, rank: nat, k: Key, ks: string)
    requires MayCreate(st, rank, k, ks) && th !in st.creates && ks == KeyString(k)
    ensures Leads(c, st, AEvict(th, Asked(rank, k), ks), Waiting(st, th, rank, k, ks))
  {
    assert Decide(st, Asked(rank, k), ks) == Create;
  }

  /** A committed object of rank 0. */
  function Made(k: Key, ks: string, lease: nat): Obj {
    Obj(k, ks, k.nbytes, ValidPinned, {0}, 1, 0, 0, Hash(1, 1), NoRank, lease)
  }

  function WithObject(st: Store, k: Key, ks: string, lease: nat): Store
    requires k.job in st.jobs
  {
    st.(objects := st.objects[st.nextObject := Made(k, ks, lease)], byKey := st.byKey[ks := st.nextObject],
        jobs := st.jobs[k.job := st.jobs[k.job] + 1], nextObject := st.nextObject + 1)
  }

  /** The object is in the table, its bytes are awaited. */
  function Entered(st: Store, k: Key, ks: string, lease: nat): Store
    requires k.job in st.jobs
  {
    WithObject(st, k, ks, lease).(
      objects := st.objects[st.nextObject := NewObject(Pending(st.nextObject, 0, k, ks), lease)])
  }

  lemma FinishLeads(c: SealConfig, st: Store, k: Key, ks: string, lease: nat)
    requires MayCreate(st, 0, k, ks) && st.creates == map[]
    ensures Leads(c, Waiting(st, 0, 0, k, ks), AFinishCreate(0, true, lease), Entered(st, k, ks, lease))
  {
    assert Waiting(st, 0, 0, k, ks).creates - {0} == map[];
  }

  lemma CommitLeads(c: SealConfig, st: Store, k: Key, ks: string, lease: nat)
    requires MayCreate(st, 0, k, ks)
    ensures Leads(c, Entered(st, k, ks, lease), ACommit(0, st.nextObject, lease, Hash(1, 1), PinnedTier),
                  WithObject(st, k, ks, lease))
  {
    var st1 := Entered(st, k, ks, lease);
    assert st1.objects[st.nextObject := Made(k, ks, lease)] == WithObject(st, k, ks, lease).objects;
  }

  lemma MakeRun(c: SealConfig, tr: seq<Store>, acts: seq<Act>, k: Key, ks: string, lease: nat)
    returns (tr': seq<Store>, acts': seq<Act>)
    requires Run(c, tr, acts) && MayCreate(tr[|acts|], 0, k, ks) && tr[|acts|].creates == map[] && ks == KeyString(k)
    ensures Run(c, tr', acts') && tr'[|acts'|] == WithObject(tr[|acts|], k, ks, lease)
  {
    var st := tr[|acts|];
    EvictLeads(c, st, 0, 0, k, ks);
    FinishLeads(c, st, k, ks, lease);
    CommitLeads(c, st, k, ks, lease);
    tr', acts' := Extend(c, tr, acts, AEvict(0, Asked(0, k), ks), Waiting(st, 0, 0, k, ks));
    tr', acts' := Extend(c, tr', acts', AFinishCreate(0, true, lease), Entered(st, k, ks, lease));
    tr', acts' := Extend(c, tr', acts', ACommit(0, st.nextObject, lease, Hash(1, 1), PinnedTier),
                         WithObject(st, k, ks, lease));
  }

  /** Two threads create the same key; the second one enters its object over the first one's. */
  lemma KeyTakenRun(c: SealConfig, k: Key) returns (tr: seq<Store>, acts: seq<Act>)
    ensures Run(c, tr, acts)
    ensures var st := tr[|acts|]; 1 in st.creates && !StoreOk(FinishCreate(st, 1, true, 2))
  {
    var st, ks := Ready(k.job), KeyString(k);
    tr, acts := ReadyRun(c, k.job);
    EvictLeads(c, st, 0, 0, k, ks);
    tr, acts := Extend(c, tr, acts, AEvict(0, Asked(0, k), ks), Waiting(st, 0, 0, k, ks));
    var st1 := Waiting(st, 0, 0, k, ks);
    EvictLeads(c, st1, 1, 1, k, ks);
    tr, acts := Extend(c, tr, acts, AEvict(1, Asked(1, k), ks), Waiting(st1, 1, 1, k, ks));
    var st2 := Waiting(st1, 1, 1, k, ks);
    tr, acts := Extend(c, tr, acts, AFinishCreate(0, true, 1), FinishCreate(st2, 0, true, 1));
    RunOk(c, tr, acts, |acts|);
    CreateKeepsStoreIff(tr[|acts|], 1, 2);
  }

  /** A rank dies while its creation waits for a run; the object is entered with a dead holder. */
  lemma RankDeadRun(c: SealConfig, k: Key) returns (tr: seq<Store>, acts: seq<Act>)
    ensures Run(c, tr, acts)
    ensures var st := tr[|acts|]; 0 in st.creates && !StoreOk(FinishCreate(st, 0, true, 1))
  {
    var st, ks := Ready(k.job), KeyString(k);
    tr, acts := ReadyRun(c, k.job);
    EvictLeads(c, st, 0, 0, k, ks);
    tr, acts := Extend(c, tr, acts, AEvict(0, Asked(0, k), ks), Waiting(st, 0, 0, k, ks));
    tr, acts := Extend(c, tr, acts, ADepart(0), Depart(Waiting(st, 0, 0, k, ks), 0));
    RunOk(c, tr, acts, |acts|);
    CreateKeepsStoreIff(tr[|acts|], 0, 1);
  }

  // --------------------------------------------------------------------- seals

  function SealOf(vk: VersionKey, promote: bool): SealRequest { SealRequest(vk, [], false, promote) }

  /** A seal without promotion. */
  ghost function SealedStore(c: SealConfig, st: Store, vk: VersionKey): Store {
    st.(objects := Freeze(st, vk), manifests := st.manifests[vk := SealedManifest(st, c, vk)])
  }

  lemma SealLeads(c: SealConfig, st: Store, vk: VersionKey)
    requires vk.job in st.jobs && !SealedIn(st, vk)
    ensures Leads(c, st, ASeal(SealOf(vk, false), []), SealedStore(c, st, vk))
  {
  }

  /** Object `id` is being exported by thread 0. */
  function Exported(st: Store, id: nat): Store
    requires id in st.objects
  {
    st.(objects := st.objects[id := st.objects[id].(exports := st.objects[id].exports + 1, state := ExportInFlight)],
        pulls := st.pulls[0 := id])
  }

  lemma PullLeads(c: SealConfig, st: Store, vk: VersionKey, id: nat)
    requires vk.job in st.jobs && id in Members(st, vk) && st.pulls == map[]
    ensures id in SealedStore(c, st, vk).objects && id in SealedStore(c, st, vk).manifests[vk].members
    ensures Leads(c, SealedStore(c, st, vk), APullBegin(0, vk, id), Exported(SealedStore(c, st, vk), id))
  {
    AscendingIs(Members(st, vk));
    assert id in Elements(Ascending(Members(st, vk)));
  }

  /** The run seals the version of `k`, whose object `id` thread 0 then exports. */
  lemma ExportRun(c: SealConfig, tr: seq<Store>, acts: seq<Act>, vk: VersionKey, id: nat)
    returns (tr': seq<Store>, acts': seq<Act>)
    requires Run(c, tr, acts)
    requires var st := tr[|acts|];
      vk.job in st.jobs && !SealedIn(st, vk) && id in Members(st, vk) && st.pulls == map[]
    ensures var st1 := SealedStore(c, tr[|acts|], vk);
      Run(c, tr', acts') && id in st1.objects && tr'[|acts'|] == Exported(st1, id)
  {
    var st := tr[|acts|];
    SealLeads(c, st, vk);
    PullLeads(c, st, vk, id);
    tr', acts' := Extend(c, tr, acts, ASeal(SealOf(vk, false), []), SealedStore(c, st, vk));
    tr', acts' := Extend(c, tr', acts', APullBegin(0, vk, id), Exported(SealedStore(c, st, vk), id));
  }

  // -------------------------------------------------------------------- orphan

  /** Rank 0 alone holds object 1, which thread 0 exports. */
  predicate OnlyExported(st: Store, vk: VersionKey) {
    && 0 in st.alive && vk.job in st.jobs && st.pulls == map[0 := 1] && 1 in st.objects
    && st.objects[1].holders == {0} && st.objects[1].exports == 1 && st.objects[1].restores == 0
  }

  lemma ExportedRun(c: SealConfig, k: Key) returns (tr: seq<Store>, acts: seq<Act>)
    ensures Run(c, tr, acts) && OnlyExported(tr[|acts|], VersionOf(k))
  {
    var vk, ks := VersionOf(k), KeyString(k);
    tr, acts := ReadyRun(c, k.job);
    tr, acts := MakeRun(c, tr, acts, k, ks, 1);
    tr, acts := ExportRun(c, tr, acts, vk, 1);
  }

  lemma ReleaseLeads(c: SealConfig, st: Store, vk: VersionKey) returns (st': Store)
    requires OnlyExported(st, vk)
    ensures Leads(c, st, ARelease(0, vk, 1), st') && LeavesOrphan(st', APullFail(0))
  {
    st' := ReleaseCanonical(st, 0, vk, 1);
    assert Freed(st, 0, {1}) == {};
  }

  lemma FailLeads(c: SealConfig, st: Store) returns (st': Store)
    requires LeavesOrphan(st, APullFail(0))
    ensures Leads(c, st, APullFail(0), st') && !AllHeld(st'.objects)
  {
    st' := PullFail(st, 0);
    assert !InFlight(st'.objects[st.pulls[0]]);
  }

  /** Its only holder releases an object while it is exported, and the staging fails: nobody frees it. */
  lemma OrphanRun(c: SealConfig, k: Key) returns (tr: seq<Store>, acts: seq<Act>)
    ensures Run(c, tr, acts) && |acts| > 0
    ensures LeavesOrphan(tr[|acts| - 1], acts[|acts| - 1]) && !AllHeld(tr[|acts|].objects)
  {
    tr, acts := ExportedRun(c, k);
    var st := ReleaseLeads(c, tr[|acts|], VersionOf(k));
    tr, acts := Extend(c, tr, acts, ARelease(0, VersionOf(k), 1), st);
    var st' := FailLeads(c, st);
    tr, acts := Extend(c, tr, acts, APullFail(0), st');
  }

  // ------------------------------------------------------------------ retention

  /** Two tensors of one version, of which the second is being exported. */
  lemma TwoTensorsRun(c: SealConfig, k: Key, k2: Key) returns (tr: seq<Store>, acts: seq<Act>)
    requires k2 == k.(param := k2.param) && k2.param != k.param
    ensures Run(c, tr, acts) && HalfRead(tr[|acts|], VersionOf(k))
  {
    var vk, ks, ks2 := VersionOf(k), KeyString(k), KeyString(k2);
    KeyStringExact(k, k2);
    tr, acts := ReadyRun(c, k.job);
    tr, acts := MakeRun(c, tr, acts, k, ks, 1);
    tr, acts := MakeRun(c, tr, acts, k2, ks2, 2);
    var st := tr[|acts|];
    PullLeads(c, st, vk, 1);
    PullLeads(c, st, vk, 2);
    tr, acts := ExportRun(c, tr, acts, vk, 2);
  }

  /** Objects 1 and 2 belong to a sealed version, the only one; object 2 is being read, object 1 is not. */
  predicate HalfRead(st: Store, vk: VersionKey) {
    && vk.job in st.jobs && st.manifests.Keys == {vk} && SealedIn(st, vk) && 1 in st.manifests[vk].members
    && 1 in st.objects && OfVersion(st.objects[1], vk) && !InFlight(st.objects[1])
    && 2 in st.objects && OfVersion(st.objects[2], vk) && InFlight(st.objects[2])
  }

  function NextSeal(vk: VersionKey): SealRequest { SealOf(vk.(version := vk.version + 1), true) }

  /** The store after the promotion, before retention. */
  predicate Pushed(st: Store, vk: VersionKey) {
    var rk := RoleKey(vk.job, vk.role);
    && SealedIn(st, vk) && SealedIn(st, vk.(version := vk.version + 1))
    && rk in st.latest && st.latest[rk] == vk.version + 1
    && 1 in st.objects && OfVersion(st.objects[1], vk) && !InFlight(st.objects[1])
    && 2 in st.objects && OfVersion(st.objects[2], vk) && InFlight(st.objects[2])
  }

  lemma PushedRetained(st: Store, vk: VersionKey)
    requires Pushed(st, vk)
    ensures var st' := Retain(st, RoleKey(vk.job, vk.role), 1);
      SealedIn(st', vk) && 1 !in st'.objects && 2 in st'.objects
  {
    var rk, v := RoleKey(vk.job, vk.role), vk.version;
    SealedIff(st, rk, v);
    SealedIff(st, rk, v + 1);
    assert v + 1 in Newer(SealedVersions(st, rk), v);
    assert v in Outdated(st, rk, 1);
    SurvivesIff(st, rk, 1, v);
    ErasedExactly(st, rk, 1, 1);
    ErasedExactly(st, rk, 1, 2);
    SealedIff(Retain(st, rk, 1), rk, v);
  }

  lemma NextPushed(c: SealConfig, st: Store, vk: VersionKey)
    requires HalfRead(st, vk)
    ensures Pushed(Promoted(st, c, NextSeal(vk)), vk)
  {
  }

  lemma NextIs(c: SealConfig, st: Store, vk: VersionKey)
    requires HalfRead(st, vk)
    ensures Seal(st, c, NextSeal(vk), [])
      == Retain(Promoted(st, c, NextSeal(vk)), RoleKey(vk.job, vk.role), c.keep)
  {
  }

  lemma NextLeads(c: SealConfig, st: Store, vk: VersionKey) returns (st': Store)
    requires c.keep == 1 && HalfRead(st, vk)
    ensures Leads(c, st, ASeal(NextSeal(vk), []), st') && SealedIn(st', vk) && 1 !in st'.objects && 2 in st'.objects
  {
    NextIs(c, st, vk);
    NextPushed(c, st, vk);
    PushedRetained(Promoted(st, c, NextSeal(vk)), vk);
    st' := Seal(st, c, NextSeal(vk), []);
  }

  /** The next version is promoted: the old one stays sealed because a tensor of it is read, and loses the other. */
  lemma SurvivorLosesIdleObjects(c: SealConfig, k: Key, k2: Key) returns (tr: seq<Store>, acts: seq<Act>)
    requires c.keep == 1 && k2 == k.(param := k2.param) && k2.param != k.param
    ensures Run(c, tr, acts) && |acts| > 0
    ensures var st, st', vk := tr[|acts| - 1], tr[|acts|], VersionOf(k);
      && SealedIn(st, vk) && 1 in st.manifests[vk].members && 1 in st.objects
      && SealedIn(st', vk) && 1 !in st'.objects
  {
    tr, acts := TwoTensorsRun(c, k, k2);
    var st' := NextLeads(c, tr[|acts|], VersionOf(k));
    tr, acts := Extend(c, tr, acts, ASeal(NextSeal(VersionOf(k)), []), st');
  }
}

/**
 The canonical object store: deduplicated tensors of model versions, the ranks
 that hold them, the transfers that read them, and the sealed manifests. One
 function per critical section; a request that releases the mutex is split into
 the sections before and after. Object states that no section assigns are left
 out of the state type.
 */
module CanonicalStore {
  import opened CanonicalKey

  datatype ObjState = Creating | ValidPinned | ValidPageable | ValidNvme | ValidMultiTier | Sealed | ExportInFlight

  datatype Hash = Hash(lo: nat, hi: nat)

  datatype MaybeRank = NoRank | Rank(rank: nat)

  datatype Obj = Obj(
    key: Key, ks: string, nbytes: nat, state: ObjState,
    holders: set<nat>, refcount: nat, exports: nat, restores: nat,
    hash: Hash, creator: MaybeRank, lease: nat)

  datatype VersionKey = VersionKey(job: JobUid, role: nat, version: nat)

  datatype RoleKey = RoleKey(job: JobUid, role: nat)

  datatype ManifestState = ManifestSealed | ManifestError

  datatype Manifest = Manifest(state: ManifestState, members: seq<nat>, total: nat, hash: Hash)

  /** A creation whose reservation runs: the object id is taken, the object not yet in the table. */
  datatype Pending = Pending(id: nat, rank: nat, key: Key, ks: string)

  /**
   `jobs` holds each registered job's object count, `alive` the ranks with a live session, `creates`
   and `pulls` the requests of threads that are between two of their critical sections.
   */
  datatype Store = Store(
    objects: map<nat, Obj>,
    byKey: map<string, nat>,
    jobs: map<JobUid, nat>,
    manifests: map<VersionKey, Manifest>,
    latest: map<RoleKey, nat>,
    alive: set<nat>,
    nextObject: nat,
    creates: map<nat, Pending>,
    pulls: map<nat, nat>)

  // ---------------------------------------------------------------- lookups

  predicate InFlight(o: Obj) { o.exports > 0 || o.restores > 0 }

  predicate OfVersion(o: Obj, vk: VersionKey) {
    o.key.job == vk.job && o.key.role == vk.role && o.key.version == vk.version
  }

  function VersionOf(k: Key): VersionKey { VersionKey(k.job, k.role, k.version) }

  predicate SealedIn(st: Store, vk: VersionKey) {
    vk in st.manifests && st.manifests[vk].state == ManifestSealed
  }

  // ---------------------------------------------------------------- removal

  function InJob(objects: map<nat, Obj>, ids: set<nat>, job: JobUid): set<nat> {
    set id | id in ids && id in objects && objects[id].key.job == job
  }

  function KeysOf(objects: map<nat, Obj>, ids: set<nat>): set<string> {
    set id | id in ids && id in objects :: objects[id].ks
  }

  function Monus(a: nat, b: nat): nat { if a < b then 0 else a - b }

  function IndexWithout(byKey: map<string, nat>, m: map<nat, Obj>, ids: set<nat>): map<string, nat> {
    map ks | ks in byKey && ks !in KeysOf(m, ids) :: byKey[ks]
  }

  function CountsWithout(jobs: map<JobUid, nat>, m: map<nat, Obj>, ids: set<nat>): map<JobUid, nat> {
    map j | j in jobs :: Monus(jobs[j], |InJob(m, ids, j)|)
  }

  /** Table, key index and job counters after the objects `ids` are erased. */
  function Remove(st: Store, ids: set<nat>): Store {
    st.(objects := st.objects - ids,
        byKey := IndexWithout(st.byKey, st.objects, ids),
        jobs := CountsWithout(st.jobs, st.objects, ids))
  }

  /** An object that the last holder leaves is erased when no transfer reads it. */
  function Unheld(o: Obj, rank: nat): Obj {
    o.(holders := o.holders - {rank}, refcount := |o.holders - {rank}|)
  }

  function Freed(st: Store, rank: nat, ids: set<nat>): set<nat> {
    set id | id in ids && id in st.objects && st.objects[id].holders == {rank} && !InFlight(st.objects[id])
  }

  /** `rank` gives up its hold on each object of `ids`. */
  function DropHolds(st: Store, rank: nat, ids: set<nat>): Store {
    Remove(st.(objects := map id | id in st.objects ::
                 if id in ids && rank in st.objects[id].holders then Unheld(st.objects[id], rank) else st.objects[id]),
           Freed(st, rank, ids))
  }

  /** Erase `id` if nobody holds it and nothing reads it. */
  function MaybeFree(st: Store, id: nat): Store {
    if id in st.objects && st.objects[id].holders == {} && !InFlight(st.objects[id]) then Remove(st, {id}) else st
  }

  // ------------------------------------------------------- jobs and sessions

  function RegisterJob(st: Store, job: JobUid): Store {
    if job in st.jobs then st else st.(jobs := st.jobs[job := 0])
  }

  function Arrive(st: Store, rank: nat): Store {
    st.(alive := st.alive + {rank})
  }

  /** A session ends: its rank no longer holds anything. */
  function Depart(st: Store, rank: nat): Store {
    DropHolds(st, rank, st.objects.Keys).(alive := st.alive - {rank})
  }

  // --------------------------------------------------------- attach or create

  datatype EvictRequest = EvictRequest(rank: nat, key: Key, attach: bool, verify: bool, duplicate: bool, create: bool)

  datatype Decision = Refuse | AttachTo(id: nat) | WaitFor(id: nat) | Candidate(id: nat) | Create

  function Decide(st: Store, q: EvictRequest, ks: string): Decision {
    if q.rank !in st.alive || q.key.job !in st.jobs || SealedIn(st, VersionOf(q.key)) then Refuse
    else if ks in st.byKey && st.byKey[ks] in st.objects then
      var id := st.byKey[ks];
      var o := st.objects[id];
      if o.nbytes != q.key.nbytes then Refuse
      else if o.state != Creating then
        if !q.attach then Refuse else if q.verify then Candidate(id) else AttachTo(id)
      else if q.duplicate then Candidate(id) else WaitFor(id)
    else if q.create then Create else Refuse
  }

  function Attach(st: Store, rank: nat, id: nat): Store
    requires id in st.objects
  {
    st.(objects := st.objects[id := Attached(st.objects[id], rank)])
  }

  /** First section of an evict by thread `th`: attach, or take an id for a candidate or a creation. */
  function Evict(st: Store, th: nat, q: EvictRequest, ks: string): Store {
    var d := Decide(st, q, ks);
    if th in st.creates then st
    else if d.AttachTo? then if d.id in st.objects then Attach(st, q.rank, d.id) else st
    else if d.Candidate? || d.Create? then
      st.(nextObject := st.nextObject + 1,
          creates := if d.Create? then st.creates[th := Pending(st.nextObject, q.rank, q.key, ks)] else st.creates)
    else st
  }

  function NewObject(p: Pending, lease: nat): Obj {
    Obj(p.key, p.ks, p.key.nbytes, Creating, {p.rank}, 1, 0, 0, Hash(0, 0), Rank(p.rank), lease)
  }

  /** Last section of a creation: the reservation succeeded (with `lease`) or failed. */
  function FinishCreate(st: Store, th: nat, reserved: bool, lease: nat): Store {
    if th !in st.creates then st
    else
      var p := st.creates[th];
      var counted := reserved && p.key.job in st.jobs;
      st.(creates := st.creates - {th},
          objects := if reserved then st.objects[p.id := NewObject(p, lease)] else st.objects,
          byKey := if reserved then st.byKey[p.ks := p.id] else st.byKey,
          jobs := if counted then st.jobs[p.key.job := st.jobs[p.key.job] + 1] else st.jobs)
  }

  // ------------------------------------------------------------------ commit

  datatype Tier = NoTier | PinnedTier | PageableTier | NvmeTier

  function TierState(t: Tier): ObjState {
    match t case PageableTier => ValidPageable case NvmeTier => ValidNvme case _ => ValidPinned
  }

  predicate HashMatters(h: Hash) { h.lo != 0 || h.hi != 0 }

  predicate HashOk(o: Obj, h: Hash) {
    HashMatters(o.hash) && HashMatters(h) ==> o.hash == h
  }

  predicate IsCreator(o: Obj, lease: nat) { o.state == Creating && o.lease == lease }

  function Attached(o: Obj, rank: nat): Obj {
    o.(holders := o.holders + {rank}, refcount := |o.holders + {rank}|)
  }

  /** Creator: publish once the bytes are somewhere. Anyone else: attach to a valid object. */
  function Committed(o: Obj, rank: nat, lease: nat, h: Hash, tier: Tier): Obj {
    if IsCreator(o, lease) then
      if tier == NoTier then o else o.(hash := h, state := TierState(tier), creator := NoRank)
    else if o.state == Creating || !HashOk(o, h) then o
    else Attached(o, rank)
  }

  function Commit(st: Store, rank: nat, id: nat, lease: nat, h: Hash, tier: Tier): Store {
    if rank !in st.alive || id !in st.objects then st
    else st.(objects := st.objects[id := Committed(st.objects[id], rank, lease, h, tier)])
  }

  // --------------------------------------------------------------- releases

  /** Release one object, or (id 0) all of a version that the rank holds. */
  function ReleaseIds(st: Store, vk: VersionKey, id: nat): set<nat> {
    if id != 0 then {id} else set i | i in st.objects && OfVersion(st.objects[i], vk)
  }

  function ReleaseCanonical(st: Store, rank: nat, vk: VersionKey, id: nat): Store {
    if rank !in st.alive || vk.job !in st.jobs then st else DropHolds(st, rank, ReleaseIds(st, vk, id))
  }

  // -------------------------------------------------------------- transfers

  predicate CanPull(st: Store, vk: VersionKey, id: nat) {
    && vk.job in st.jobs && SealedIn(st, vk)
    && id in st.objects && st.objects[id].state == Sealed && id in st.manifests[vk].members
  }

  /** A pull takes its export hold. */
  function PullBegin(st: Store, th: nat, vk: VersionKey, id: nat): Store {
    if th in st.pulls || !CanPull(st, vk, id) then st
    else
      var o := st.objects[id];
      st.(objects := st.objects[id := o.(exports := o.exports + 1, state := ExportInFlight)],
          pulls := st.pulls[th := id])
  }

  function Unstaged(o: Obj): Obj {
    o.(exports := Monus(o.exports, 1), state := Sealed)
  }

  /** Staging failed: the hold goes, the free is not tried again. */
  function PullFail(st: Store, th: nat): Store {
    if th !in st.pulls then st
    else
      var id := st.pulls[th];
      st.(pulls := st.pulls - {th},
          objects := if id in st.objects then st.objects[id := Unstaged(st.objects[id])] else st.objects)
  }

  function Unexported(o: Obj): Obj {
    o.(exports := Monus(o.exports, 1), state := if o.exports <= 1 then Sealed else o.state)
  }

  function PullEnd(st: Store, th: nat): Store {
    if th !in st.pulls then st
    else
      var id := st.pulls[th];
      MaybeFree(st.(pulls := st.pulls - {th},
                    objects := if id in st.objects
                      then st.objects[id := Unexported(st.objects[id])] else st.objects), id)
  }

  function Granted(o: Obj, warmed: bool): Obj {
    o.(restores := o.restores + 1, state := if warmed then ValidMultiTier else o.state)
  }

  /** A restore is granted; `warmed` if it brought the bytes back into pinned memory. */
  function RestoreGrant(st: Store, id: nat, warmed: bool): Store {
    if id !in st.objects || st.objects[id].state == Creating then st
    else
      var o := st.objects[id];
      st.(objects := st.objects[id := Granted(o, warmed)])
  }

  function RestoreRelease(st: Store, id: nat): Store {
    if id !in st.objects then st
    else
      var o := st.objects[id];
      MaybeFree(st.(objects := st.objects[id := o.(restores := Monus(o.restores, 1))]), id)
  }

  // ---------------------------------------------------------------- versions

  function Idle(st: Store, vk: VersionKey): set<nat> {
    set id | id in st.objects && OfVersion(st.objects[id], vk) && !InFlight(st.objects[id])
  }

  function DropVersion(st: Store, vk: VersionKey): Store {
    if vk.job !in st.jobs then st
    else
      var rk := RoleKey(vk.job, vk.role);
      Remove(st, Idle(st, vk)).(
        manifests := st.manifests - {vk},
        latest := if rk in st.latest && st.latest[rk] == vk.version then st.latest - {rk} else st.latest)
  }

  function SealedVersions(st: Store, rk: RoleKey): set<nat> {
    set vk | vk in st.manifests && vk.job == rk.job && vk.role == rk.role
             && st.manifests[vk].state == ManifestSealed :: vk.version
  }

  function Newer(vs: set<nat>, v: nat): set<nat> { set u | u in vs && u > v }

  function LatestOf(st: Store, rk: RoleKey): nat { if rk in st.latest then st.latest[rk] else 0 }

  /** Sealed versions that `keep` newer ones push out of the retention window. */
  function Outdated(st: Store, rk: RoleKey, keep: nat): set<nat> {
    set v | v in SealedVersions(st, rk) && |Newer(SealedVersions(st, rk), v)| >= keep && v != LatestOf(st, rk)
  }

  predicate Busy(st: Store, vk: VersionKey) {
    exists id :: id in st.objects && OfVersion(st.objects[id], vk) && InFlight(st.objects[id])
  }

  function IdleOf(st: Store, rk: RoleKey, vs: set<nat>): set<nat> {
    set id | id in st.objects && st.objects[id].key.job == rk.job && st.objects[id].key.role == rk.role
             && st.objects[id].key.version in vs && !InFlight(st.objects[id])
  }

  /** Retire the versions `vs`: idle objects go, and the manifest with them unless a transfer remains. */
  function Retire(st: Store, rk: RoleKey, vs: set<nat>): Store {
    Remove(st, IdleOf(st, rk, vs)).(
      manifests := map vk | vk in st.manifests && !(vk.job == rk.job && vk.role == rk.role && vk.version in vs
                                                    && !Busy(st, vk)) :: st.manifests[vk])
  }

  function Retain(st: Store, rk: RoleKey, keep: nat): Store {
    if keep == 0 then st else Retire(st, rk, Outdated(st, rk, keep))
  }

  // -------------------------------------------------------------------- seal

  datatype SealRequest = SealRequest(vk: VersionKey, expected: seq<nat>, failIfMissing: bool, promote: bool)

  /** Configuration of sealing; `mix` is the hash step, of which nothing is assumed. */
  datatype SealConfig = SealConfig(requireAll: bool, keep: nat, seed: Hash, mix: (Hash, nat) -> Hash)

  function Members(st: Store, vk: VersionKey): set<nat> {
    set id | id in st.objects && OfVersion(st.objects[id], vk) && st.objects[id].state != Creating
  }

  /** A tensor of the version is still being created, or an expected one has no member. */
  predicate Incomplete(st: Store, q: SealRequest) {
    || (exists id :: id in st.objects && OfVersion(st.objects[id], q.vk) && st.objects[id].state == Creating)
    || (exists i :: 0 <= i < |q.expected| && !Covered(st, q.vk, q.expected[i]))
  }

  predicate Covered(st: Store, vk: VersionKey, param: nat) {
    exists id :: id in Members(st, vk) && st.objects[id].key.param == param
  }

  /** The elements of a finite set in ascending order. */
  ghost function Ascending(s: set<nat>): seq<nat>
    decreases |s|
  {
    if s == {} then []
    else
      var m := Least(s);
      [m] + Ascending(s - {m})
  }

  predicate Strictly(q: seq<nat>) { forall i, j | 0 <= i < j < |q| :: q[i] < q[j] }

  function Elements(q: seq<nat>): set<nat> { set x | x in q }

  lemma {:induction false} AscendingIs(s: set<nat>)
    ensures Strictly(Ascending(s)) && Elements(Ascending(s)) == s
    decreases |s|
  {
    if s != {} {
      AscendingIs(s - {Least(s)});
      ConsStrict(Least(s), Ascending(s - {Least(s)}));
    }
  }

  lemma ConsStrict(m: nat, q: seq<nat>)
    requires Strictly(q) && forall x | x in Elements(q) :: m < x
    ensures Strictly([m] + q) && Elements([m] + q) == {m} + Elements(q)
  {
    forall i | 0 <= i < |q| ensures m < q[i] {
      assert q[i] in Elements(q);
    }
  }

  ghost function Least(s: set<nat>): (m: nat)
    requires s != {}
    ensures IsLeast(m, s)
  {
    LeastExists(s);
    var m :| IsLeast(m, s);
    m
  }

  ghost predicate IsLeast(m: nat, s: set<nat>) { m in s && forall x | x in s :: m <= x }

  lemma {:induction false} LeastExists(s: set<nat>)
    requires s != {}
    ensures exists m :: IsLeast(m, s)
    decreases |s|
  {
    var y :| y in s;
    if s == {y} {
      assert IsLeast(y, s);
    } else {
      var r := s - {y};
      LeastExists(r);
      var m :| IsLeast(m, r);
      assert s == r + {y};
      assert IsLeast(if y < m then y else m, s);
    }
  }

  function MixMember(c: SealConfig, h: Hash, id: nat, o: Obj): Hash {
    c.mix(c.mix(c.mix(c.mix(h, id), o.hash.lo), o.hash.hi), o.nbytes)
  }

  function MixAll(c: SealConfig, objects: map<nat, Obj>, ids: seq<nat>): Hash
    decreases |ids|
  {
    if ids == [] then c.seed
    else
      var last := ids[|ids| - 1];
      var h := MixAll(c, objects, ids[..|ids| - 1]);
      if last in objects then MixMember(c, h, last, objects[last]) else h
  }

  function TotalBytes(objects: map<nat, Obj>, ids: seq<nat>): nat
    decreases |ids|
  {
    if ids == [] then 0
    else TotalBytes(objects, ids[..|ids| - 1])
         + (if ids[|ids| - 1] in objects then objects[ids[|ids| - 1]].nbytes else 0)
  }

  /** The manifest of exactly the member set, whatever order it was gathered in. */
  ghost function SealedManifest(st: Store, c: SealConfig, vk: VersionKey): Manifest {
    var ids := Ascending(Members(st, vk));
    Manifest(ManifestSealed, ids, TotalBytes(st.objects, ids), MixAll(c, st.objects, ids))
  }

  function FailedManifest(st: Store, gathered: seq<nat>): Manifest {
    Manifest(ManifestError, gathered, TotalBytes(st.objects, gathered), Hash(0, 0))
  }

  predicate SealFails(st: Store, c: SealConfig, q: SealRequest) {
    c.requireAll && q.failIfMissing && Incomplete(st, q)
  }

  function Freeze(st: Store, vk: VersionKey): map<nat, Obj> {
    map id | id in st.objects :: if id in Members(st, vk) then st.objects[id].(state := Sealed) else st.objects[id]
  }

  ghost function Publish(st: Store, c: SealConfig, q: SealRequest): Store {
    var st1 := st.(objects := Freeze(st, q.vk), manifests := st.manifests[q.vk := SealedManifest(st, c, q.vk)]);
    if !q.promote then st1
    else
      var rk := RoleKey(q.vk.job, q.vk.role);
      Retain(st1.(latest := st1.latest[rk := q.vk.version]), rk, c.keep)
  }

  /** A failed seal records the members in the order `gathered`, which is the table's own. */
  ghost function Seal(st: Store, c: SealConfig, q: SealRequest, gathered: seq<nat>): Store {
    if q.vk.job !in st.jobs || SealedIn(st, q.vk) then st
    else if SealFails(st, c, q) then st.(manifests := st.manifests[q.vk := FailedManifest(st, gathered)])
    else Publish(st, c, q)
  }
}

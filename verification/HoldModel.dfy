/**
 Slot table and canonical store together, as far as the runs that canonical
 objects live in are concerned: creation, commit, release of a freed object's
 run, and restores, which hand out the address of a pinned run and keep it
 there until the reader is done.
 */
module HoldModel {
  import opened SlotTable
  import opened DaemonState
  import opened DaemonInv
  import D = Durability
  import opened CanonicalStore
  import R = CanonicalRuns

  // ------------------------------------------------------------- tensor ids

  const TID_BIT: nat := 0x8000_0000_0000_0000
  const CANDIDATE_BIT: nat := 0x4000_0000_0000_0000

  /** The tensor id under which object `id` uses the v1 tables. */
  function Tid(id: nat): nat { TID_BIT + id }

  /** Ids of plain tensors lie below the range of object ids, those of candidates above. */
  predicate ObjTid(t: nat) { TID_BIT <= t < TID_BIT + CANDIDATE_BIT }

  // ------------------------------------------------------------------ state

  /** A thread that reads a cold object back into a run of its own; `tag` names the run. */
  datatype Warmer = Warmer(id: nat, tag: nat, data: seq<Piece>, filled: nat)

  /** A granted restore of object `id` whose reader uses the run tagged `tag`. */
  datatype Hold = Hold(id: nat, tag: nat)

  /** `base` is each object's recorded base slot. */
  datatype World = World(
    d: Daemon, g: Grants, st: Store, base: map<nat, nat>, warmers: map<nat, Warmer>, holds: map<nat, Hold>)

  // ----------------------------------------------- effects on the slot table

  /** What freeing an object does to the v1 tables. */
  function ReleaseBacking(d: Daemon, t: nat, base: nat, count: nat, lease: nat): Daemon {
    var d1 := d.(leases := d.leases - {lease});
    if t !in d.locations then d1
    else
      var loc := d.locations[t];
      var d2 := d1.(locations := d.locations - {t},
                    cold := if loc.kind != LocPinned && loc.cold != 0 then d.cold - {loc.cold} else d.cold);
      if loc.kind == LocPinned && StateAt(d.slots, base) == PinnedValid then FreeSlots(d2, base, count) else d2
  }

  /** Release the runs of erased objects, in the order in which they are erased. */
  function ReleaseAll(d: Daemon, objects: map<nat, Obj>, base: map<nat, nat>, order: seq<nat>): Daemon
    requires d.cfg.gran > 0
    decreases |order|
  {
    if order == [] then d
    else
      var id := order[0];
      var d1 := if id in objects && id in base
        then ReleaseBacking(d, Tid(id), base[id], SlotsFor(d.cfg.gran, objects[id].nbytes), objects[id].lease) else d;
      if d1.cfg.gran > 0 then ReleaseAll(d1, objects, base, order[1..]) else d1
  }

  /** Discard a candidate's run, location and lease. */
  function Discard(d: Daemon, lease: nat): Daemon {
    if lease !in d.leases then d
    else
      var L := d.leases[lease];
      var st := StateAt(d.slots, L.base);
      var d1 := d.(leases := d.leases - {lease}, locations := d.locations - {L.tensor});
      if st == PinnedValid || st == ReservedD2H || st == D2HInFlight then FreeSlots(d1, L.base, L.count) else d1
  }

  /** Bind a free run to a cold object that is being read back. */
  function WarmLease(w: World, id: nat, at: nat): Lease
    requires w.d.cfg.gran > 0 && id in w.st.objects
  {
    var n := w.st.objects[id].nbytes;
    Lease(at, SlotsFor(w.d.cfg.gran, n), Tid(id), 1, 0, 0, n)
  }

  function Taken(d: Daemon, L: Lease): Daemon {
    d.(slots := Stamp(d.slots, d.nextLease, L, ReadbackInFlight, d.cfg.gran),
       nextLease := d.nextLease + 1, used := d.used + L.count * d.cfg.gran)
  }

  // ---------------------------------------------------------------- actions

  datatype Action =
    | Plain(a: D.Action)                                          // a section or IO step of the v1 machine
    | Table(act: R.Act, order: seq<nat>)                          // a section of the store that gives out no run
    | CreateRun(th: nat, rank: nat, epoch: nat, at: nat)          // a creation gets its run
    | CommitObject(rank: nat, id: nat, lease: nat, h: Hash, tier: Tier)
    | Hit(token: nat, id: nat)                                    // restore of a resident object
    | WarmBegin(th: nat, id: nat, at: nat)                        // restore of a cold one, up to its IO
    | WarmFill(th: nat)
    | WarmFail(th: nat)
    | WarmCommit(th: nat, token: nat)
    | EndHold(token: nat, order: seq<nat>)

  predicate UnderCreation(st: Store, t: nat) {
    ObjTid(t) && t - TID_BIT in st.objects && st.objects[t - TID_BIT].state == Creating
  }

  /** A forced drain passes over objects that are being created or read. */
  predicate Protected(st: Store, t: nat) {
    ObjTid(t) && t - TID_BIT in st.objects
    && (InFlight(st.objects[t - TID_BIT]) || st.objects[t - TID_BIT].state == Creating)
  }

  ghost function PlainStep(w: World, a: D.Action): D.Sys
    requires w.d.cfg.gran > 0
  {
    if a.DoComplete? then D.Sys(Complete(w.d, a.c, UnderCreation(w.st, a.c.tensor)), w.g)
    else D.Apply(D.Sys(w.d, w.g), a)
  }

  predicate CanHit(w: World, id: nat) {
    && id in w.st.objects && w.st.objects[id].state != Creating
    && Tid(id) in w.d.locations && w.d.locations[Tid(id)].kind == LocPinned
    && StateAt(w.d.slots, w.d.locations[Tid(id)].slot) == PinnedValid
    && w.d.locations[Tid(id)].slot < |w.d.slots|
  }

  predicate CanWarm(w: World, id: nat) {
    && id in w.st.objects && w.st.objects[id].state != Creating
    && Tid(id) in w.d.locations
    && (w.d.locations[Tid(id)].kind == LocPageable || w.d.locations[Tid(id)].kind == LocNvme)
    && w.d.locations[Tid(id)].cold in w.d.cold
  }

  ghost function ApplyPlain(w: World, a: D.Action): World
    requires w.d.cfg.gran > 0
  {
    w.(d := PlainStep(w, a).d, g := PlainStep(w, a).g)
  }

  ghost function ApplyTable(c: SealConfig, w: World, act: R.Act, order: seq<nat>): World
    requires w.d.cfg.gran > 0
  {
    w.(d := ReleaseAll(w.d, w.st.objects, w.base, order), st := R.Apply(c, w.st, act))
  }

  predicate CommitsCandidate(w: World, rank: nat, id: nat, lease: nat) {
    rank in w.st.alive && id in w.st.objects && !IsCreator(w.st.objects[id], lease)
  }

  function ApplyCommit(w: World, rank: nat, id: nat, lease: nat, h: Hash, tier: Tier): World {
    w.(d := if CommitsCandidate(w, rank, id, lease) then Discard(w.d, lease) else w.d,
       st := Commit(w.st, rank, id, lease, h, tier))
  }

  function ApplyHit(w: World, token: nat, id: nat): World {
    if token in w.holds || !CanHit(w, id) then w
    else w.(st := RestoreGrant(w.st, id, false),
            holds := w.holds[token := Hold(id, w.d.slots[w.d.locations[Tid(id)].slot].lease)])
  }

  function ApplyEnd(w: World, token: nat, order: seq<nat>): World
    requires w.d.cfg.gran > 0
  {
    if token !in w.holds then w
    else w.(d := ReleaseAll(w.d, w.st.objects, w.base, order),
            st := RestoreRelease(w.st, w.holds[token].id), holds := w.holds - {token})
  }

  ghost function ApplyCreate(w: World, th: nat, rank: nat, epoch: nat, at: nat): World
    requires w.d.cfg.gran > 0
  {
    if th !in w.st.creates || !RunFree(w.d.slots, at, SlotsFor(w.d.cfg.gran, w.st.creates[th].key.nbytes)) then w
    else
      var p := w.st.creates[th];
      w.(d := Reserve(w.d, rank, epoch, Tid(p.id), 1, p.key.nbytes, at),
         g := GrantsAfter(w.d, w.g, rank, epoch, Tid(p.id), 1, p.key.nbytes, at),
         st := FinishCreate(w.st, th, true, w.d.nextLease),
         base := w.base[p.id := at])
  }

  ghost function ApplyWarmBegin(w: World, th: nat, id: nat, at: nat): World
    requires w.d.cfg.gran > 0
  {
    if th in w.warmers || !CanWarm(w, id) || !RunFree(w.d.slots, at, WarmLease(w, id, at).count) then w
    else
      var L := WarmLease(w, id, at);
      w.(d := Taken(w.d, L),
         g := w.g[w.d.nextLease := L],
         warmers := w.warmers[th := Warmer(id, w.d.nextLease, w.d.cold[w.d.locations[Tid(id)].cold].data, 0)])
  }

  predicate CanFill(d: Daemon, g: Grants, r: Warmer) {
    r.tag in g && r.filled < g[r.tag].count && r.filled < |r.data| && g[r.tag].base + r.filled < |d.arena|
  }

  /** Memory after one more piece was read back. */
  function Filled(d: Daemon, g: Grants, r: Warmer): Daemon
    requires CanFill(d, g, r)
  {
    d.(arena := d.arena[g[r.tag].base + r.filled := r.data[r.filled]])
  }

  ghost function ApplyWarmFill(w: World, th: nat): World {
    if th in w.warmers && CanFill(w.d, w.g, w.warmers[th]) then
      w.(d := Filled(w.d, w.g, w.warmers[th]),
         warmers := w.warmers[th := w.warmers[th].(filled := w.warmers[th].filled + 1)])
    else w
  }

  ghost function ApplyWarmFail(w: World, th: nat): World {
    if th !in w.warmers || w.warmers[th].tag !in w.g then w
    else
      var L := w.g[w.warmers[th].tag];
      w.(d := FreeSlots(w.d, L.base, L.count), warmers := w.warmers - {th})
  }

  /** The bytes are back: the run becomes the object's residency, and the restore is granted. */
  ghost function ApplyWarmCommit(w: World, th: nat, token: nat): World {
    if th !in w.warmers || token in w.holds || w.warmers[th].tag !in w.g then w
    else
      var r := w.warmers[th];
      var L := w.g[r.tag];
      var was := if Tid(r.id) in w.d.locations then w.d.locations[Tid(r.id)] else Location(0, LocNone, 0, 0, 0);
      w.(d := w.d.(slots := SetState(w.d.slots, L.base, L.count, PinnedValid),
                   locations := w.d.locations[Tid(r.id) := was.(kind := LocPinned, slot := L.base,
                     nbytes := L.nbytes)]),
         st := RestoreGrant(w.st, r.id, true),
         base := w.base[r.id := L.base],
         warmers := w.warmers - {th},
         holds := w.holds[token := Hold(r.id, r.tag)])
  }

  ghost function Apply(c: SealConfig, w: World, a: Action): World
    requires w.d.cfg.gran > 0
  {
    match a
    case Plain(p) => ApplyPlain(w, p)
    case Table(act, order) => ApplyTable(c, w, act, order)
    case CreateRun(th, rank, epoch, at) => ApplyCreate(w, th, rank, epoch, at)
    case CommitObject(rank, id, lease, h, tier) => ApplyCommit(w, rank, id, lease, h, tier)
    case Hit(token, id) => ApplyHit(w, token, id)
    case WarmBegin(th, id, at) => ApplyWarmBegin(w, th, id, at)
    case WarmFill(th) => ApplyWarmFill(w, th)
    case WarmFail(th) => ApplyWarmFail(w, th)
    case WarmCommit(th, token) => ApplyWarmCommit(w, th, token)
    case EndHold(token, order) => ApplyEnd(w, token, order)
  }

  // ------------------------------------------------------------ environment

  /** Every object that the section erases is released, each once. */
  ghost predicate Erases(st: Store, st': Store, order: seq<nat>) {
    && (forall i, j | 0 <= i < j < |order| :: order[i] != order[j])
    && (forall id :: id in order <==> id in st.objects && id !in st'.objects)
  }

  /** Sections that neither create, commit nor touch a restore count. */
  predicate Ordinary(a: R.Act) {
    !(a.AFinishCreate? && a.reserved) && !a.ACommit? && !a.AGrant? && !a.ARestoreRelease?
  }

  ghost predicate TableEnabled(c: SealConfig, w: World, act: R.Act, order: seq<nat>) {
    R.Enabled(w.st, act) && Ordinary(act) && Erases(w.st, R.Apply(c, w.st, act), order)
  }

  /** All the bytes are back. */
  predicate ReadBackDone(w: World, r: Warmer) { r.tag in w.g && r.filled == w.g[r.tag].count }

  predicate ReadyToCommit(w: World, r: Warmer) { r.id in w.st.objects && ReadBackDone(w, r) }

  ghost predicate PlainEnabled(w: World, a: D.Action) {
    && D.Enabled(D.Sys(w.d, w.g), a)
    && (a.DoReserve? ==> !ObjTid(a.tensor))
    && (a.DoRelease? && a.lease in w.d.leases ==> !ObjTid(w.d.leases[a.lease].tensor))
    && (a.DoForceBegin? && a.lease in w.d.leases ==> !Protected(w.st, w.d.leases[a.lease].tensor))
  }

  /**
   What is taken for granted, besides what either machine takes for granted on its own. Object ids stay
   below the candidate bit, and plain reservations do not use the tensor ids of objects. Agents do not
   release the lease of a canonical object through the plain ReleaseLease call, and a commit that is
   not the creator's names a candidate's lease. Every restore release matches a grant (`Ordinary` admits
   no other): `RestoreHold.SpareReleaseIff` says what one without a grant does. A restore that had to
   read its object back finds the object still in the table when it has the mutex again: the code does
   not look, and `RestoreHold.WarmCommitHoldsIff` says what happens when it is not. The retries of a
   restore that makes room by forced drains also release the mutex; they are taken as atomic with it: the
   request is one section from the lookup of the cold copy to the binding of the run.
   */
  ghost predicate Enabled(c: SealConfig, w: World, a: Action)
    requires w.d.cfg.gran > 0
  {
    w.st.nextObject < CANDIDATE_BIT &&
    match a
    case Plain(p) => PlainEnabled(w, p)
    case Table(act, order) => TableEnabled(c, w, act, order)
    case CreateRun(th, rank, epoch, at) => R.Enabled(w.st, R.AFinishCreate(th, true, 0))
    case CommitObject(rank, id, lease, h, tier) =>
      CommitsCandidate(w, rank, id, lease) && lease in w.d.leases ==> !ObjTid(w.d.leases[lease].tensor)
    case WarmCommit(th, token) => th in w.warmers ==> ReadyToCommit(w, w.warmers[th])
    case EndHold(token, order) =>
      token in w.holds ==> Erases(w.st, RestoreRelease(w.st, w.holds[token].id), order)
    case _ => true
  }
}

/**
 From a granted restore until its release, the run that was handed out stays
 pinned with the object's bytes in it, and the object stays in the table,
 whatever forced drains, drops, retention, releases, other restores and rank
 deaths come in between.
 */
module RestoreHold {
  import opened SlotTable
  import opened DaemonState
  import opened DaemonInv
  import D = Durability
  import opened CanonicalStore
  import R = CanonicalRuns
  import opened HoldModel
  import opened HoldSteps
  import opened HoldInv
  import opened HoldFrames
  import opened HoldTransfers
  import opened HoldWarm

  // -------------------------------------------------------------------- runs

  ghost predicate Init(w: World) {
    && D.Init(D.Sys(w.d, w.g)) && w.d.nextCold > 0 && R.Init(w.st)
    && w.base == map[] && w.warmers == map[] && w.holds == map[]
  }

  ghost predicate StepAt(c: SealConfig, tr: seq<World>, acts: seq<Action>, i: nat)
    requires i < |acts| && |tr| == |acts| + 1
  {
    tr[i].d.cfg.gran > 0 && Enabled(c, tr[i], acts[i]) && tr[i + 1] == Apply(c, tr[i], acts[i])
  }

  ghost predicate Run(c: SealConfig, tr: seq<World>, acts: seq<Action>) {
    && |tr| == |acts| + 1 && Init(tr[0])
    && forall i: nat | i < |acts| :: StepAt(c, tr, acts, i)
  }

  lemma InitInv(w: World)
    requires Init(w)
    ensures WorldInv(w)
  {
    D.InitInv(D.Sys(w.d, w.g));
    R.InitOk(w.st);
  }

  lemma StepInv(c: SealConfig, w: World, a: Action)
    requires WorldInv(w) && Enabled(c, w, a)
    ensures WorldInv(Apply(c, w, a))
  {
    match a
    case Plain(p) => StepPlain(w, p);
    case Table(act, order) => StepTable(c, w, act, order);
    case CreateRun(th, rank, epoch, at) => StepCreate(w, th, rank, epoch, at);
    case CommitObject(rank, id, lease, h, tier) => StepCommit(w, rank, id, lease, h, tier);
    case Hit(token, id) => StepHit(w, token, id);
    case WarmBegin(th, id, at) => StepWarmBegin(w, th, id, at);
    case WarmFill(th) => StepWarmFill(w, th);
    case WarmFail(th) => StepWarmFail(w, th);
    case WarmCommit(th, token) => StepWarmCommit(w, th, token);
    case EndHold(token, order) => StepEndHold(w, token, order);
  }

  lemma NextInv(c: SealConfig, tr: seq<World>, acts: seq<Action>, n: nat)
    requires Run(c, tr, acts) && 0 < n < |tr| && WorldInv(tr[n - 1])
    ensures WorldInv(tr[n])
  {
    assert StepAt(c, tr, acts, n - 1);
    StepInv(c, tr[n - 1], acts[n - 1]);
  }

  lemma {:induction false} RunInv(c: SealConfig, tr: seq<World>, acts: seq<Action>, n: nat)
    requires Run(c, tr, acts) && n < |tr|
    ensures WorldInv(tr[n])
  {
    if n == 0 {
      InitInv(tr[0]);
    } else {
      RunInv(c, tr, acts, n - 1);
      NextInv(c, tr, acts, n);
    }
  }

  // ------------------------------------------------------------------- holds

  /** Only its own end takes a hold away. */
  lemma HoldKept(c: SealConfig, w: World, a: Action, token: nat)
    requires w.d.cfg.gran > 0 && token in w.holds && !(a.EndHold? && a.token == token)
    ensures var w' := Apply(c, w, a); token in w'.holds && w'.holds[token] == w.holds[token]
  {
    match a
    case Plain(p) =>
    case Table(act, order) =>
    case CreateRun(th, rank, epoch, at) =>
    case CommitObject(rank, id, lease, h, tier) =>
    case Hit(k, id) =>
    case WarmBegin(th, id, at) =>
    case WarmFill(th) =>
    case WarmFail(th) =>
    case WarmCommit(th, k) =>
    case EndHold(k, order) =>
  }

  /** The record of a run never changes. */
  lemma GrantKept(c: SealConfig, w: World, a: Action, tag: nat)
    requires CoreInv(w.d, w.g) && Enabled(c, w, a) && tag in w.g
    ensures var w' := Apply(c, w, a); tag in w'.g && w'.g[tag] == w.g[tag]
  {
    FreshLease(w.d, w.g);
    match a
    case Plain(p) => PlainGrants(w, p);
    case Table(act, order) =>
    case CreateRun(th, rank, epoch, at) =>
    case CommitObject(rank, id, lease, h, tier) =>
    case Hit(k, id) =>
    case WarmBegin(th, id, at) =>
    case WarmFill(th) =>
    case WarmFail(th) =>
    case WarmCommit(th, k) =>
    case EndHold(k, order) =>
  }

  /** Run `L` is pinned as a whole, carries its tags, and holds all the bytes of its tensor. */
  ghost predicate Pinned(d: Daemon, L: Lease) {
    && L.base + L.count <= |d.slots| == |d.arena|
    && (forall i | L.Covers(i) ::
          d.slots[i].state == PinnedValid && d.slots[i].tensor == L.tensor && d.slots[i].version == L.version)
    && d.arena[L.base..L.base + L.count] == Pieces(L.tensor, L.version, L.count)
  }

  /** What the reader of a granted restore relies on. */
  ghost predicate Resident(w: World, id: nat, L: Lease) {
    && id in w.st.objects && w.st.objects[id].restores > 0
    && L.tensor == Tid(id) && L.version == 1 && Pinned(w.d, L)
  }

  lemma RunIsPinned(d: Daemon, g: Grants, tag: nat)
    requires TableInv(d.slots, g) && MemInv(d.slots, d.arena, g) && Held(d.slots, g, tag)
    requires StateOf(d.slots, g, tag) == PinnedValid
    ensures Pinned(d, g[tag])
  {
    D.RunHoldsPieces(d.slots, d.arena, g, tag);
    forall i | g[tag].Covers(i) ensures SlotInv(d.slots, g, i) && d.slots[i].lease == tag {
      CoversIffTagged(d.slots, g, tag, i);
    }
  }

  lemma HeldIsResident(w: World, token: nat)
    requires WorldInv(w) && token in w.holds
    ensures w.holds[token].tag in w.g && Resident(w, w.holds[token].id, w.g[w.holds[token].tag])
  {
    var h := w.holds[token];
    HeldIsProtected(w, token);
    assert HoldOk(w.d, w.g, w.st.objects, h);
    VersionIsOne(w, h);
    RunIsPinned(w.d, w.g, h.tag);
  }

  lemma VersionIsOne(w: World, h: Hold)
    requires ObjRuns(w.d, w.g, w.st.objects, w.base) && HoldOk(w.d, w.g, w.st.objects, h)
    ensures w.g[h.tag].version == 1
  {
    var o := w.st.objects[h.id];
    assert ObjRun(w.d, w.g, Tid(h.id), o.nbytes, o.lease, w.base[h.id]);
  }

  /** Hold `h` of `token` and the record `L` of its run, as they were. */
  ghost predicate SameHold(w: World, token: nat, h: Hold, L: Lease) {
    token in w.holds && w.holds[token] == h && h.tag in w.g && w.g[h.tag] == L
  }

  lemma SameHoldStep(c: SealConfig, w: World, a: Action, token: nat, h: Hold, L: Lease)
    requires CoreInv(w.d, w.g) && Enabled(c, w, a) && SameHold(w, token, h, L)
    requires !(a.EndHold? && a.token == token)
    ensures SameHold(Apply(c, w, a), token, h, L)
  {
    HoldKept(c, w, a, token);
    GrantKept(c, w, a, h.tag);
  }

  lemma HoldNext(c: SealConfig, tr: seq<World>, acts: seq<Action>, n: nat, token: nat, h: Hold, L: Lease)
    requires Run(c, tr, acts) && 0 < n < |tr| && CoreInv(tr[n - 1].d, tr[n - 1].g) && SameHold(tr[n - 1], token, h, L)
    requires !(acts[n - 1].EndHold? && acts[n - 1].token == token)
    ensures SameHold(tr[n], token, h, L)
  {
    assert StepAt(c, tr, acts, n - 1);
    SameHoldStep(c, tr[n - 1], acts[n - 1], token, h, L);
  }

  lemma {:induction false} HoldStays(c: SealConfig, tr: seq<World>, acts: seq<Action>, i: nat, j: nat, token: nat,
                                     h: Hold, L: Lease)
    requires Run(c, tr, acts) && i <= j < |tr| && SameHold(tr[i], token, h, L)
    requires forall k | i <= k < j :: !(acts[k].EndHold? && acts[k].token == token)
    ensures SameHold(tr[j], token, h, L)
    decreases j
  {
    if i < j {
      HoldStays(c, tr, acts, i, j - 1, token, h, L);
      RunInv(c, tr, acts, j - 1);
      HoldNext(c, tr, acts, j, token, h, L);
    }
  }

  /**
   The restore hold: in every state from the grant until its release, the very run that was handed
   out is pinned, tagged with the object and full of its bytes, and the object is in the table.
   */
  lemma RestoreHeld(c: SealConfig, tr: seq<World>, acts: seq<Action>, i: nat, j: nat, token: nat)
    requires Run(c, tr, acts) && i <= j < |tr| && token in tr[i].holds
    requires forall k | i <= k < j :: !(acts[k].EndHold? && acts[k].token == token)
    ensures var h := tr[i].holds[token];
      h.tag in tr[i].g && Resident(tr[i], h.id, tr[i].g[h.tag]) && Resident(tr[j], h.id, tr[i].g[h.tag])
  {
    RunInv(c, tr, acts, i);
    HeldIsResident(tr[i], token);
    HoldStays(c, tr, acts, i, j, token, tr[i].holds[token], tr[i].g[tr[i].holds[token].tag]);
    RunInv(c, tr, acts, j);
    HeldIsResident(tr[j], token);
  }

  // ------------------------------------- what the guarantee does not survive

  /**
   A restore that read its object back holds it exactly if no section erased the object meanwhile. The
   hold is granted either way.
   */
  lemma WarmCommitHoldsIff(w: World, th: nat, token: nat)
    requires WorldInv(w) && th in w.warmers && token !in w.holds && ReadBackDone(w, w.warmers[th])
    ensures var r := w.warmers[th]; var w' := ApplyWarmCommit(w, th, token);
      && token in w'.holds && w'.holds[token] == Hold(r.id, r.tag)
      && (Resident(w', r.id, w.g[r.tag]) <==> r.id in w.st.objects)
  {
    if w.warmers[th].id in w.st.objects {
      StepWarmCommit(w, th, token);
      HeldIsResident(ApplyWarmCommit(w, th, token), token);
    }
  }

  /** In particular, every drop of an idle object whose read-back runs ends in a hold on nothing. */
  lemma DropDuringReadBack(c: SealConfig, w: World, th: nat, token: nat, vk: VersionKey, order: seq<nat>, w1: World)
    requires WorldInv(w) && th in w.warmers && token !in w.holds && ReadBackDone(w, w.warmers[th])
    requires w.warmers[th].id in Idle(w.st, vk)
    requires w.st.nextObject < CANDIDATE_BIT && Erases(w.st, DropVersion(w.st, vk), order)
    requires w1 == ApplyTable(c, w, R.ADropVersion(vk), order)
    ensures Enabled(c, w, Table(R.ADropVersion(vk), order)) && WorldInv(w1)
    ensures var r := w.warmers[th]; var w2 := ApplyWarmCommit(w1, th, token);
      && r.id !in w1.st.objects && token in w2.holds && w2.holds[token] == Hold(r.id, r.tag)
      && r.tag in w.g && !Resident(w2, r.id, w.g[r.tag])
  {
    StepTable(c, w, R.ADropVersion(vk), order);
    assert w.st.objects[w.warmers[th].id].key.job in w.st.jobs;
    WarmCommitHoldsIff(w1, th, token);
  }

  lemma ReleaseLeavesHeldIff(d: Daemon, g: Grants, tag: nat, rank: nat, epoch: nat, lease: nat)
    requires CoreInv(d, g) && Held(d.slots, g, tag) && StateOf(d.slots, g, tag) == PinnedValid
    requires Releases(d, rank, epoch, lease)
    ensures Held(ReleaseLease(d, rank, epoch, lease).slots, g, tag) <==> lease != tag
  {
    assert Held(d.slots, g, lease);
    if ReleaseFrees(StateAt(d.slots, d.leases[lease].base)) {
      FreeRunByTag(d.slots, g, lease);
    }
  }

  /** A plain release of a lease takes a held run away exactly if it is that run's own lease. */
  lemma PlainReleaseBreaksIff(w: World, token: nat, rank: nat, epoch: nat, lease: nat)
    requires WorldInv(w) && token in w.holds && Releases(w.d, rank, epoch, lease)
    ensures var h := w.holds[token];
      Held(ReleaseLease(w.d, rank, epoch, lease).slots, w.g, h.tag) <==> lease != h.tag
  {
    var h := w.holds[token];
    assert HoldOk(w.d, w.g, w.st.objects, h);
    ReleaseLeavesHeldIff(w.d, w.g, h.tag, rank, epoch, lease);
  }

  /** A commit that is not the creator's discards a held run exactly if it names that run's own lease. */
  lemma CommitBreaksIff(w: World, token: nat, lease: nat)
    requires WorldInv(w) && token in w.holds && lease in w.d.leases
    ensures var h := w.holds[token]; Held(Discard(w.d, lease).slots, w.g, h.tag) <==> lease != h.tag
  {
    var h := w.holds[token];
    assert HoldOk(w.d, w.g, w.st.objects, h);
    DiscardShape(w.d, w.g, lease);
  }

  /** A release that no grant matches leaves every hold counted exactly if there was a count to spare. */
  lemma SpareReleaseIff(w: World, id: nat)
    requires WorldInv(w) && id in w.st.objects && HoldsOf(w.holds, id) != {}
    ensures var m := RestoreRelease(w.st, id).objects;
      (id in m && |HoldsOf(w.holds, id)| <= m[id].restores) <==> |HoldsOf(w.holds, id)| < w.st.objects[id].restores
  {
    var o := w.st.objects[id];
    assert |HoldsOf(w.holds, id)| <= o.restores;
    RestoreReleaseUse(w.st, id);
  }
}

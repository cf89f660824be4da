/**
 Runs of both machines together in which an object is created, committed and
 drained, and a restore reads it back: its version is dropped meanwhile, and the
 restore is granted and holds nothing; or the read-back fails, and the gauge of
 pinned bytes is off from then on.
 */
module HoldWitness {
  import opened SlotTable
  import opened DaemonState
  import D = Durability
  import opened OneSlot
  import W = DaemonWitness
  import opened CanonicalKey
  import opened CanonicalStore
  import R = CanonicalRuns
  import S = StoreWitness
  import opened HoldModel
  import opened HoldInv
  import opened RestoreHold
  import opened HoldGauge

  /** `a` may happen in `w` and leads to `w'`. */
  ghost predicate Leads(c: SealConfig, w: World, a: Action, w': World) {
    w.d.cfg.gran > 0 && Enabled(c, w, a) && w' == Apply(c, w, a)
  }

  lemma Extend(c: SealConfig, tr: seq<World>, acts: seq<Action>, a: Action, w: World)
    returns (tr': seq<World>, acts': seq<Action>)
    requires Run(c, tr, acts) && Leads(c, tr[|acts|], a, w)
    ensures Run(c, tr', acts') && tr' == tr + [w] && acts' == acts + [a]
  {
    tr', acts' := tr + [w], acts + [a];
    forall i: nat | i < |acts'| ensures StepAt(c, tr', acts', i) {
      if i < |acts| {
        assert StepAt(c, tr, acts, i);
      }
    }
  }

  // ------------------------------------------------------------------- the parts

  /** One slot that takes the tensor of `k`; rank 0 is not registered yet. */
  function NoRankYet(k: Key): Daemon {
    Daemon(Config(k.nbytes + 1, false), [FreeSlot], [Junk], map[], map[], map[], [], map[], map[], 1, 1, 1, 0)
  }

  function Base(k: Key): Daemon { NoRankYet(k).(sessions := map[0 := Session(1, 7, true)], nextEpoch := 2) }

  /** The run of object 1. */
  function ObjLease(k: Key): Lease { Lease(0, 1, Tid(1), 1, 0, 1, k.nbytes) }

  /** No object yet; thread 0 waits for a run for the first one. */
  function Asking(k: Key): World {
    World(Base(k), map[], S.Waiting(S.Ready(k.job), 0, 0, k, KeyString(k)), map[], map[], map[])
  }

  /** Object 1 is under creation, its run in the tables of `d`. */
  function Creation(k: Key, d: Daemon): World {
    World(d, map[1 := ObjLease(k)], S.Entered(S.Ready(k.job), k, KeyString(k), 1), map[1 := 0], map[], map[])
  }

  /** Object 1 is committed. */
  function Owned(k: Key, d: Daemon): World { Creation(k, d).(st := S.WithObject(S.Ready(k.job), k, KeyString(k), 1)) }

  // ------------------------------------------------------------------- creation

  /** A section of the store that erases nothing. */
  lemma TableLeads(c: SealConfig, w: World, act: R.Act, st: Store)
    requires w.d.cfg.gran > 0 && w.st.nextObject < CANDIDATE_BIT && Ordinary(act)
    requires S.Leads(c, w.st, act, st) && st.objects == w.st.objects
    ensures Leads(c, w, Table(act, []), w.(st := st))
  {
    assert ReleaseAll(w.d, w.st.objects, w.base, []) == w.d;
  }

  lemma RegisterLeads(c: SealConfig, k: Key, w: World)
    requires w.d == NoRankYet(k) && w.st.nextObject < CANDIDATE_BIT
    ensures Leads(c, w, Plain(D.DoRegister(0, 7, [])), w.(d := Base(k)))
  {
    W.RegisterNew(NoRankYet(k), 0, 7);
    assert OpenSession(NoRankYet(k), 0, 7).sessions == Base(k).sessions;
  }

  lemma AskRun(c: SealConfig, k: Key) returns (tr: seq<World>, acts: seq<Action>)
    ensures Run(c, tr, acts) && tr[|acts|] == Asking(k)
  {
    var st := Store(map[], map[], map[], map[], map[], {}, 1, map[], map[]);
    var w := World(NoRankYet(k), map[], st, map[], map[], map[]);
    tr, acts := [w], [];
    RegisterLeads(c, k, w);
    w := w.(d := Base(k));
    tr, acts := Extend(c, tr, acts, Plain(D.DoRegister(0, 7, [])), w);
    TableLeads(c, w, R.AArrive(0), st.(alive := {0}));
    tr, acts := Extend(c, tr, acts, Table(R.AArrive(0), []), w.(st := st.(alive := {0})));
    TableLeads(c, w.(st := st.(alive := {0})), R.AArrive(1), st.(alive := {0, 1}));
    tr, acts := Extend(c, tr, acts, Table(R.AArrive(1), []), w.(st := st.(alive := {0, 1})));
    TableLeads(c, w.(st := st.(alive := {0, 1})), R.ARegisterJob(k.job), S.Ready(k.job));
    tr, acts := Extend(c, tr, acts, Table(R.ARegisterJob(k.job), []), w.(st := S.Ready(k.job)));
    var evict := R.AEvict(0, S.Asked(0, k), KeyString(k));
    S.EvictLeads(c, S.Ready(k.job), 0, 0, k, KeyString(k));
    TableLeads(c, w.(st := S.Ready(k.job)), evict, Asking(k).st);
    tr, acts := Extend(c, tr, acts, Table(evict, []), Asking(k));
  }

  lemma CreateLeads(c: SealConfig, k: Key)
    ensures Leads(c, Asking(k), CreateRun(0, 0, 1, 0), Creation(k, Stage(Base(k), ObjLease(k), ReservedD2H, Junk)))
  {
    ReserveIs(Base(k), map[], ObjLease(k));
    S.FinishLeads(c, S.Ready(k.job), k, KeyString(k), 1);
  }

  /** A step of the slot machine that is no completion. */
  lemma PlainLeads(c: SealConfig, w: World, a: D.Action, d: Daemon)
    requires W.Leads(D.Sys(w.d, w.g), a, D.Sys(d, w.g)) && w.st.nextObject < CANDIDATE_BIT
    requires a.DoDma? || a.DoSubmit? || a.DoCopy? || a.DoForceCommit?
      || (a.DoForceBegin? && (a.lease in w.d.leases ==> !Protected(w.st, w.d.leases[a.lease].tensor)))
    ensures Leads(c, w, Plain(a), w.(d := d))
  {
  }

  lemma CompleteLeads(c: SealConfig, k: Key)
    ensures Leads(c, Creation(k, Stage(Base(k), ObjLease(k), D2HInFlight, Bytes(ObjLease(k)))),
                  Plain(D.DoComplete(CompletionOf(ObjLease(k), 1))), Creation(k, Stored(Base(k), ObjLease(k))))
  {
    CompleteIs(Base(k), ObjLease(k), true);
    assert UnderCreation(Creation(k, Base(k)).st, Tid(1));
  }

  lemma CommitLeads(c: SealConfig, k: Key, d: Daemon)
    requires d.cfg.gran > 0
    ensures Leads(c, Creation(k, d), CommitObject(0, 1, 1, Hash(1, 1), PinnedTier), Owned(k, d))
  {
    S.CommitLeads(c, S.Ready(k.job), k, KeyString(k), 1);
    assert IsCreator(Creation(k, d).st.objects[1], 1);
  }

  /** Object 1 is created, filled and committed. */
  lemma OwnedRun(c: SealConfig, k: Key) returns (tr: seq<World>, acts: seq<Action>)
    ensures Run(c, tr, acts) && tr[|acts|] == Owned(k, Stored(Base(k), ObjLease(k)))
  {
    var d, L := Base(k), ObjLease(k);
    var reserved, filled := Stage(d, L, ReservedD2H, Bytes(L)), Stage(d, L, D2HInFlight, Bytes(L));
    tr, acts := AskRun(c, k);
    CreateLeads(c, k);
    tr, acts := Extend(c, tr, acts, CreateRun(0, 0, 1, 0), Creation(k, Stage(d, L, ReservedD2H, Junk)));
    W.FillLeads(d, map[], L, Junk);
    PlainLeads(c, Creation(k, Stage(d, L, ReservedD2H, Junk)), D.DoDma(1, 0), reserved);
    tr, acts := Extend(c, tr, acts, Plain(D.DoDma(1, 0)), Creation(k, reserved));
    PlainLeads(c, Creation(k, reserved), D.DoSubmit(0, 1, 1, 0), filled);
    tr, acts := Extend(c, tr, acts, Plain(D.DoSubmit(0, 1, 1, 0)), Creation(k, filled));
    CompleteLeads(c, k);
    tr, acts := Extend(c, tr, acts, Plain(D.DoComplete(CompletionOf(L, 1))), Creation(k, Stored(d, L)));
    CommitLeads(c, k, Stored(d, L));
    tr, acts := Extend(c, tr, acts, CommitObject(0, 1, 1, Hash(1, 1), PinnedTier), Owned(k, Stored(d, L)));
  }

  // ---------------------------------------------------------------------- drain

  lemma Unprotected(k: Key, d: Daemon)
    ensures !Protected(Owned(k, d).st, Tid(1))
  {
  }

  lemma BeginDrainLeads(c: SealConfig, k: Key)
    ensures Leads(c, Owned(k, Stored(Base(k), ObjLease(k))), Plain(D.DoForceBegin(9, 1)),
                  Owned(k, DrainedBy(Base(k), ObjLease(k), 9, [])))
  {
    var d, L := Base(k), ObjLease(k);
    W.DrainLeads(d, map[1 := L], L, 9);
    Unprotected(k, Stored(d, L));
    assert Stored(d, L).leases[1].tensor == Tid(1);
    PlainLeads(c, Owned(k, Stored(d, L)), D.DoForceBegin(9, 1), DrainedBy(d, L, 9, []));
  }

  /** The object is cold, the slot free. */
  lemma ColdRun(c: SealConfig, k: Key) returns (tr: seq<World>, acts: seq<Action>)
    ensures Run(c, tr, acts) && tr[|acts|] == Owned(k, Drained(Base(k), ObjLease(k)))
  {
    var d, L := Base(k), ObjLease(k);
    tr, acts := OwnedRun(c, k);
    BeginDrainLeads(c, k);
    tr, acts := Extend(c, tr, acts, Plain(D.DoForceBegin(9, 1)), Owned(k, DrainedBy(d, L, 9, [])));
    W.DrainLeads(d, map[1 := L], L, 9);
    W.DrainCommitLeads(d, map[1 := L], L, 9);
    PlainLeads(c, Owned(k, DrainedBy(d, L, 9, [])), D.DoCopy(9), DrainedBy(d, L, 9, [Bytes(L)]));
    tr, acts := Extend(c, tr, acts, Plain(D.DoCopy(9)), Owned(k, DrainedBy(d, L, 9, [Bytes(L)])));
    var commit := D.DoForceCommit(9, true, LocPageable);
    PlainLeads(c, Owned(k, DrainedBy(d, L, 9, [Bytes(L)])), commit, Drained(d, L));
    tr, acts := Extend(c, tr, acts, Plain(commit), Owned(k, Drained(d, L)));
  }

  // ------------------------------------------------------------------ read-back

  /** Thread 0 reads object 1 back and has `filled` pieces. */
  ghost predicate ReadingBack(w: World, k: Key, filled: nat) {
    && w.st == S.WithObject(S.Ready(k.job), k, KeyString(k), 1) && w.holds == map[] && w.d.cfg.gran > 0
    && |w.d.arena| == 1 && 2 in w.g && w.g[2].base == 0 && w.g[2].count == 1
    && w.warmers == map[0 := Warmer(1, 2, [Piece(Tid(1), 1, 0)], filled)]
  }

  lemma BeginLeads(c: SealConfig, k: Key) returns (w: World)
    ensures Leads(c, Owned(k, Drained(Base(k), ObjLease(k))), WarmBegin(0, 1, 0), w) && ReadingBack(w, k, 0)
  {
    var v := Owned(k, Drained(Base(k), ObjLease(k)));
    TakesOne(k.nbytes + 1, k.nbytes);
    w := ApplyWarmBegin(v, 0, 1, 0);
    assert CanWarm(v, 1) && WarmLease(v, 1, 0).count == 1 && RunFree(v.d.slots, 0, 1);
  }

  lemma BegunRun(c: SealConfig, k: Key) returns (tr: seq<World>, acts: seq<Action>)
    ensures Run(c, tr, acts) && ReadingBack(tr[|acts|], k, 0)
  {
    tr, acts := ColdRun(c, k);
    var w := BeginLeads(c, k);
    tr, acts := Extend(c, tr, acts, WarmBegin(0, 1, 0), w);
  }

  lemma FillLeads(c: SealConfig, k: Key, w: World) returns (w': World)
    requires ReadingBack(w, k, 0)
    ensures Leads(c, w, WarmFill(0), w') && ReadingBack(w', k, 1)
  {
    w' := ApplyWarmFill(w, 0);
    assert CanFill(w.d, w.g, w.warmers[0]);
    assert w'.warmers == map[0 := Warmer(1, 2, [Piece(Tid(1), 1, 0)], 1)];
  }

  lemma DropErases(st: Store, k: Key)
    requires st == S.WithObject(S.Ready(k.job), k, KeyString(k), 1)
    ensures 1 in Idle(st, VersionOf(k)) && Erases(st, DropVersion(st, VersionOf(k)), [1])
  {
    assert Idle(st, VersionOf(k)) == {1};
  }

  /** The restore is granted in `w` and holds an object that is not there. */
  ghost predicate GrantsNothing(w: World) {
    0 in w.warmers && ReadBackDone(w, w.warmers[0])
    && var w' := ApplyWarmCommit(w, 0, 0);
    0 in w'.holds && w'.holds[0].id !in w'.st.objects
  }

  lemma DropLeads(c: SealConfig, k: Key, w: World) returns (w': World)
    requires WorldInv(w) && ReadingBack(w, k, 1)
    ensures Leads(c, w, Table(R.ADropVersion(VersionOf(k)), [1]), w') && GrantsNothing(w')
  {
    DropErases(w.st, k);
    w' := ApplyTable(c, w, R.ADropVersion(VersionOf(k)), [1]);
    DropDuringReadBack(c, w, 0, 0, VersionOf(k), [1], w');
  }

  /** The version is dropped when all its bytes are back and the mutex is still released. */
  lemma HoldLost(c: SealConfig, k: Key) returns (tr: seq<World>, acts: seq<Action>)
    ensures Run(c, tr, acts) && |acts| > 0 && acts[|acts| - 1] == Table(R.ADropVersion(VersionOf(k)), [1])
    ensures GrantsNothing(tr[|acts|])
  {
    tr, acts := BegunRun(c, k);
    var w := FillLeads(c, k, tr[|acts|]);
    tr, acts := Extend(c, tr, acts, WarmFill(0), w);
    RunInv(c, tr, acts, |acts|);
    var w' := DropLeads(c, k, w);
    tr, acts := Extend(c, tr, acts, Table(R.ADropVersion(VersionOf(k)), [1]), w');
  }

  // ---------------------------------------------------------------------- gauge

  lemma FailLeads(c: SealConfig, k: Key, w: World) returns (w': World)
    requires ReadingBack(w, k, 0)
    ensures Leads(c, w, WarmFail(0), w') && Fails(w, WarmFail(0)) && w'.warmers == map[]
  {
    w' := ApplyWarmFail(w, 0);
  }

  /** The read-back fails: nothing is being read back any more, and the gauge is below the occupied memory. */
  lemma GaugeDrifts(c: SealConfig, k: Key) returns (tr: seq<World>, acts: seq<Action>)
    ensures Run(c, tr, acts) && tr[|acts|].warmers == map[]
    ensures Gauge(tr, acts, |acts|) < tr[|acts|].d.cfg.gran * InUse(tr[|acts|].d.slots)
  {
    tr, acts := BegunRun(c, k);
    var w' := FailLeads(c, k, tr[|acts|]);
    tr, acts := Extend(c, tr, acts, WarmFail(0), w');
    assert Fails(tr[|acts| - 1], acts[|acts| - 1]);
    NoDriftIff(c, tr, acts, |acts|);
    GaugeExactIff(c, tr, acts, |acts|);
  }
}

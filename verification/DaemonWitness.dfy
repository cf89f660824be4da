/**
 Runs of the daemon that show what fencing and durability depend on: a
 reservation that commits after its rank was fenced, and a GPU copy that
 arrives after its run was given to another rank.
 */
module DaemonWitness {
  import opened SlotTable
  import opened DaemonState
  import opened DaemonInv
  import opened Durability
  import opened Fencing
  import opened OneSlot

  /** `a` may happen in `s` and leads to `s'`. */
  ghost predicate Leads(s: Sys, a: Action, s': Sys) {
    s.d.cfg.gran > 0 && Enabled(s, a) && s' == Apply(s, a)
  }

  lemma Extend(tr: seq<Sys>, acts: seq<Action>, a: Action, s: Sys) returns (tr': seq<Sys>, acts': seq<Action>)
    requires Run(tr, acts) && Leads(tr[|acts|], a, s)
    ensures Run(tr', acts') && tr' == tr + [s] && acts' == acts + [a]
  {
    tr', acts' := tr + [s], acts + [a];
    forall i: nat | i < |acts'| ensures StepAt(tr', acts', i) {
      if i < |acts| {
        assert StepAt(tr, acts, i);
      }
    }
  }

  lemma ReserveLeads(d: Daemon, g: Grants, L: Lease)
    requires Room(d, L)
    ensures Leads(Sys(d, g), DoReserve(L.rank, L.epoch, L.tensor, L.version, L.nbytes, 0),
                  Sys(Stage(d, L, ReservedD2H, d.arena[0]), g[d.nextLease := L]))
  {
    ReserveIs(d, g, L);
  }

  lemma FillLeads(d: Daemon, g: Grants, L: Lease, p: Piece)
    requires Room(d, L) && EpochValid(d, L.rank, L.epoch)
    ensures var g', id := g[d.nextLease := L], d.nextLease;
      && Leads(Sys(Stage(d, L, ReservedD2H, p), g'), DoDma(id, 0), Sys(Stage(d, L, ReservedD2H, Bytes(L)), g'))
      && Leads(Sys(Stage(d, L, ReservedD2H, Bytes(L)), g'), DoSubmit(L.rank, L.epoch, id, 0),
               Sys(Stage(d, L, D2HInFlight, Bytes(L)), g'))
      && Leads(Sys(Stage(d, L, D2HInFlight, Bytes(L)), g'), DoComplete(CompletionOf(L, id)), Sys(Stored(d, L), g'))
  {
    DmaIs(d, g, L, p);
    SubmitIs(d, L);
    CompleteIs(d, L, false);
  }

  /** The run goes on until `L` is pinned and published. */
  lemma StoreRun(tr: seq<Sys>, acts: seq<Action>, L: Lease) returns (tr': seq<Sys>, acts': seq<Action>)
    requires Run(tr, acts) && Room(tr[|acts|].d, L) && EpochValid(tr[|acts|].d, L.rank, L.epoch)
    ensures Run(tr', acts') && |acts'| == |acts| + 4
    ensures var s := tr[|acts|]; tr'[|acts'|] == Sys(Stored(s.d, L), s.g[s.d.nextLease := L])
  {
    var d, g := tr[|acts|].d, tr[|acts|].g;
    var g' := g[d.nextLease := L];
    ReserveLeads(d, g, L);
    tr', acts' := Extend(tr, acts, DoReserve(L.rank, L.epoch, L.tensor, L.version, L.nbytes, 0),
                         Sys(Stage(d, L, ReservedD2H, d.arena[0]), g'));
    FillLeads(d, g, L, d.arena[0]);
    tr', acts' := Extend(tr', acts', DoDma(d.nextLease, 0), Sys(Stage(d, L, ReservedD2H, Bytes(L)), g'));
    tr', acts' := Extend(tr', acts', DoSubmit(L.rank, L.epoch, d.nextLease, 0),
                         Sys(Stage(d, L, D2HInFlight, Bytes(L)), g'));
    tr', acts' := Extend(tr', acts', DoComplete(CompletionOf(L, d.nextLease)), Sys(Stored(d, L), g'));
  }

  // --------------------------------------------------------------- two ranks

  function Empty(): Daemon {
    Daemon(Config(1, false), [FreeSlot], [Junk], map[], map[], map[], [], map[], map[], 1, 1, 1, 0)
  }

  /** Rank 0 has epoch 1 and rank 1 epoch 2. */
  function TwoRanks(alive: bool): Daemon {
    Empty().(sessions := map[0 := Session(1, 7, alive), 1 := Session(2, 8, true)], nextEpoch := 3)
  }

  lemma RegisterNew(d: Daemon, rank: nat, pid: nat)
    requires rank !in d.sessions && forall r | r in d.sessions :: d.sessions[r].pid != pid
    ensures Register(d, rank, pid, []) == OpenSession(d, rank, pid) && RegisterVictims(d, rank, pid, [])
  {
    assert Displaced(d, rank, pid) == {} == Ranks([]);
    assert InvalidateAll(d, []) == d;
  }

  lemma Registered() returns (tr: seq<Sys>, acts: seq<Action>)
    ensures Run(tr, acts) && |acts| == 2 && tr[2] == Sys(TwoRanks(true), map[])
  {
    tr, acts := [Sys(Empty(), map[])], [];
    var one := OpenSession(Empty(), 0, 7);
    RegisterNew(Empty(), 0, 7);
    tr, acts := Extend(tr, acts, DoRegister(0, 7, []), Sys(one, map[]));
    RegisterNew(one, 1, 8);
    assert OpenSession(one, 1, 8).sessions == TwoRanks(true).sessions;
    tr, acts := Extend(tr, acts, DoRegister(1, 8, []), Sys(TwoRanks(true), map[]));
  }

  // ---------------------------------------------------------- late reservation

  const OTHER: Lease := Lease(0, 1, 6, 1, 1, 2, 1)

  lemma DrainLeads(d: Daemon, g: Grants, L: Lease, w: nat)
    requires Room(d, L) && w !in d.drainers
    ensures Leads(Sys(Stored(d, L), g), DoForceBegin(w, d.nextLease), Sys(DrainedBy(d, L, w, []), g))
    ensures Leads(Sys(DrainedBy(d, L, w, []), g), DoCopy(w), Sys(DrainedBy(d, L, w, [Bytes(L)]), g))
  {
    ForceBeginIs(d, L, w);
    CopyIs(d, L, w);
  }

  lemma DrainCommitLeads(d: Daemon, g: Grants, L: Lease, w: nat)
    requires Room(d, L) && w !in d.drainers
    ensures Leads(Sys(DrainedBy(d, L, w, [Bytes(L)]), g), DoForceCommit(w, true, LocPageable), Sys(Drained(d, L), g))
  {
    CopyIs(d, L, w);
    ForceCommitIs(d, L, w);
  }

  lemma TimeoutWhileDraining(g: Grants)
    ensures Leads(Sys(DrainedBy(TwoRanks(true), OTHER, 9, []), g), DoTimeout(Victim(0, [1], [])),
                  Sys(DrainedBy(TwoRanks(false), OTHER, 9, []), g))
  {
    var d := DrainedBy(TwoRanks(true), OTHER, 9, []);
    var d1 := d.(sessions := d.sessions[0 := Session(1, 7, false)]);
    assert d1.sessions == TwoRanks(false).sessions;
    assert RecoverLease(d1, 0, 1, 1) == d1;
    assert RecoverLeases(d1, 0, 1, [1]) == RecoverLeases(d1, 0, 1, [1][1..]) == d1;
    assert CompleteAll(d1, []) == d1;
  }

  /** The slot belongs to rank 1. */
  lemma SlotTaken() returns (tr: seq<Sys>, acts: seq<Action>)
    ensures Run(tr, acts) && |acts| == 6 && tr[6] == Sys(Stored(TwoRanks(true), OTHER), map[1 := OTHER])
  {
    tr, acts := Registered();
    tr, acts := StoreRun(tr, acts, OTHER);
    assert map[][1 := OTHER] == map[1 := OTHER];
  }

  /** It is drained by force, and rank 0 times out while the mutex is released. */
  lemma DrainedMeanwhile() returns (tr: seq<Sys>, acts: seq<Action>)
    ensures Run(tr, acts) && |acts| == 10
    ensures acts[6..] == [DoForceBegin(9, 1), DoTimeout(Victim(0, [1], [])), DoCopy(9),
                          DoForceCommit(9, true, LocPageable)]
    ensures tr[6].d == Stored(TwoRanks(true), OTHER) && tr[8].d == DrainedBy(TwoRanks(false), OTHER, 9, [])
    ensures tr[10] == Sys(Drained(TwoRanks(false), OTHER), map[1 := OTHER])
  {
    tr, acts := SlotTaken();
    var d, d', g := TwoRanks(true), TwoRanks(false), tr[6].g;
    DrainLeads(d, g, OTHER, 9);
    tr, acts := Extend(tr, acts, DoForceBegin(9, 1), Sys(DrainedBy(d, OTHER, 9, []), g));
    TimeoutWhileDraining(g);
    tr, acts := Extend(tr, acts, DoTimeout(Victim(0, [1], [])), Sys(DrainedBy(d', OTHER, 9, []), g));
    DrainLeads(d', g, OTHER, 9);
    DrainCommitLeads(d', g, OTHER, 9);
    tr, acts := Extend(tr, acts, DoCopy(9), Sys(DrainedBy(d', OTHER, 9, [Bytes(OTHER)]), g));
    tr, acts := Extend(tr, acts, DoForceCommit(9, true, LocPageable), Sys(Drained(d', OTHER), g));
  }

  /**
   A request of rank 0 passes its epoch check, finds no free run and drains the other rank's by force. It
   times out while the mutex is released, is fenced, and its reservation commits all the same.
   */
  lemma LateReserveRun() returns (tr: seq<Sys>, acts: seq<Action>)
    ensures Run(tr, acts) && |acts| == 11
    ensures acts[6..] == [DoForceBegin(9, 1), DoTimeout(Victim(0, [1], [])), DoCopy(9),
                          DoForceCommit(9, true, LocPageable), DoReserve(0, 1, 5, 1, 1, 0)]
    ensures EpochValid(tr[6].d, 0, 1) && !RunFree(tr[6].d.slots, 0, 1)
    ensures Fenced(tr[8], 0, 1) && Fenced(tr[10], 0, 1) && !Fenced(tr[11], 0, 1)
  {
    tr, acts := DrainedMeanwhile();
    var s := tr[10];
    LateReserveUnfences(s, 0, 1, 5, 1, 1, 0);
    TakesOne(1, 1);
    tr, acts := Extend(tr, acts, DoReserve(0, 1, 5, 1, 1, 0), Apply(s, DoReserve(0, 1, 5, 1, 1, 0)));
    assert tr[6].d.slots[0].state == PinnedValid;
  }

  // ------------------------------------------------------------------ late copy

  const LATE: Lease := Lease(0, 1, 5, 1, 0, 1, 1)

  /** Rank 0 got the slot and timed out before its copy arrived. */
  function GivenUp(): Daemon { TwoRanks(false).(nextLease := 2) }

  lemma TimeoutBeforeCopy(g: Grants)
    ensures Leads(Sys(Stage(TwoRanks(true), LATE, ReservedD2H, Junk), g), DoTimeout(Victim(0, [1], [])),
                  Sys(GivenUp(), g))
  {
    var d := Stage(TwoRanks(true), LATE, ReservedD2H, Junk);
    var d1 := d.(sessions := d.sessions[0 := Session(1, 7, false)]);
    assert d1.sessions == TwoRanks(false).sessions;
    FreeOne(d1.slots[0]);
    assert d1.leases - {1} == map[];
    assert RecoverLease(d1, 0, 1, 1) == GivenUp();
    assert RecoverLeases(d1, 0, 1, [1]) == RecoverLeases(GivenUp(), 0, 1, [1][1..]) == GivenUp();
    assert CompleteAll(GivenUp(), []) == GivenUp();
  }

  lemma SlotGivenUp() returns (tr: seq<Sys>, acts: seq<Action>)
    ensures Run(tr, acts) && tr[|acts|] == Sys(GivenUp(), map[1 := LATE])
  {
    var d, g := TwoRanks(true), map[1 := LATE];
    tr, acts := Registered();
    ReserveLeads(d, map[], LATE);
    tr, acts := Extend(tr, acts, DoReserve(0, 1, 5, 1, 1, 0), Sys(Stage(d, LATE, ReservedD2H, Junk), g));
    TimeoutBeforeCopy(g);
    tr, acts := Extend(tr, acts, DoTimeout(Victim(0, [1], [])), Sys(GivenUp(), g));
  }

  /** The slot then holds version 1 of tensor 6, which rank 0's stream overwrites when it gets to run. */
  lemma LateCopyRun() returns (tr: seq<Sys>, acts: seq<Action>)
    ensures Run(tr, acts)
    ensures var s := tr[|acts|];
      && s.d.cfg.gran > 0 && Addresses(s.d, s.g, 1, 0) && Resolves(s.d, 6, 1)
      && Apply(s, DoDma(1, 0)).d.cfg.gran > 0 && !Resolves(Apply(s, DoDma(1, 0)).d, 6, 1)
  {
    tr, acts := SlotGivenUp();
    tr, acts := StoreRun(tr, acts, OTHER);
    var s := tr[|acts|];
    RunInv(tr, acts, |acts|);
    TakesOne(1, 1);
    assert s.d.arena[0..1] == [Bytes(OTHER)] == Pieces(6, 1, 1);
    LateCopySpoils(s, 1, 0, 6, 1);
  }
}

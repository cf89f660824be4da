/**
 Restores keep what ties the two machines together: of a resident object at
 once, of a cold one through a run that is taken, filled and published.
 */
module HoldWarm {
  import opened SlotTable
  import opened DaemonState
  import opened DaemonInv
  import D = Durability
  import opened CanonicalStore
  import opened StoreInv
  import opened HoldModel
  import opened HoldSteps
  import opened HoldInv
  import opened HoldRelease
  import opened HoldFrames

  // ------------------------------------------------------------ counting holds

  lemma HoldsOfMore(holds: map<nat, Hold>, token: nat, h: Hold, x: nat)
    requires token !in holds
    ensures |HoldsOf(holds[token := h], x)| == |HoldsOf(holds, x)| + if x == h.id then 1 else 0
  {
    assert HoldsOf(holds[token := h], x) == HoldsOf(holds, x) + if x == h.id then {token} else {};
  }

  ghost predicate OneMoreRestore(o: Obj, o': Obj, more: nat) {
    && o'.nbytes == o.nbytes && o'.lease == o.lease && o'.restores == o.restores + more
    && (o.state != Creating ==> o'.state != Creating)
  }

  /** Granting a restore: every object keeps what runs and readers depend on. */
  lemma GrantSame(st: Store, id: nat, warmed: bool)
    ensures var m := RestoreGrant(st, id, warmed).objects;
      && m.Keys == st.objects.Keys
      && (forall x | x in m ::
            OneMoreRestore(st.objects[x], m[x], if x == id && st.objects[x].state != Creating then 1 else 0))
  {
    if id in st.objects && st.objects[id].state != Creating {
      assert OneMoreRestore(st.objects[id], Granted(st.objects[id], warmed), 1);
    }
  }

  lemma GrantHoldsOk(d: Daemon, g: Grants, objects: map<nat, Obj>, m: map<nat, Obj>, holds: map<nat, Hold>)
    requires forall k | k in holds :: HoldOk(d, g, objects, holds[k])
    requires m.Keys == objects.Keys && forall x | x in m :: objects[x].state != Creating ==> m[x].state != Creating
    ensures forall k | k in holds :: HoldOk(d, g, m, holds[k])
  {
    forall k | k in holds ensures HoldOk(d, g, m, holds[k]) {
      assert HoldOk(d, g, objects, holds[k]);
    }
  }

  /** One more restore is granted, and its reader's run is in place. */
  lemma GrantHolds(d: Daemon, g: Grants, st: Store, holds: map<nat, Hold>, id: nat, warmed: bool, token: nat, h: Hold)
    requires HoldsInv(d, g, st.objects, holds) && token !in holds && h.id == id && HoldOk(d, g, st.objects, h)
    ensures HoldsInv(d, g, RestoreGrant(st, id, warmed).objects, holds[token := h])
  {
    var m, holds' := RestoreGrant(st, id, warmed).objects, holds[token := h];
    GrantSame(st, id, warmed);
    GrantHoldsOk(d, g, st.objects, m, holds');
    forall x | x in m ensures |HoldsOf(holds', x)| <= m[x].restores {
      HoldsOfMore(holds, token, h, x);
    }
  }

  lemma GrantObjRuns(d: Daemon, g: Grants, st: Store, base: map<nat, nat>, id: nat, warmed: bool)
    requires ObjRuns(d, g, st.objects, base)
    ensures ObjRuns(d, g, RestoreGrant(st, id, warmed).objects, base)
  {
    GrantSame(st, id, warmed);
    var m := RestoreGrant(st, id, warmed).objects;
    forall x | x in m ensures x in base && ObjRun(d, g, Tid(x), m[x].nbytes, m[x].lease, base[x]) {
      assert ObjRun(d, g, Tid(x), st.objects[x].nbytes, st.objects[x].lease, base[x]);
    }
  }

  lemma GrantWarms(d: Daemon, g: Grants, st: Store, warmers: map<nat, Warmer>, id: nat, warmed: bool)
    requires WarmsInv(d, g, st.objects, warmers)
    ensures WarmsInv(d, g, RestoreGrant(st, id, warmed).objects, warmers)
  {
    GrantSame(st, id, warmed);
    forall th | th in warmers ensures WarmOk(d, g, RestoreGrant(st, id, warmed).objects, warmers[th]) {
      assert WarmOk(d, g, st.objects, warmers[th]);
    }
  }

  lemma GrantKnown(g: Grants, locs: map<nat, Location>, st: Store, id: nat, warmed: bool)
    requires KnownInv(g, locs, st)
    ensures KnownInv(g, locs, RestoreGrant(st, id, warmed))
  {
    KnownWeaker(g, locs, locs, st, RestoreGrant(st, id, warmed));
  }

  // --------------------------------------------------------------- resident

  lemma HitOk(w: World, id: nat)
    requires WorldInv(w) && CanHit(w, id) && w.st.nextObject < CANDIDATE_BIT
    ensures HoldOk(w.d, w.g, w.st.objects, Hold(id, w.d.slots[w.d.locations[Tid(id)].slot].lease))
  {
    var o := w.st.objects[id];
    assert ObjRun(w.d, w.g, Tid(id), o.nbytes, o.lease, w.base[id]);
    OwnRun(w.d, w.g, Tid(id), o.nbytes, o.lease, w.base[id]);
    ObjIdsAreTids(w, id);
  }

  lemma StepHit(w: World, token: nat, id: nat)
    requires WorldInv(w) && w.st.nextObject < CANDIDATE_BIT
    ensures WorldInv(ApplyHit(w, token, id))
  {
    if token !in w.holds && CanHit(w, id) {
      HitOk(w, id);
      RestoreGrantOk(w.st, id, false);
      GrantHolds(w.d, w.g, w.st, w.holds, id, false, token, Hold(id, w.d.slots[w.d.locations[Tid(id)].slot].lease));
      GrantObjRuns(w.d, w.g, w.st, w.base, id, false);
      GrantWarms(w.d, w.g, w.st, w.warmers, id, false);
      GrantKnown(w.g, w.d.locations, w.st, id, false);
    }
  }

  // --------------------------------------------------------- a run is taken

  /** Taking a run for a read-back is a reservation that changes state and drops its lease at once. */
  lemma StampTwice(slots: seq<Slot>, n: nat, L: Lease, gran: nat)
    ensures Stamp(slots, n, L, ReadbackInFlight, gran)
         == SetState(Stamp(slots, n, L, ReservedD2H, gran), L.base, L.count, ReadbackInFlight)
  {
  }

  lemma TakenHeld(d: Daemon, g: Grants, L: Lease)
    requires CoreInv(d, g) && L.count > 0 && RunFree(d.slots, L.base, L.count)
    ensures var d', n := Taken(d, L), d.nextLease;
      Held(d'.slots, g[n := L], n) && StateOf(d'.slots, g[n := L], n) == ReadbackInFlight
  {
  }

  lemma TakenOrderly(d: Daemon, g: Grants, L: Lease)
    requires Orderly(d, g) && L == Lease(L.base, SlotsFor(d.cfg.gran, L.nbytes), L.tensor, 1, 0, 0, L.nbytes)
    requires RunFree(d.slots, L.base, L.count)
    ensures Orderly(Taken(d, L), g[d.nextLease := L])
  {
    var n, g' := d.nextLease, g[d.nextLease := L];
    var d1 := Reserve(d, 0, 0, L.tensor, 1, L.nbytes, L.base);
    CoreReserve(d, g, 0, 0, L.tensor, 1, L.nbytes, L.base);
    D.DataReserve(d, g, 0, 0, L.tensor, 1, L.nbytes, L.base);
    assert Held(d1.slots, g', n) && StateOf(d1.slots, g', n) == ReservedD2H;
    StampTwice(d.slots, n, L, d.cfg.gran);
    TakenFrom(d, d1, g', n, L);
  }

  lemma TakenFrom(d: Daemon, d1: Daemon, g': Grants, n: nat, L: Lease)
    requires CoreInv(d1, g') && DataInv(d1, g') && ColdInv(d.locations, d.nextCold) && n !in d.leases
    requires n in g' && g'[n] == L && Held(d1.slots, g', n) && StateOf(d1.slots, g', n) == ReservedD2H
    requires n == d.nextLease && d1 == d.(slots := d1.slots, leases := d.leases[n := L], nextLease := n + 1,
      used := d.used + L.count * d.cfg.gran)
    requires Taken(d, L).slots == SetState(d1.slots, L.base, L.count, ReadbackInFlight)
    ensures Orderly(Taken(d, L), g')
  {
    var d2 := d1.(slots := SetState(d1.slots, L.base, L.count, ReadbackInFlight));
    TakenCore(d1, g', n, L, d2);
    TakenData(d1, g', n);
    assert d2.leases - {n} == d.leases;
    assert Taken(d, L) == d2.(leases := d.leases);
  }

  lemma TakenCore(d1: Daemon, g': Grants, n: nat, L: Lease, d2: Daemon)
    requires CoreInv(d1, g') && n in g' && g'[n] == L && Held(d1.slots, g', n)
    requires StateOf(d1.slots, g', n) == ReservedD2H
    requires d2 == d1.(slots := SetState(d1.slots, L.base, L.count, ReadbackInFlight))
    ensures CoreInv(d2.(leases := d2.leases - {n}), g')
  {
    CoreMove(d1, g', n, ReadbackInFlight);
    CoreDropLease(d2, g', n);
  }

  lemma TakenData(d1: Daemon, g': Grants, n: nat)
    requires CoreInv(d1, g') && DataInv(d1, g') && Held(d1.slots, g', n) && StateOf(d1.slots, g', n) == ReservedD2H
    ensures DataInv(d1.(slots := SetState(d1.slots, g'[n].base, g'[n].count, ReadbackInFlight)), g')
  {
    SetStateByTag(d1.slots, g', n, ReadbackInFlight);
    D.DataMove(d1, g', n, SetState(d1.slots, g'[n].base, g'[n].count, ReadbackInFlight), ReadbackInFlight);
  }

  lemma TakenGentle(d: Daemon, g: Grants, L: Lease, t: nat)
    requires CoreInv(d, g) && L.count > 0 && RunFree(d.slots, L.base, L.count)
    ensures Gentle(d, g, Taken(d, L), t)
  {
    forall tag | tag in g && Unfinished(Taken(d, L).slots, g, tag) ensures Unfinished(d.slots, g, tag) {
      StampUnfinished(d, g, L, ReadbackInFlight, tag);
    }
  }

  /** The object that is read back: its new run does not disturb its record. */
  lemma TakenOwn(d: Daemon, g: Grants, L: Lease, lease: nat, base: nat)
    requires CoreInv(d, g) && L.count > 0 && RunFree(d.slots, L.base, L.count)
    requires ObjRun(d, g, L.tensor, L.nbytes, lease, base) && L.tensor in d.locations && L.version == 1
    ensures ObjRun(Taken(d, L), g[d.nextLease := L], L.tensor, L.nbytes, lease, base)
  {
    var n, d', g' := d.nextLease, Taken(d, L), g[d.nextLease := L];
    TakenGentle(d, g, L, L.tensor);
    if lease in d'.leases && lease in g' && g'[lease].tensor == L.tensor && Unfinished(d'.slots, g', lease) {
      assert lease in g && g'[lease] == g[lease];
      UnfinishedSame(d'.slots, g, g', lease);
    }
  }

  lemma TakenObjRuns(w: World, id: nat, L: Lease)
    requires CoreInv(w.d, w.g) && ObjRuns(w.d, w.g, w.st.objects, w.base) && CanWarm(w, id)
    requires L == WarmLease(w, id, L.base) && RunFree(w.d.slots, L.base, L.count)
    ensures ObjRuns(Taken(w.d, L), w.g[w.d.nextLease := L], w.st.objects, w.base)
  {
    var d', g' := Taken(w.d, L), w.g[w.d.nextLease := L];
    forall x | x in w.st.objects
      ensures x in w.base && ObjRun(d', g', Tid(x), w.st.objects[x].nbytes, w.st.objects[x].lease, w.base[x])
    {
      if x == id {
        TakenOwn(w.d, w.g, L, w.st.objects[x].lease, w.base[x]);
      } else {
        TakenGentle(w.d, w.g, L, Tid(x));
        ObjRunGentle(w.d, w.g, d', g', Tid(x), w.st.objects[x].nbytes, w.st.objects[x].lease, w.base[x]);
      }
    }
  }

  lemma TakenReaders(w: World, L: Lease)
    requires CoreInv(w.d, w.g) && L.count > 0 && RunFree(w.d.slots, L.base, L.count)
    requires WarmsInv(w.d, w.g, w.st.objects, w.warmers) && HoldsInv(w.d, w.g, w.st.objects, w.holds)
    ensures WarmsInv(Taken(w.d, L), w.g[w.d.nextLease := L], w.st.objects, w.warmers)
    ensures HoldsInv(Taken(w.d, L), w.g[w.d.nextLease := L], w.st.objects, w.holds)
    ensures forall th | th in w.warmers :: w.warmers[th].tag != w.d.nextLease
  {
    var d', g' := Taken(w.d, L), w.g[w.d.nextLease := L];
    forall tag: nat | tag > 0 ensures Steady(w.d.slots, d'.slots, tag) {
      StampSteady(w.d, w.g, L, ReadbackInFlight, tag);
    }
    forall th | th in w.warmers ensures StaysWarm(w, d', g', w.warmers[th]) && w.warmers[th].tag != w.d.nextLease {
      assert WarmOk(w.d, w.g, w.st.objects, w.warmers[th]);
    }
    WarmsFrame(w, d', g');
    forall k | k in w.holds ensures w.holds[k].tag in w.g && w.holds[k].tag > 0 && w.holds[k].tag != w.d.nextLease {
      assert HoldOk(w.d, w.g, w.st.objects, w.holds[k]);
    }
    HoldsFrame(w, d', g');
  }

  /** The thread that reads back knows what the cold copy holds. */
  lemma TakenWarm(w: World, id: nat, L: Lease)
    requires Orderly(w.d, w.g) && CanWarm(w, id) && ObjTid(Tid(id)) && id in w.base
    requires ObjRun(w.d, w.g, Tid(id), w.st.objects[id].nbytes, w.st.objects[id].lease, w.base[id])
    requires L == WarmLease(w, id, L.base) && RunFree(w.d.slots, L.base, L.count)
    ensures WarmOk(Taken(w.d, L), w.g[w.d.nextLease := L], w.st.objects,
                   Warmer(id, w.d.nextLease, w.d.cold[w.d.locations[Tid(id)].cold].data, 0))
  {
    var loc := w.d.locations[Tid(id)];
    assert LocOk(w.d.slots, w.d.cold, w.g, w.d.cfg.gran, Tid(id), loc);
    TakenHeld(w.d, w.g, L);
  }

  lemma AddWarmer(d: Daemon, g: Grants, objects: map<nat, Obj>, warmers: map<nat, Warmer>, th: nat, r: Warmer)
    requires WarmsInv(d, g, objects, warmers) && WarmOk(d, g, objects, r)
    requires forall t | t in warmers :: warmers[t].tag != r.tag
    ensures WarmsInv(d, g, objects, warmers[th := r])
  {
  }

  lemma TakenKnown(g: Grants, locs: map<nat, Location>, st: Store, n: nat, L: Lease)
    requires KnownInv(g, locs, st) && L.tensor in locs
    ensures KnownInv(g[n := L], locs, st)
  {
  }

  /** Everything that the new run is part of. */
  lemma WarmBeginParts(w: World, th: nat, id: nat, L: Lease)
    requires WorldInv(w) && CanWarm(w, id) && w.st.nextObject < CANDIDATE_BIT
    requires L == WarmLease(w, id, L.base) && RunFree(w.d.slots, L.base, L.count)
    ensures var d', g' := Taken(w.d, L), w.g[w.d.nextLease := L];
      && Orderly(d', g') && KnownInv(g', w.d.locations, w.st) && ObjRuns(d', g', w.st.objects, w.base)
      && HoldsInv(d', g', w.st.objects, w.holds)
      && WarmsInv(d', g', w.st.objects,
                  w.warmers[th := Warmer(id, w.d.nextLease, w.d.cold[w.d.locations[Tid(id)].cold].data, 0)])
  {
    var n := w.d.nextLease;
    TakenOrderly(w.d, w.g, L);
    TakenObjRuns(w, id, L);
    TakenReaders(w, L);
    ObjIdsAreTids(w, id);
    TakenWarm(w, id, L);
    TakenKnown(w.g, w.d.locations, w.st, n, L);
    AddWarmer(Taken(w.d, L), w.g[n := L], w.st.objects, w.warmers, th,
              Warmer(id, n, w.d.cold[w.d.locations[Tid(id)].cold].data, 0));
  }

  lemma StepWarmBegin(w: World, th: nat, id: nat, at: nat)
    requires WorldInv(w) && w.st.nextObject < CANDIDATE_BIT
    ensures WorldInv(ApplyWarmBegin(w, th, id, at))
  {
    if th !in w.warmers && CanWarm(w, id) && RunFree(w.d.slots, at, WarmLease(w, id, at).count) {
      WarmBeginParts(w, th, id, WarmLease(w, id, at));
    }
  }

  // ---------------------------------------------------------- a run is filled

  /** Writing into a run that nobody may read yet. */
  lemma WriteUnread(d: Daemon, g: Grants, tag: nat, i: nat, p: Piece)
    requires TableInv(d.slots, g) && MemInv(d.slots, d.arena, g) && Held(d.slots, g, tag)
    requires !Readable(StateOf(d.slots, g, tag)) && g[tag].Covers(i) && i < |d.arena|
    ensures MemInv(d.slots, d.arena[i := p], g)
  {
    CoversIffTagged(d.slots, g, tag, i);
    assert SlotInv(d.slots, g, i);
  }

  lemma FillOrderly(d: Daemon, g: Grants, tag: nat, i: nat, p: Piece)
    requires Orderly(d, g) && Held(d.slots, g, tag)
    requires !Readable(StateOf(d.slots, g, tag)) && g[tag].Covers(i) && i < |d.arena|
    ensures Orderly(d.(arena := d.arena[i := p]), g)
  {
    WriteUnread(d, g, tag, i, p);
    assert CountersInv(d.(arena := d.arena[i := p]), g);
  }

  /** A piece written into one run leaves what another thread has read back alone. */
  lemma FillOther(d: Daemon, g: Grants, objects: map<nat, Obj>, tag: nat, i: nat, p: Piece, r: Warmer)
    requires TableInv(d.slots, g) && Held(d.slots, g, tag) && g[tag].Covers(i) && i < |d.arena|
    requires WarmOk(d, g, objects, r) && r.tag != tag
    ensures WarmOk(d.(arena := d.arena[i := p]), g, objects, r)
  {
    HeldRunsDisjoint(d.slots, g, tag, r.tag);
    assert forall k | g[r.tag].base <= k < g[r.tag].base + r.filled :: g[r.tag].Covers(k) && k != i;
    SameStretch(d.arena, d.arena[i := p], g[r.tag].base, g[r.tag].base + r.filled);
  }

  lemma FillOwn(d: Daemon, g: Grants, objects: map<nat, Obj>, r: Warmer)
    requires WarmOk(d, g, objects, r) && r.filled < g[r.tag].count
    ensures WarmOk(d.(arena := d.arena[g[r.tag].base + r.filled := r.data[r.filled]]), g, objects,
      r.(filled := r.filled + 1))
  {
    var lo, hi := g[r.tag].base, g[r.tag].base + r.filled;
    var a := d.arena[hi := r.data[r.filled]];
    SameStretch(d.arena, a, lo, hi);
    assert a[lo..hi + 1] == a[lo..hi] + [a[hi]];
    assert r.data[..r.filled + 1] == r.data[..r.filled] + [r.data[r.filled]];
  }

  lemma SameTags(ws: map<nat, Warmer>, th: nat, r: Warmer)
    requires TagsDistinct(ws) && th in ws && r.tag == ws[th].tag
    ensures TagsDistinct(ws[th := r])
  {
  }

  lemma FillWarms(w: World, th: nat, r: Warmer)
    requires TableInv(w.d.slots, w.g) && WarmsInv(w.d, w.g, w.st.objects, w.warmers) && th in w.warmers
    requires r == w.warmers[th] && WarmOk(w.d, w.g, w.st.objects, r) && CanFill(w.d, w.g, r)
    ensures WarmsInv(Filled(w.d, w.g, r), w.g, w.st.objects, w.warmers[th := r.(filled := r.filled + 1)])
  {
    var d', ws := Filled(w.d, w.g, r), w.warmers[th := r.(filled := r.filled + 1)];
    FillOwn(w.d, w.g, w.st.objects, r);
    SameTags(w.warmers, th, r.(filled := r.filled + 1));
    forall t | t in ws ensures WarmOk(d', w.g, w.st.objects, ws[t]) {
      if t != th {
        FillThread(w, th, t);
      }
    }
  }

  lemma FillThread(w: World, th: nat, t: nat)
    requires TableInv(w.d.slots, w.g) && WarmsInv(w.d, w.g, w.st.objects, w.warmers)
    requires th in w.warmers && t in w.warmers && t != th && CanFill(w.d, w.g, w.warmers[th])
    ensures WarmOk(Filled(w.d, w.g, w.warmers[th]), w.g, w.st.objects, w.warmers[t])
  {
    var r := w.warmers[th];
    assert WarmOk(w.d, w.g, w.st.objects, r) && WarmOk(w.d, w.g, w.st.objects, w.warmers[t]);
    FillOther(w.d, w.g, w.st.objects, r.tag, w.g[r.tag].base + r.filled, r.data[r.filled], w.warmers[t]);
  }

  /** Runs and holds do not depend on memory contents. */
  lemma FillRest(d: Daemon, g: Grants, arena: seq<Piece>, objects: map<nat, Obj>, base: map<nat, nat>,
                 holds: map<nat, Hold>)
    requires ObjRuns(d, g, objects, base) && HoldsInv(d, g, objects, holds)
    ensures ObjRuns(d.(arena := arena), g, objects, base) && HoldsInv(d.(arena := arena), g, objects, holds)
  {
    var d' := d.(arena := arena);
    forall x | x in objects ensures x in base && ObjRun(d', g, Tid(x), objects[x].nbytes, objects[x].lease, base[x]) {
      SameSlotsGentle(d, g, d', Tid(x));
      ObjRunGentle(d, g, d', g, Tid(x), objects[x].nbytes, objects[x].lease, base[x]);
    }
    forall k | k in holds ensures HoldOk(d', g, objects, holds[k]) {
      assert HoldOk(d, g, objects, holds[k]);
    }
  }

  lemma FillParts(w: World, th: nat, r: Warmer)
    requires Orderly(w.d, w.g) && ObjRuns(w.d, w.g, w.st.objects, w.base) && HoldsInv(w.d, w.g, w.st.objects, w.holds)
    requires WarmsInv(w.d, w.g, w.st.objects, w.warmers) && th in w.warmers && r == w.warmers[th]
    requires CanFill(w.d, w.g, r)
    ensures var d' := Filled(w.d, w.g, r);
      && Orderly(d', w.g) && ObjRuns(d', w.g, w.st.objects, w.base) && HoldsInv(d', w.g, w.st.objects, w.holds)
      && WarmsInv(d', w.g, w.st.objects, w.warmers[th := r.(filled := r.filled + 1)])
  {
    assert WarmOk(w.d, w.g, w.st.objects, r);
    FillWarms(w, th, r);
    FillOrderly(w.d, w.g, r.tag, w.g[r.tag].base + r.filled, r.data[r.filled]);
    FillRest(w.d, w.g, Filled(w.d, w.g, r).arena, w.st.objects, w.base, w.holds);
  }

  lemma Assembled(w: World)
    requires Orderly(w.d, w.g) && StoreOk(w.st) && KnownInv(w.g, w.d.locations, w.st)
    requires ObjRuns(w.d, w.g, w.st.objects, w.base) && HoldsInv(w.d, w.g, w.st.objects, w.holds)
    requires WarmsInv(w.d, w.g, w.st.objects, w.warmers)
    ensures WorldInv(w)
  {
  }

  lemma StepWarmFill(w: World, th: nat)
    requires WorldInv(w)
    ensures WorldInv(ApplyWarmFill(w, th))
  {
    if th in w.warmers && CanFill(w.d, w.g, w.warmers[th]) {
      var r := w.warmers[th];
      FillParts(w, th, r);
      Assembled(w.(d := Filled(w.d, w.g, r), warmers := w.warmers[th := r.(filled := r.filled + 1)]));
    }
  }

  // --------------------------------------------------------- a read-back fails

  lemma FailOrderly(d: Daemon, g: Grants, tag: nat)
    requires Orderly(d, g) && Held(d.slots, g, tag) && StateOf(d.slots, g, tag) == ReadbackInFlight && tag !in d.leases
    ensures Orderly(FreeSlots(d, g[tag].base, g[tag].count), g)
  {
    CoreFree(d, g, tag);
    assert d.leases - {tag} == d.leases;
    FailData(d, g, tag);
  }

  lemma FailData(d: Daemon, g: Grants, tag: nat)
    requires CoreInv(d, g) && DataInv(d, g) && Held(d.slots, g, tag) && StateOf(d.slots, g, tag) == ReadbackInFlight
    ensures DataInv(FreeSlots(d, g[tag].base, g[tag].count), g)
  {
    var d' := FreeSlots(d, g[tag].base, g[tag].count);
    FreeRunByTag(d.slots, g, tag);
    D.MemFree(d.slots, d'.slots, d.arena, g, tag);
    forall u | u in d.locations ensures LocOk(d'.slots, d.cold, g, d.cfg.gran, u, d.locations[u]) {
      assert LocOk(d.slots, d.cold, g, d.cfg.gran, u, d.locations[u]);
    }
  }

  /** One run changes state, or is freed, while locations and leases stay. */
  lemma OneRunObjRuns(d: Daemon, g: Grants, d': Daemon, objects: map<nat, Obj>, base: map<nat, nat>, tag: nat,
                      st: SlotState)
    requires TableInv(d.slots, g) && ObjRuns(d, g, objects, base)
    requires Moved(d.slots, d'.slots, tag, st) || DaemonInv.Freed(d.slots, d'.slots, tag)
    requires st != ReservedD2H && st != D2HInFlight && d'.leases == d.leases && d'.locations == d.locations
    ensures ObjRuns(d', g, objects, base)
  {
    forall x | x in objects ensures x in base && ObjRun(d', g, Tid(x), objects[x].nbytes, objects[x].lease, base[x]) {
      MoveGentle(d, g, d', tag, st, Tid(x));
      ObjRunGentle(d, g, d', g, Tid(x), objects[x].nbytes, objects[x].lease, base[x]);
    }
  }

  /** The other readers are untouched by what happens to the run of `tag`. */
  lemma OthersSteady(w: World, d': Daemon, tag: nat, ws: map<nat, Warmer>)
    requires WarmsInv(w.d, w.g, w.st.objects, w.warmers) && HoldsInv(w.d, w.g, w.st.objects, w.holds)
    requires OnlyTag(w.d.slots, d'.slots, tag) && StateOf(w.d.slots, w.g, tag) == ReadbackInFlight
    requires d'.leases == w.d.leases && d'.arena == w.d.arena && d'.locations.Keys >= w.d.locations.Keys
    requires forall t | t in ws :: t in w.warmers && ws[t] == w.warmers[t] && ws[t].tag != tag
    ensures WarmsInv(d', w.g, w.st.objects, ws) && HoldsInv(d', w.g, w.st.objects, w.holds)
  {
    forall t | t in ws ensures WarmOk(d', w.g, w.st.objects, ws[t]) {
      assert WarmOk(w.d, w.g, w.st.objects, w.warmers[t]);
      WarmSteady(w.d, w.g, d', w.g, w.st.objects, ws[t]);
    }
    forall k | k in w.holds ensures w.holds[k].tag in w.g && w.holds[k].tag != tag {
      assert HoldOk(w.d, w.g, w.st.objects, w.holds[k]);
    }
    HoldsFrame(w, d', w.g);
  }

  lemma FailParts(w: World, th: nat, tag: nat)
    requires Orderly(w.d, w.g) && ObjRuns(w.d, w.g, w.st.objects, w.base) && HoldsInv(w.d, w.g, w.st.objects, w.holds)
    requires WarmsInv(w.d, w.g, w.st.objects, w.warmers) && th in w.warmers && tag == w.warmers[th].tag
    requires WarmOk(w.d, w.g, w.st.objects, w.warmers[th])
    ensures var d' := FreeSlots(w.d, w.g[tag].base, w.g[tag].count);
      && Orderly(d', w.g) && ObjRuns(d', w.g, w.st.objects, w.base) && HoldsInv(d', w.g, w.st.objects, w.holds)
      && WarmsInv(d', w.g, w.st.objects, w.warmers - {th})
  {
    var d' := FreeSlots(w.d, w.g[tag].base, w.g[tag].count);
    FreeRunByTag(w.d.slots, w.g, tag);
    FailOrderly(w.d, w.g, tag);
    OneRunObjRuns(w.d, w.g, d', w.st.objects, w.base, tag, Free);
    OthersSteady(w, d', tag, w.warmers - {th});
  }

  lemma StepWarmFail(w: World, th: nat)
    requires WorldInv(w)
    ensures WorldInv(ApplyWarmFail(w, th))
  {
    if th in w.warmers {
      assert WarmOk(w.d, w.g, w.st.objects, w.warmers[th]);
      FailParts(w, th, w.warmers[th].tag);
    }
  }

  // ------------------------------------------------------ a read-back succeeds

  /** The location that the finished read-back publishes. */
  function Published(w: World, r: Warmer): Location
    requires Tid(r.id) in w.d.locations && r.tag in w.g
  {
    w.d.locations[Tid(r.id)].(kind := LocPinned, slot := w.g[r.tag].base, nbytes := w.g[r.tag].nbytes)
  }

  ghost predicate ReadBack(w: World, r: Warmer) {
    && WarmOk(w.d, w.g, w.st.objects, r) && r.filled == w.g[r.tag].count
    && r.id in w.st.objects && w.st.objects[r.id].state != Creating && r.id in w.base
    && ObjRun(w.d, w.g, Tid(r.id), w.st.objects[r.id].nbytes, w.st.objects[r.id].lease, w.base[r.id])
  }

  lemma WarmMem(slots: seq<Slot>, slots': seq<Slot>, arena: seq<Piece>, g: Grants, tag: nat)
    requires TableInv(slots, g) && MemInv(slots, arena, g) && Moved(slots, slots', tag, PinnedValid)
      && Held(slots, g, tag)
    requires g[tag].base + g[tag].count <= |arena|
    requires arena[g[tag].base..g[tag].base + g[tag].count] == Pieces(g[tag].tensor, g[tag].version, g[tag].count)
    ensures MemInv(slots', arena, g)
  {
    var lo, hi := g[tag].base, g[tag].base + g[tag].count;
    forall i | 0 <= i < |slots'| && Readable(slots'[i].state) && slots'[i].lease in g && g[slots'[i].lease].base <= i
      ensures arena[i] == Piece(slots'[i].tensor, slots'[i].version, i - g[slots'[i].lease].base)
    {
      assert SlotInv(slots, g, i);
      if slots'[i].lease == tag {
        assert arena[lo..hi][i - lo] == Pieces(g[tag].tensor, g[tag].version, g[tag].count)[i - lo];
      }
    }
  }

  lemma WarmLocs(d: Daemon, g: Grants, slots': seq<Slot>, tag: nat, loc: Location)
    requires TableInv(d.slots, g) && d.cfg.gran > 0 && LocInv(d.slots, d.cold, g, d.cfg.gran, d.locations)
    requires Held(d.slots, g, tag) && Moved(d.slots, slots', tag, PinnedValid)
    requires loc.kind == LocPinned && loc.slot == g[tag].base && loc.version == g[tag].version
      && loc.nbytes == g[tag].nbytes
    ensures LocInv(slots', d.cold, g, d.cfg.gran, d.locations[g[tag].tensor := loc])
  {
    var locs := d.locations[g[tag].tensor := loc];
    forall u | u in locs ensures LocOk(slots', d.cold, g, d.cfg.gran, u, locs[u]) {
      if u != g[tag].tensor {
        assert LocOk(d.slots, d.cold, g, d.cfg.gran, u, d.locations[u]);
      }
    }
  }

  function Warmed(d: Daemon, L: Lease, loc: Location): Daemon {
    d.(slots := SetState(d.slots, L.base, L.count, PinnedValid), locations := d.locations[L.tensor := loc])
  }

  lemma WarmedCore(d: Daemon, g: Grants, tag: nat, loc: Location)
    requires CoreInv(d, g) && Held(d.slots, g, tag) && StateOf(d.slots, g, tag) == ReadbackInFlight
    ensures CoreInv(Warmed(d, g[tag], loc), g)
  {
    CoreMove(d, g, tag, PinnedValid);
    CoreForget(d.(slots := SetState(d.slots, g[tag].base, g[tag].count, PinnedValid)), g,
      d.locations[g[tag].tensor := loc], d.cold);
  }

  lemma WarmedData(d: Daemon, g: Grants, tag: nat, loc: Location)
    requires CoreInv(d, g) && DataInv(d, g) && Held(d.slots, g, tag)
    requires g[tag].base + g[tag].count <= |d.arena|
    requires d.arena[g[tag].base..g[tag].base + g[tag].count] == Pieces(g[tag].tensor, g[tag].version, g[tag].count)
    requires loc.kind == LocPinned && loc.slot == g[tag].base && loc.version == g[tag].version
      && loc.nbytes == g[tag].nbytes
    ensures DataInv(Warmed(d, g[tag], loc), g)
  {
    var slots' := SetState(d.slots, g[tag].base, g[tag].count, PinnedValid);
    SetStateByTag(d.slots, g, tag, PinnedValid);
    WarmMem(d.slots, slots', d.arena, g, tag);
    WarmLocs(d, g, slots', tag, loc);
  }

  lemma WarmedOrderly(w: World, r: Warmer)
    requires Orderly(w.d, w.g) && ReadBack(w, r)
    ensures Orderly(Warmed(w.d, w.g[r.tag], Published(w, r)), w.g)
  {
    var L, loc := w.g[r.tag], Published(w, r);
    WarmedCore(w.d, w.g, r.tag, loc);
    assert r.data[..r.filled] == r.data;
    WarmedData(w.d, w.g, r.tag, loc);
    UpdateCold(w.d.locations, w.d.nextCold, L.tensor, loc, w.d.nextCold);
  }

  lemma WarmedOwn(w: World, r: Warmer)
    requires Orderly(w.d, w.g) && ReadBack(w, r)
    ensures ObjRun(Warmed(w.d, w.g[r.tag], Published(w, r)), w.g, Tid(r.id),
                   w.st.objects[r.id].nbytes, w.st.objects[r.id].lease, w.g[r.tag].base)
  {
    var d', lease := Warmed(w.d, w.g[r.tag], Published(w, r)), w.st.objects[r.id].lease;
    SetStateByTag(w.d.slots, w.g, r.tag, PinnedValid);
    if lease in w.g && Unfinished(d'.slots, w.g, lease) {
      TagUnfinished(w.d.slots, d'.slots, w.g, r.tag, PinnedValid, lease);
    }
  }

  lemma WarmedObjRuns(w: World, r: Warmer)
    requires Orderly(w.d, w.g) && ReadBack(w, r) && ObjRuns(w.d, w.g, w.st.objects, w.base)
    ensures ObjRuns(Warmed(w.d, w.g[r.tag], Published(w, r)), w.g, w.st.objects, w.base[r.id := w.g[r.tag].base])
  {
    var d', base' := Warmed(w.d, w.g[r.tag], Published(w, r)), w.base[r.id := w.g[r.tag].base];
    SetStateByTag(w.d.slots, w.g, r.tag, PinnedValid);
    forall x | x in w.st.objects
      ensures x in base' && ObjRun(d', w.g, Tid(x), w.st.objects[x].nbytes, w.st.objects[x].lease, base'[x])
    {
      if x == r.id {
        WarmedOwn(w, r);
      } else {
        MoveGentle(w.d, w.g, d'.(locations := w.d.locations), r.tag, PinnedValid, Tid(x));
        assert Gentle(w.d, w.g, d', Tid(x)) by { WarmedElsewhere(w.d, w.g, d', w.g[r.tag], Tid(x)); }
        ObjRunGentle(w.d, w.g, d', w.g, Tid(x), w.st.objects[x].nbytes, w.st.objects[x].lease, w.base[x]);
      }
    }
  }

  /** Publishing one tensor's location is nothing to another tensor. */
  lemma WarmedElsewhere(d: Daemon, g: Grants, d': Daemon, L: Lease, t: nat)
    requires t != L.tensor && L.tensor in d'.locations && d'.locations
      == d.locations[L.tensor := d'.locations[L.tensor]]
    requires Gentle(d, g, d'.(locations := d.locations), t)
    ensures Gentle(d, g, d', t)
  {
  }

  lemma WarmedReaders(w: World, th: nat, token: nat)
    requires Orderly(w.d, w.g) && th in w.warmers && ReadBack(w, w.warmers[th]) && token !in w.holds
    requires WarmsInv(w.d, w.g, w.st.objects, w.warmers) && HoldsInv(w.d, w.g, w.st.objects, w.holds)
    ensures var r := w.warmers[th];
      var d', st' := Warmed(w.d, w.g[r.tag], Published(w, r)), RestoreGrant(w.st, r.id, true);
      && WarmsInv(d', w.g, st'.objects, w.warmers - {th})
      && HoldsInv(d', w.g, st'.objects, w.holds[token := Hold(r.id, r.tag)])
  {
    var r := w.warmers[th];
    var d' := Warmed(w.d, w.g[r.tag], Published(w, r));
    SetStateByTag(w.d.slots, w.g, r.tag, PinnedValid);
    OthersSteady(w, d', r.tag, w.warmers - {th});
    GrantWarms(d', w.g, w.st, w.warmers - {th}, r.id, true);
    assert HoldOk(d', w.g, w.st.objects, Hold(r.id, r.tag));
    GrantHolds(d', w.g, w.st, w.holds, r.id, true, token, Hold(r.id, r.tag));
  }

  lemma WarmedKnown(w: World, r: Warmer)
    requires KnownInv(w.g, w.d.locations, w.st) && Tid(r.id) in w.d.locations && r.tag in w.g
      && w.g[r.tag].tensor == Tid(r.id)
    ensures KnownInv(w.g, Warmed(w.d, w.g[r.tag], Published(w, r)).locations, RestoreGrant(w.st, r.id, true))
  {
    KnownWeaker(w.g, w.d.locations, Warmed(w.d, w.g[r.tag], Published(w, r)).locations, w.st,
                RestoreGrant(w.st, r.id, true));
  }

  lemma WarmedRuns(w: World, r: Warmer)
    requires Orderly(w.d, w.g) && ObjRuns(w.d, w.g, w.st.objects, w.base) && ReadBack(w, r)
    ensures ObjRuns(Warmed(w.d, w.g[r.tag], Published(w, r)), w.g, RestoreGrant(w.st, r.id, true).objects,
                    w.base[r.id := w.g[r.tag].base])
  {
    WarmedObjRuns(w, r);
    GrantObjRuns(Warmed(w.d, w.g[r.tag], Published(w, r)), w.g, w.st, w.base[r.id := w.g[r.tag].base], r.id, true);
  }

  lemma StepWarmCommit(w: World, th: nat, token: nat)
    requires WorldInv(w) && (th in w.warmers ==> ReadyToCommit(w, w.warmers[th]))
    ensures WorldInv(ApplyWarmCommit(w, th, token))
  {
    if th in w.warmers && token !in w.holds {
      var r := w.warmers[th];
      assert WarmOk(w.d, w.g, w.st.objects, r);
      WarmedOrderly(w, r);
      RestoreGrantOk(w.st, r.id, true);
      WarmedKnown(w, r);
      WarmedRuns(w, r);
      WarmedReaders(w, th, token);
    }
  }
}

/**
 The gauge of pinned bytes as the daemon updates it. A run that is being read
 back is counted only once the read-back has succeeded, and is subtracted when
 it has failed, so the gauge lags behind the table.
 */
module HoldGauge {
  import opened SlotTable
  import opened DaemonState
  import opened DaemonInv
  import D = Durability
  import opened CanonicalStore
  import opened HoldModel
  import opened HoldInv
  import HoldTransfers
  import opened RestoreHold

  // ----------------------------------------------------------- slots read back

  ghost function RunOf(g: Grants, r: Warmer): nat { if r.tag in g then g[r.tag].count else 0 }

  /** Slots of all runs that are being read back. */
  ghost function WarmSlots(ws: map<nat, Warmer>, g: Grants): nat
    decreases |ws|
  {
    if ws == map[] then 0
    else
      var th :| th in ws;
      WarmRest(ws, th);
      RunOf(g, ws[th]) + WarmSlots(ws - {th}, g)
  }

  lemma WarmRest(ws: map<nat, Warmer>, th: nat)
    requires th in ws
    ensures |ws - {th}| < |ws|
  {
    assert (ws - {th}).Keys == ws.Keys - {th};
    assert |ws - {th}| == |(ws - {th}).Keys| && |ws| == |ws.Keys|;
  }

  lemma {:induction false} WarmSplit(ws: map<nat, Warmer>, g: Grants, th: nat)
    requires th in ws
    ensures WarmSlots(ws, g) == RunOf(g, ws[th]) + WarmSlots(ws - {th}, g)
    decreases |ws|
  {
    var u :| u in ws && WarmSlots(ws, g) == RunOf(g, ws[u]) + WarmSlots(ws - {u}, g);
    if u != th {
      WarmRest(ws, u);
      WarmRest(ws, th);
      WarmSplit(ws - {u}, g, th);
      WarmSplit(ws - {th}, g, u);
      assert ws - {u} - {th} == ws - {th} - {u};
    }
  }

  lemma {:induction false} WarmSame(ws: map<nat, Warmer>, ws': map<nat, Warmer>, g: Grants, g': Grants)
    requires ws'.Keys == ws.Keys && forall th | th in ws :: RunOf(g, ws[th]) == RunOf(g', ws'[th])
    ensures WarmSlots(ws, g) == WarmSlots(ws', g')
    decreases |ws|
  {
    if ws != map[] {
      var th :| th in ws;
      WarmRest(ws, th);
      WarmSplit(ws, g, th);
      WarmSplit(ws', g', th);
      WarmSame(ws - {th}, ws' - {th}, g, g');
    }
  }

  lemma {:induction false} WarmZeroIff(ws: map<nat, Warmer>, g: Grants)
    requires forall th | th in ws :: RunOf(g, ws[th]) > 0
    ensures WarmSlots(ws, g) == 0 <==> ws == map[]
  {
    if ws != map[] {
      var th :| th in ws;
      WarmSplit(ws, g, th);
    }
  }

  // ------------------------------------------------------------------- one step

  lemma {:induction false} ReleaseAllCfg(d: Daemon, objects: map<nat, Obj>, base: map<nat, nat>, order: seq<nat>)
    requires d.cfg.gran > 0
    ensures ReleaseAll(d, objects, base, order).cfg == d.cfg
    decreases |order|
  {
    if order != [] {
      var id := order[0];
      var d1 := if id in objects && id in base
        then ReleaseBacking(d, Tid(id), base[id], SlotsFor(d.cfg.gran, objects[id].nbytes), objects[id].lease) else d;
      ReleaseAllCfg(d1, objects, base, order[1..]);
    }
  }

  lemma DrainCfg(d: Daemon, x: nat, ok: bool, kind: LocKind)
    ensures WorkerCommit(d, x, ok, kind).cfg == d.cfg && ForceCommit(d, x, ok, kind).cfg == d.cfg
  {
  }

  lemma HandlerCfg(d: Daemon, g: Grants, a: D.Action, creating: bool)
    requires d.cfg.gran > 0 && !a.DoRegister? && !a.DoTimeout? && !a.DoWorkerCommit? && !a.DoForceCommit?
    ensures a.DoComplete? ==> Complete(d, a.c, creating).cfg == d.cfg
    ensures !a.DoComplete? ==> D.Apply(D.Sys(d, g), a).d.cfg == d.cfg
  {
    match a
    case DoReserve(rank, epoch, t, v, n, base) =>
    case DoDma(lease, part) =>
    case DoSubmit(rank, epoch, lease, slot) =>
    case DoComplete(cc) =>
    case DoRelease(rank, epoch, lease) =>
    case DoTake(x) =>
    case DoSnapshot(x) =>
    case DoCopy(x) =>
    case DoForceBegin(x, lease) =>
  }

  lemma PlainCfg(w: World, a: D.Action)
    requires CoreInv(w.d, w.g) && DataInv(w.d, w.g) && PlainEnabled(w, a)
    ensures PlainStep(w, a).d.cfg == w.d.cfg
  {
    if a.DoRegister? {
      D.DataInvalidateAll(w.d, w.g, a.victims);
    } else if a.DoTimeout? {
      D.DataInvalidate(w.d, w.g, a.victim);
    } else if a.DoWorkerCommit? || a.DoForceCommit? {
      DrainCfg(w.d, a.w, a.ok, a.kind);
    } else {
      HandlerCfg(w.d, w.g, a, a.DoComplete? && UnderCreation(w.st, a.c.tensor));
    }
  }

  lemma CfgKept(c: SealConfig, w: World, a: Action)
    requires CoreInv(w.d, w.g) && DataInv(w.d, w.g) && (a.Plain? ==> PlainEnabled(w, a.a)) && !Warms(a)
    ensures Apply(c, w, a).d.cfg == w.d.cfg
  {
    match a
    case Plain(p) => PlainCfg(w, p);
    case Table(act, order) => ReleaseAllCfg(w.d, w.st.objects, w.base, order);
    case CreateRun(th, rank, epoch, at) =>
    case CommitObject(rank, id, lease, h, tier) =>
    case Hit(token, id) =>
    case EndHold(token, order) => ReleaseAllCfg(w.d, w.st.objects, w.base, order);
  }

  predicate Warms(a: Action) { a.WarmBegin? || a.WarmFill? || a.WarmFail? || a.WarmCommit? }

  predicate Fails(w: World, a: Action) {
    a.WarmFail? && a.th in w.warmers && w.warmers[a.th].tag in w.g
  }

  predicate Commits(w: World, a: Action) {
    a.WarmCommit? && a.th in w.warmers && a.token !in w.holds && w.warmers[a.th].tag in w.g
  }

  /** How the daemon changes the gauge: a read-back counts when it commits, not when it takes its run. */
  ghost function GaugeStep(w: World, a: Action, w': World): int {
    if a.WarmBegin? then 0
    else if Commits(w, a) then w.g[w.warmers[a.th].tag].count * w.d.cfg.gran
    else w'.d.used - w.d.used
  }

  /** What a failed read-back takes off the gauge without ever having been added. */
  ghost function Lost(w: World, a: Action): nat {
    if Fails(w, a) then w.g[w.warmers[a.th].tag].count * w.d.cfg.gran else 0
  }

  /** The part of the occupied memory that the gauge does not know yet. */
  ghost function Pending(w: World): nat { WarmSlots(w.warmers, w.g) * w.d.cfg.gran }

  /** Every run that is read back is on record and has slots. */
  ghost predicate TagsKnown(ws: map<nat, Warmer>, g: Grants) {
    forall th | th in ws :: ws[th].tag in g && g[ws[th].tag].count > 0
  }

  lemma WarmTagsKnown(d: Daemon, g: Grants, objects: map<nat, Obj>, ws: map<nat, Warmer>)
    requires TableInv(d.slots, g) && WarmsInv(d, g, objects, ws)
    ensures TagsKnown(ws, g)
  {
    forall th | th in ws ensures ws[th].tag in g && g[ws[th].tag].count > 0 {
      assert WarmOk(d, g, objects, ws[th]);
    }
  }

  lemma GrantsGrown(ws: map<nat, Warmer>, g: Grants, g': Grants)
    requires TagsKnown(ws, g) && forall tag | tag in g :: tag in g' && g'[tag] == g[tag]
    ensures WarmSlots(ws, g') == WarmSlots(ws, g)
  {
    WarmSame(ws, ws, g, g');
  }

  lemma SameWarmers(c: SealConfig, w: World, a: Action)
    requires w.d.cfg.gran > 0 && !Warms(a)
    ensures Apply(c, w, a).warmers == w.warmers
  {
    match a
    case Plain(p) =>
    case Table(act, order) =>
    case CreateRun(th, rank, epoch, at) =>
    case CommitObject(rank, id, lease, h, tier) =>
    case Hit(token, id) =>
    case EndHold(token, order) =>
  }

  lemma WarmersKept(c: SealConfig, w: World, a: Action)
    requires CoreInv(w.d, w.g) && TagsKnown(w.warmers, w.g) && Enabled(c, w, a) && !Warms(a)
    ensures var w' := Apply(c, w, a); WarmSlots(w'.warmers, w'.g) == WarmSlots(w.warmers, w.g)
  {
    SameWarmers(c, w, a);
    var g' := Apply(c, w, a).g;
    forall tag | tag in w.g ensures tag in g' && g'[tag] == w.g[tag] {
      GrantKept(c, w, a, tag);
    }
    GrantsGrown(w.warmers, w.g, g');
  }

  lemma OneMoreWarm(ws: map<nat, Warmer>, g: Grants, th: nat, r: Warmer, L: Lease)
    requires TagsKnown(ws, g) && th !in ws && r.tag !in g
    ensures WarmSlots(ws[th := r], g[r.tag := L]) == WarmSlots(ws, g) + L.count
  {
    var ws', g' := ws[th := r], g[r.tag := L];
    WarmSplit(ws', g', th);
    assert ws' - {th} == ws;
    GrantsGrown(ws, g, g');
  }

  lemma BeginSlots(w: World, th: nat, id: nat, at: nat)
    requires w.d.cfg.gran > 0 && TagsKnown(w.warmers, w.g) && w.d.nextLease !in w.g
    ensures var w' := ApplyWarmBegin(w, th, id, at);
      w'.d.used - w.d.used == (WarmSlots(w'.warmers, w'.g) - WarmSlots(w.warmers, w.g)) * w.d.cfg.gran
  {
    if th !in w.warmers && CanWarm(w, id) && RunFree(w.d.slots, at, WarmLease(w, id, at).count) {
      var r := ApplyWarmBegin(w, th, id, at).warmers[th];
      OneMoreWarm(w.warmers, w.g, th, r, WarmLease(w, id, at));
    }
  }

  lemma EndSlots(w: World, th: nat)
    requires th in w.warmers && w.warmers[th].tag in w.g
    ensures WarmSlots(w.warmers - {th}, w.g) == WarmSlots(w.warmers, w.g) - w.g[w.warmers[th].tag].count
  {
    WarmSplit(w.warmers, w.g, th);
  }

  lemma FillSlots(w: World, th: nat)
    ensures var w' := ApplyWarmFill(w, th);
      w'.d.used == w.d.used && WarmSlots(w'.warmers, w'.g) == WarmSlots(w.warmers, w.g)
  {
    WarmSame(w.warmers, ApplyWarmFill(w, th).warmers, w.g, w.g);
  }

  lemma Spread(a: int, b: int, m: int)
    ensures (a - b) * m == a * m - b * m
  {
  }

  /** The gauge follows the occupied memory less what is pending, and loses what fails. */
  ghost predicate Follows(w: World, a: Action, w': World) {
    GaugeStep(w, a, w') == (w'.d.used - Pending(w')) - (w.d.used - Pending(w)) - Lost(w, a)
  }

  lemma OtherFollows(w: World, a: Action, w': World)
    requires !Warms(a) && w'.d.cfg == w.d.cfg && WarmSlots(w'.warmers, w'.g) == WarmSlots(w.warmers, w.g)
    ensures Follows(w, a, w')
  {
  }

  lemma BeginFollows(w: World, th: nat, id: nat, at: nat)
    requires w.d.cfg.gran > 0 && TagsKnown(w.warmers, w.g) && w.d.nextLease !in w.g
    ensures Follows(w, WarmBegin(th, id, at), ApplyWarmBegin(w, th, id, at))
  {
    var w' := ApplyWarmBegin(w, th, id, at);
    BeginSlots(w, th, id, at);
    Spread(WarmSlots(w'.warmers, w'.g), WarmSlots(w.warmers, w.g), w.d.cfg.gran);
  }

  lemma FailFollows(w: World, th: nat)
    ensures Follows(w, WarmFail(th), ApplyWarmFail(w, th))
  {
    if Fails(w, WarmFail(th)) {
      EndSlots(w, th);
      Spread(WarmSlots(w.warmers, w.g), w.g[w.warmers[th].tag].count, w.d.cfg.gran);
    }
  }

  lemma CommitFollows(w: World, th: nat, token: nat)
    ensures Follows(w, WarmCommit(th, token), ApplyWarmCommit(w, th, token))
  {
    if Commits(w, WarmCommit(th, token)) {
      EndSlots(w, th);
      Spread(WarmSlots(w.warmers, w.g), w.g[w.warmers[th].tag].count, w.d.cfg.gran);
    }
  }

  lemma FillFollows(w: World, th: nat)
    ensures Follows(w, WarmFill(th), ApplyWarmFill(w, th))
  {
    FillSlots(w, th);
  }

  lemma WarmFollows(c: SealConfig, w: World, a: Action)
    requires w.d.cfg.gran > 0 && TagsKnown(w.warmers, w.g) && w.d.nextLease !in w.g && Warms(a)
    ensures Follows(w, a, Apply(c, w, a))
  {
    match a
    case WarmBegin(th, id, at) => BeginFollows(w, th, id, at);
    case WarmFill(th) => FillFollows(w, th);
    case WarmFail(th) => FailFollows(w, th);
    case WarmCommit(th, token) => CommitFollows(w, th, token);
  }

  lemma GaugeFollows(c: SealConfig, w: World, a: Action, w': World)
    requires WorldInv(w) && Enabled(c, w, a) && w' == Apply(c, w, a)
    ensures Follows(w, a, w')
  {
    WarmTagsKnown(w.d, w.g, w.st.objects, w.warmers);
    if Warms(a) {
      HoldTransfers.FreshLease(w.d, w.g);
      WarmFollows(c, w, a);
    } else {
      CfgKept(c, w, a);
      WarmersKept(c, w, a);
      OtherFollows(w, a, w');
    }
  }

  // --------------------------------------------------------------------- runs

  /** The gauge after `n` steps of a run. */
  ghost function Gauge(tr: seq<World>, acts: seq<Action>, n: nat): int
    requires |tr| == |acts| + 1 && n < |tr|
  {
    if n == 0 then 0 else Gauge(tr, acts, n - 1) + GaugeStep(tr[n - 1], acts[n - 1], tr[n])
  }

  /** Bytes that failed read-backs took off the gauge so far. */
  ghost function Drift(tr: seq<World>, acts: seq<Action>, n: nat): nat
    requires |tr| == |acts| + 1 && n < |tr|
  {
    if n == 0 then 0 else Drift(tr, acts, n - 1) + Lost(tr[n - 1], acts[n - 1])
  }

  lemma FollowsAt(c: SealConfig, tr: seq<World>, acts: seq<Action>, k: nat)
    requires Run(c, tr, acts) && k < |acts|
    ensures Follows(tr[k], acts[k], tr[k + 1])
  {
    RunInv(c, tr, acts, k);
    assert StepAt(c, tr, acts, k);
    GaugeFollows(c, tr[k], acts[k], tr[k + 1]);
  }

  lemma {:induction false} GaugeSums(tr: seq<World>, acts: seq<Action>, n: nat)
    requires |tr| == |acts| + 1 && n < |tr| && tr[0].d.used == 0 && Pending(tr[0]) == 0
    requires forall k: nat | k < n :: Follows(tr[k], acts[k], tr[k + 1])
    ensures Gauge(tr, acts, n) == tr[n].d.used - Pending(tr[n]) - Drift(tr, acts, n)
  {
    if n > 0 {
      GaugeSums(tr, acts, n - 1);
      assert Follows(tr[n - 1], acts[n - 1], tr[n - 1 + 1]);
    }
  }

  lemma GaugeIs(c: SealConfig, tr: seq<World>, acts: seq<Action>, n: nat)
    requires Run(c, tr, acts) && n < |tr|
    ensures Gauge(tr, acts, n) == tr[n].d.used - Pending(tr[n]) - Drift(tr, acts, n)
  {
    forall k: nat | k < n ensures Follows(tr[k], acts[k], tr[k + 1]) {
      FollowsAt(c, tr, acts, k);
    }
    GaugeSums(tr, acts, n);
  }

  lemma PendingZeroIff(n: nat, gran: nat)
    requires gran > 0
    ensures n * gran == 0 <==> n == 0
  {
  }

  /** The gauge is the occupied memory exactly when nothing is being read back and nothing was lost. */
  lemma GaugeExactIff(c: SealConfig, tr: seq<World>, acts: seq<Action>, n: nat)
    requires Run(c, tr, acts) && n < |tr|
    ensures Gauge(tr, acts, n) <= tr[n].d.cfg.gran * InUse(tr[n].d.slots)
    ensures Gauge(tr, acts, n) == tr[n].d.cfg.gran * InUse(tr[n].d.slots) <==>
      tr[n].warmers == map[] && Drift(tr, acts, n) == 0
  {
    GaugeIs(c, tr, acts, n);
    RunInv(c, tr, acts, n);
    var w := tr[n];
    WarmTagsKnown(w.d, w.g, w.st.objects, w.warmers);
    WarmZeroIff(w.warmers, w.g);
    PendingZeroIff(WarmSlots(w.warmers, w.g), w.d.cfg.gran);
  }

  /** Nothing is lost exactly when no read-back has failed. */
  lemma {:induction false} NoDriftIff(c: SealConfig, tr: seq<World>, acts: seq<Action>, n: nat)
    requires Run(c, tr, acts) && n < |tr|
    ensures Drift(tr, acts, n) == 0 <==> forall k: nat | k < n :: !Fails(tr[k], acts[k])
  {
    if n > 0 {
      NoDriftIff(c, tr, acts, n - 1);
      LostNext(c, tr, acts, n - 1);
    }
  }

  lemma LostNext(c: SealConfig, tr: seq<World>, acts: seq<Action>, n: nat)
    requires Run(c, tr, acts) && n < |acts|
    ensures Lost(tr[n], acts[n]) == 0 <==> !Fails(tr[n], acts[n])
  {
    RunInv(c, tr, acts, n);
    LostIff(tr[n], acts[n]);
  }

  lemma LostIff(w: World, a: Action)
    requires WorldInv(w)
    ensures Lost(w, a) == 0 <==> !Fails(w, a)
  {
    WarmTagsKnown(w.d, w.g, w.st.objects, w.warmers);
    if Fails(w, a) {
      PendingZeroIff(w.g[w.warmers[a.th].tag].count, w.d.cfg.gran);
    }
  }
}

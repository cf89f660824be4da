/**
 Facts about doing the store's bulk operations one object, or one version, at a
 time and in any order; and sorting.
 */
module StoreLoops {
  import opened CanonicalKey
  import opened CanonicalStore
  import opened StoreInv

  // ------------------------------------------------------ one more at a time

  lemma InJobUnion(m: map<nat, Obj>, a: set<nat>, b: set<nat>, j: JobUid)
    requires a !! b
    ensures |InJob(m, a + b, j)| == |InJob(m, a, j)| + |InJob(m - a, b, j)|
  {
    assert InJob(m, a + b, j) == InJob(m, a, j) + InJob(m - a, b, j);
  }

  lemma IndexUnion(byKey: map<string, nat>, m: map<nat, Obj>, a: set<nat>, b: set<nat>)
    ensures IndexWithout(IndexWithout(byKey, m, a), m - a, b) == IndexWithout(byKey, m, a + b)
  {
    assert KeysOf(m, a + b) == KeysOf(m, a) + KeysOf(m - a, b);
  }

  lemma CountUnion(jobs: map<JobUid, nat>, m: map<nat, Obj>, a: set<nat>, b: set<nat>)
    requires a !! b
    ensures CountsWithout(CountsWithout(jobs, m, a), m - a, b) == CountsWithout(jobs, m, a + b)
  {
    forall j | j in jobs ensures |InJob(m, a + b, j)| == |InJob(m, a, j)| + |InJob(m - a, b, j)| {
      InJobUnion(m, a, b, j);
    }
  }

  /** Erasing objects in two rounds is erasing them together. */
  lemma RemoveUnion(st: Store, a: set<nat>, b: set<nat>)
    requires a !! b
    ensures Remove(Remove(st, a), b) == Remove(st, a + b)
  {
    IndexUnion(st.byKey, st.objects, a, b);
    CountUnion(st.jobs, st.objects, a, b);
    assert st.objects - a - b == st.objects - (a + b);
  }

  lemma RemoveMore(st: Store, ids: set<nat>, id: nat)
    requires id !in ids
    ensures Remove(Remove(st, ids), {id}) == Remove(st, ids + {id})
  {
    RemoveUnion(st, ids, {id});
  }

  lemma RemoveNone(st: Store)
    ensures Remove(st, {}) == st
  {
    var r := Remove(st, {});
    assert KeysOf(st.objects, {}) == {};
    forall j | j in st.jobs ensures InJob(st.objects, {}, j) == {} {
    }
    assert r.objects == st.objects && r.byKey == st.byKey && r.jobs == st.jobs;
  }

  // ----------------------------------------------------------------- sorting

  lemma FirstIsLeast(q: seq<nat>)
    requires Strictly(q) && q != []
    ensures IsLeast(q[0], Elements(q)) && Elements(q[1..]) == Elements(q) - {q[0]}
  {
    assert q == [q[0]] + q[1..];
  }

  lemma AscendingCons(s: set<nat>, m: nat)
    requires IsLeast(m, s)
    ensures Ascending(s) == [m] + Ascending(s - {m})
  {
    assert Least(s) == m;
  }

  lemma {:induction false} AscendingUnique(q: seq<nat>)
    requires Strictly(q)
    ensures q == Ascending(Elements(q))
    decreases |q|
  {
    if q == [] {
      assert Elements(q) == {};
    } else {
      FirstIsLeast(q);
      AscendingCons(Elements(q), q[0]);
      AscendingUnique(q[1..]);
      assert q == [q[0]] + q[1..];
    }
  }

  /** Put `x` at its place in a strictly ascending sequence. */
  method Insert(q: seq<nat>, x: nat) returns (r: seq<nat>)
    requires Strictly(q) && x !in q
    ensures Strictly(r) && Elements(r) == Elements(q) + {x}
  {
    var k := 0;
    while k < |q| && q[k] < x
      invariant 0 <= k <= |q| && forall i | 0 <= i < k :: q[i] < x
    {
      k := k + 1;
    }
    r := q[..k] + [x] + q[k..];
    InsertStrict(q, k, x);
    assert q == q[..k] + q[k..];
    assert forall y :: y in r <==> y in q || y == x;
  }

  lemma InsertStrict(q: seq<nat>, k: nat, x: nat)
    requires Strictly(q) && x !in q && k <= |q|
    requires (forall i | 0 <= i < k :: q[i] < x) && (k < |q| ==> q[k] >= x)
    ensures Strictly(q[..k] + [x] + q[k..])
  {
    var r := q[..k] + [x] + q[k..];
    assert forall i | 0 <= i < k :: r[i] == q[i];
    assert forall i | k < i < |r| :: r[i] == q[i - 1] && r[i] > x;
  }

  /** Sorting distinct numbers gives the one ascending arrangement of their set. */
  method Sort(ids: seq<nat>) returns (q: seq<nat>)
    requires forall i, j | 0 <= i < j < |ids| :: ids[i] != ids[j]
    ensures q == Ascending(Elements(ids)) && Strictly(q) && Elements(q) == Elements(ids)
  {
    q := [];
    for n := 0 to |ids|
      invariant Strictly(q) && Elements(q) == Elements(ids[..n])
    {
      assert forall x :: x in q <==> x in Elements(q);
      q := Insert(q, ids[n]);
      assert ids[..n + 1] == ids[..n] + [ids[n]];
    }
    assert ids[..|ids|] == ids;
    AscendingUnique(q);
  }

  lemma NewestLast(q: seq<nat>)
    requires Strictly(q) && q != []
    ensures Newer(Elements(q), q[|q| - 1]) == {}
  {
  }

  lemma NewerThanNext(q: seq<nat>, k: nat, x: nat)
    requires Strictly(q) && k + 1 < |q| && x in q
    ensures x > q[k] <==> x >= q[k + 1]
  {
    var i :| 0 <= i < |q| && q[i] == x;
  }

  lemma NewerStep(q: seq<nat>, k: nat)
    requires Strictly(q) && k + 1 < |q|
    ensures |Newer(Elements(q), q[k])| == |Newer(Elements(q), q[k + 1])| + 1
  {
    forall x | x in q ensures x > q[k] <==> x >= q[k + 1] {
      NewerThanNext(q, k, x);
    }
    assert Newer(Elements(q), q[k]) == Newer(Elements(q), q[k + 1]) + {q[k + 1]};
  }

  /** In ascending order, what stands behind an element is exactly what is newer. */
  lemma {:induction false} NewerBehind(q: seq<nat>, k: nat)
    requires Strictly(q) && k < |q|
    ensures |Newer(Elements(q), q[k])| == |q| - 1 - k
    decreases |q| - k
  {
    if k == |q| - 1 {
      NewestLast(q);
    } else {
      NewerBehind(q, k + 1);
      NewerStep(q, k);
    }
  }

  // --------------------------------------------------------- erasing, leaving

  /** Erasing one object, field by field. */
  lemma RemoveOne(st: Store, id: nat)
    requires id in st.objects
    ensures var o := st.objects[id]; var j := o.key.job;
      Remove(st, {id}) == st.(objects := st.objects - {id}, byKey := st.byKey - {o.ks},
                              jobs := if j in st.jobs then st.jobs[j := Monus(st.jobs[j], 1)] else st.jobs)
  {
    var o, j, r := st.objects[id], st.objects[id].key.job, Remove(st, {id});
    assert KeysOf(st.objects, {id}) == {o.ks};
    assert r.byKey == st.byKey - {o.ks};
    forall k | k in st.jobs ensures InJob(st.objects, {id}, k) == if k == j then {id} else {} {
    }
    assert r.jobs == if j in st.jobs then st.jobs[j := Monus(st.jobs[j], 1)] else st.jobs;
  }

  lemma LeftMore(m: map<nat, Obj>, rank: nat, ids: set<nat>, id: nat)
    requires id in m && id !in ids
    ensures Left(m, rank, ids + {id}) == Left(Left(m, rank, ids), rank, {id})
  {
  }

  lemma FreedMore(st: Store, rank: nat, ids: set<nat>, id: nat)
    requires id in st.objects && id !in ids
    ensures Freed(st, rank, ids + {id}) == Freed(st, rank, ids) + Freed(DropHolds(st, rank, ids), rank, {id})
  {
    DropHoldsIs(st, rank, ids);
    assert DropHolds(st, rank, ids).objects[id] == st.objects[id];
  }

  /** A rewrite that keeps identities commutes with erasing. */
  lemma RewriteRemoved(st: Store, m': map<nat, Obj>, ids: set<nat>)
    requires SameKeys(st.objects, m')
    ensures Remove(st, ids).(objects := m' - ids) == Remove(st.(objects := m'), ids)
  {
    assert KeysOf(st.objects, ids) == KeysOf(m', ids);
    forall j | j in st.jobs ensures InJob(st.objects, ids, j) == InJob(m', ids, j) {
    }
    assert Remove(st, ids).byKey == Remove(st.(objects := m'), ids).byKey;
    assert Remove(st, ids).jobs == Remove(st.(objects := m'), ids).jobs;
  }

  lemma LeftOne(m: map<nat, Obj>, rank: nat, id: nat)
    requires id in m
    ensures Left(m, rank, {id}) == if rank in m[id].holders then m[id := Unheld(m[id], rank)] else m
  {
  }

  lemma LeftRemoved(m: map<nat, Obj>, rank: nat, f: set<nat>, id: nat)
    ensures Left(m - f, rank, {id}) == Left(m, rank, {id}) - f
  {
  }

  /** After the objects `ids` were left and erased, leaving one more only rewrites what remains. */
  lemma LeaveRewrites(st: Store, rank: nat, ids: set<nat>, id: nat)
    requires id in st.objects && id !in ids
    ensures var st1 := DropHolds(st, rank, ids);
      st1.(objects := Left(st1.objects, rank, {id}))
        == Remove(st.(objects := Left(st.objects, rank, ids + {id})), Freed(st, rank, ids))
  {
    var m, f := Left(st.objects, rank, ids), Freed(st, rank, ids);
    DropHoldsIs(st, rank, ids);
    LeftMore(st.objects, rank, ids, id);
    LeftRemoved(m, rank, f, id);
    DropHoldsIs(st.(objects := m), rank, {id});
    RewriteRemoved(st.(objects := m), Left(m, rank, {id}), f);
  }

  lemma RemoveTwo(st: Store, f: set<nat>, f2: set<nat>, id: nat)
    requires id in st.objects && id !in f && (f2 == {} || f2 == {id})
    ensures Remove(Remove(st, f), f2) == Remove(st, f + f2)
  {
    if f2 == {} {
      RemoveNone(Remove(st, f));
      assert f + f2 == f;
    } else {
      RemoveMore(st, f, id);
    }
  }

  lemma FreedOne(st: Store, rank: nat, id: nat)
    ensures Freed(st, rank, {id}) == {} || Freed(st, rank, {id}) == {id}
  {
    if id in Freed(st, rank, {id}) {
      assert Freed(st, rank, {id}) == {id};
    } else {
      assert Freed(st, rank, {id}) == {};
    }
  }

  /** Leaving objects one by one is leaving them together. */
  lemma DropHoldsMore(st: Store, rank: nat, ids: set<nat>, id: nat)
    requires id in st.objects && id !in ids
    ensures DropHolds(DropHolds(st, rank, ids), rank, {id}) == DropHolds(st, rank, ids + {id})
  {
    var st1 := DropHolds(st, rank, ids);
    var m2 := Left(st.objects, rank, ids + {id});
    DropHoldsIs(st1, rank, {id});
    LeaveRewrites(st, rank, ids, id);
    FreedOne(st1, rank, id);
    RemoveTwo(st.(objects := m2), Freed(st, rank, ids), Freed(st1, rank, {id}), id);
    FreedMore(st, rank, ids, id);
    DropHoldsIs(st, rank, ids + {id});
  }

  lemma DropHoldsNone(st: Store, rank: nat)
    ensures DropHolds(st, rank, {}) == st
  {
    DropHoldsIs(st, rank, {});
    assert Left(st.objects, rank, {}) == st.objects;
    assert Freed(st, rank, {}) == {};
    RemoveNone(st);
  }

  predicate Distinct(q: seq<nat>) { forall i, j | 0 <= i < j < |q| :: q[i] != q[j] }

  lemma NotedAreFreed(st: Store, rank: nat, noted: set<nat>, gone: set<nat>)
    requires forall id :: id in noted <==> id in st.objects && rank in st.objects[id].holders
    requires var m := Left(st.objects, rank, st.objects.Keys);
      forall id :: id in gone <==> id in noted && m[id].holders == {} && !InFlight(m[id])
    ensures gone == Freed(st, rank, st.objects.Keys)
  {
    forall id | id in st.objects && rank in st.objects[id].holders
      ensures st.objects[id].holders - {rank} == {} <==> st.objects[id].holders == {rank}
    {
    }
  }

  /** Leaving a single object, as the release handler does it. */
  lemma LeaveOneIs(st: Store, rank: nat, id: nat)
    ensures var held := id in st.objects && rank in st.objects[id].holders;
      && DropHolds(st, rank, {id})
           == (if held then MaybeFree(st.(objects := st.objects[id := Unheld(st.objects[id], rank)]), id) else st)
      && (id in Freed(st, rank, {id}) <==>
            held && Unheld(st.objects[id], rank).holders == {} && !InFlight(st.objects[id]))
  {
    DropHoldsIs(st, rank, {id});
    FreedOne(st, rank, id);
    if id in st.objects {
      LeftOne(st.objects, rank, id);
      RemoveNone(st.(objects := Left(st.objects, rank, {id})));
      if rank in st.objects[id].holders {
        assert st.objects[id].holders - {rank} == {} <==> st.objects[id].holders == {rank};
      }
    } else {
      DropHoldsNone(st, rank);
      DropHoldsIs(st, rank, {});
      AbsentChangesNothing(st, rank, {}, id);
      assert {} + {id} == {id};
    }
  }

  function HeldBy(st: Store, rank: nat, ids: set<nat>): set<nat> {
    set id | id in ids && id in st.objects && rank in st.objects[id].holders
  }

  lemma Untouched(st: Store, rank: nat, ids: set<nat>, id: nat)
    requires id !in ids
    ensures var st1 := DropHolds(st, rank, ids);
      (id in st1.objects <==> id in st.objects) && (id in st.objects ==> st1.objects[id] == st.objects[id])
  {
  }

  /** The next object counts as released or freed exactly if it does so on its own. */
  lemma CountNext(st: Store, rank: nat, ids: seq<nat>, n: nat)
    requires n < |ids| && Distinct(ids)
    ensures var st1, id := LeaveSeq(st, rank, ids[..n]), ids[n];
      && |HeldBy(st, rank, Elements(ids[..n + 1]))| == |HeldBy(st, rank, Elements(ids[..n]))|
           + (if id in st1.objects && rank in st1.objects[id].holders then 1 else 0)
      && |Freed(st, rank, Elements(ids[..n + 1]))| == |Freed(st, rank, Elements(ids[..n]))|
           + (if id in Freed(st1, rank, {id}) then 1 else 0)
  {
    var d, id := Elements(ids[..n]), ids[n];
    LeaveSeqIs(st, rank, ids[..n]);
    assert ids[..n + 1] == ids[..n] + [id];
    assert Elements(ids[..n + 1]) == d + {id} && id !in d;
    Untouched(st, rank, d, id);
    HeldMore(st, rank, d, id);
    FreedCount(st, DropHolds(st, rank, d), rank, d, id);
  }

  lemma HeldMore(st: Store, rank: nat, d: set<nat>, id: nat)
    requires id !in d
    ensures |HeldBy(st, rank, d + {id})| == |HeldBy(st, rank, d)|
              + (if id in st.objects && rank in st.objects[id].holders then 1 else 0)
  {
    var one := if id in st.objects && rank in st.objects[id].holders then {id} else {};
    assert HeldBy(st, rank, d + {id}) == HeldBy(st, rank, d) + one;
  }

  lemma FreedCount(st: Store, st1: Store, rank: nat, d: set<nat>, id: nat)
    requires id !in d && (id in st1.objects <==> id in st.objects)
    requires id in st.objects ==> st1.objects[id] == st.objects[id]
    ensures |Freed(st, rank, d + {id})| == |Freed(st, rank, d)| + (if id in Freed(st1, rank, {id}) then 1 else 0)
  {
    var one := if id in Freed(st1, rank, {id}) then {id} else {};
    assert Freed(st, rank, d + {id}) == Freed(st, rank, d) + one;
  }

  /** Leaving the objects of a list in its order. */
  function LeaveSeq(st: Store, rank: nat, ids: seq<nat>): Store
    decreases |ids|
  {
    if ids == [] then st else DropHolds(LeaveSeq(st, rank, ids[..|ids| - 1]), rank, {ids[|ids| - 1]})
  }

  /** The order of the list does not matter. */
  lemma {:induction false} LeaveSeqIs(st: Store, rank: nat, ids: seq<nat>)
    requires Distinct(ids)
    ensures LeaveSeq(st, rank, ids) == DropHolds(st, rank, Elements(ids))
    decreases |ids|
  {
    if ids == [] {
      DropHoldsNone(st, rank);
      assert Elements(ids) == {};
    } else {
      LeaveSeqIs(st, rank, ids[..|ids| - 1]);
      LeaveNext(st, rank, ids, |ids| - 1);
      assert ids[..|ids|] == ids;
    }
  }

  /** The next object of a list without repetition, whether or not it is still in the table. */
  lemma LeaveNext(st: Store, rank: nat, ids: seq<nat>, n: nat)
    requires n < |ids| && Distinct(ids)
    ensures DropHolds(DropHolds(st, rank, Elements(ids[..n])), rank, {ids[n]})
      == DropHolds(st, rank, Elements(ids[..n + 1]))
  {
    var d, id := Elements(ids[..n]), ids[n];
    assert ids[..n + 1] == ids[..n] + [id];
    assert Elements(ids[..n + 1]) == d + {id};
    assert id !in d;
    if id in st.objects {
      DropHoldsMore(st, rank, d, id);
    } else {
      DropHoldsAbsent(st, rank, d, id);
    }
  }

  lemma AbsentChangesNothing(st: Store, rank: nat, ids: set<nat>, id: nat)
    requires id !in st.objects
    ensures Left(st.objects, rank, ids + {id}) == Left(st.objects, rank, ids)
    ensures Freed(st, rank, ids + {id}) == Freed(st, rank, ids)
  {
  }

  lemma DropHoldsAbsent(st: Store, rank: nat, ids: set<nat>, id: nat)
    requires id !in st.objects
    ensures DropHolds(DropHolds(st, rank, ids), rank, {id}) == DropHolds(st, rank, ids + {id})
  {
    var st1 := DropHolds(st, rank, ids);
    DropHoldsIs(st, rank, ids);
    DropHoldsIs(st, rank, ids + {id});
    AbsentChangesNothing(st, rank, ids, id);
    AbsentChangesNothing(st1, rank, {}, id);
    DropHoldsNone(st1, rank);
    DropHoldsIs(st1, rank, {});
    DropHoldsIs(st1, rank, {id});
    assert {} + {id} == {id};
  }

  // ----------------------------------------------------- releasing what is idle

  function IdleAmong(m: map<nat, Obj>, ids: set<nat>): set<nat> {
    set id | id in ids && id in m && !InFlight(m[id])
  }

  /** The state of releasing a list after `n` of its objects. */
  ghost predicate ReleasedTo(st: Store, ids: seq<nat>, n: nat, gone: set<nat>, dropped: nat, skipped: nat) {
    && n <= |ids| && Distinct(ids) && Elements(ids) <= st.objects.Keys
    && gone == IdleAmong(st.objects, Elements(ids[..n]))
    && dropped == |gone| && dropped + skipped == n
    && (skipped == 0 <==> AllIdle(st, ids[..n]))
  }

  ghost predicate AllIdle(st: Store, ids: seq<nat>) {
    forall id | id in ids :: id in st.objects && !InFlight(st.objects[id])
  }

  /** One more object of a list is released, or found busy. */
  lemma ReleaseNext(st: Store, ids: seq<nat>, n: nat, gone: set<nat>, dropped: nat, skipped: nat)
    requires ReleasedTo(st, ids, n, gone, dropped, skipped) && n < |ids|
    ensures ids[n] in st.objects && ids[n] !in gone
    ensures if InFlight(st.objects[ids[n]]) then ReleasedTo(st, ids, n + 1, gone, dropped, skipped + 1)
            else ReleasedTo(st, ids, n + 1, gone + {ids[n]}, dropped + 1, skipped)
  {
    var id := ids[n];
    assert id in Elements(ids);
    assert ids[..n + 1] == ids[..n] + [id];
    assert Elements(ids[..n + 1]) == Elements(ids[..n]) + {id};
    assert id !in ids[..n];
    IdleMore(st.objects, Elements(ids[..n]), id);
  }

  lemma IdleMore(m: map<nat, Obj>, d: set<nat>, id: nat)
    requires id !in d && id in m
    ensures IdleAmong(m, d + {id}) == if InFlight(m[id]) then IdleAmong(m, d) else IdleAmong(m, d) + {id}
  {
  }

  // --------------------------------------------------------------- retirement

  /** Objects of other versions are untouched when a set of versions is retired. */
  lemma RetireOther(st: Store, rk: RoleKey, vs: set<nat>, v: nat)
    requires v !in vs
    ensures IdleOf(Retire(st, rk, vs), rk, {v}) == IdleOf(st, rk, {v})
    ensures Busy(Retire(st, rk, vs), VersionKey(rk.job, rk.role, v)) == Busy(st, VersionKey(rk.job, rk.role, v))
  {
    var vk, st1 := VersionKey(rk.job, rk.role, v), Retire(st, rk, vs);
    if Busy(st, vk) {
      var id :| id in st.objects && OfVersion(st.objects[id], vk) && InFlight(st.objects[id]);
      assert id in st1.objects && st1.objects[id] == st.objects[id];
    }
  }

  lemma IdleOfMore(st: Store, rk: RoleKey, vs: set<nat>, v: nat)
    requires v !in vs
    ensures IdleOf(st, rk, vs + {v}) == IdleOf(st, rk, vs) + IdleOf(st, rk, {v})
    ensures IdleOf(st, rk, vs) !! IdleOf(st, rk, {v})
  {
  }

  function Expired(st: Store, rk: RoleKey, vs: set<nat>, vk: VersionKey): bool {
    vk.job == rk.job && vk.role == rk.role && vk.version in vs && !Busy(st, vk)
  }

  /** Manifests after the versions `vs` are retired. */
  function Surviving(st: Store, rk: RoleKey, vs: set<nat>): map<VersionKey, Manifest> {
    map vk | vk in st.manifests && !Expired(st, rk, vs, vk) :: st.manifests[vk]
  }

  lemma RetireIs(st: Store, rk: RoleKey, vs: set<nat>)
    ensures Retire(st, rk, vs) == Remove(st, IdleOf(st, rk, vs)).(manifests := Surviving(st, rk, vs))
  {
    assert Retire(st, rk, vs).manifests == Surviving(st, rk, vs);
  }

  lemma SurvivingMore(st: Store, rk: RoleKey, vs: set<nat>, v: nat)
    requires v !in vs
    ensures Surviving(Retire(st, rk, vs), rk, {v}) == Surviving(st, rk, vs + {v})
  {
    RetireIs(st, rk, vs);
    RetireOther(st, rk, vs, v);
    var st1 := Retire(st, rk, vs);
    forall vk ensures vk in Surviving(st1, rk, {v}) <==> vk in Surviving(st, rk, vs + {v}) {
      if vk.job == rk.job && vk.role == rk.role && vk.version == v {
        assert vk == VersionKey(rk.job, rk.role, v);
      }
    }
  }

  lemma RemoveKeepsManifests(st: Store, m: map<VersionKey, Manifest>, ids: set<nat>)
    ensures Remove(st.(manifests := m), ids) == Remove(st, ids).(manifests := m)
  {
  }

  /** Retiring versions one by one is retiring them together. */
  lemma RetireMore(st: Store, rk: RoleKey, vs: set<nat>, v: nat)
    requires v !in vs
    ensures Retire(Retire(st, rk, vs), rk, {v}) == Retire(st, rk, vs + {v})
  {
    var st1, a, b := Retire(st, rk, vs), IdleOf(st, rk, vs), IdleOf(st, rk, {v});
    RetireIs(st, rk, vs);
    RetireIs(st, rk, vs + {v});
    RetireIs(st1, rk, {v});
    RetireOther(st, rk, vs, v);
    IdleOfMore(st, rk, vs, v);
    RemoveUnion(st, a, b);
    RemoveKeepsManifests(Remove(st, a), Surviving(st, rk, vs), b);
    SurvivingMore(st, rk, vs, v);
  }

  lemma RetireNone(st: Store, rk: RoleKey)
    ensures Retire(st, rk, {}) == st
  {
    RetireIs(st, rk, {});
    assert IdleOf(st, rk, {}) == {};
    RemoveNone(st);
    assert Surviving(st, rk, {}) == st.manifests;
  }

  /** Retiring the versions of a list in its order. */
  function RetireSeq(st: Store, rk: RoleKey, vs: seq<nat>): Store
    decreases |vs|
  {
    if vs == [] then st else Retire(RetireSeq(st, rk, vs[..|vs| - 1]), rk, {vs[|vs| - 1]})
  }

  lemma {:induction false} RetireSeqIs(st: Store, rk: RoleKey, vs: seq<nat>)
    requires Distinct(vs)
    ensures RetireSeq(st, rk, vs) == Retire(st, rk, Elements(vs))
    decreases |vs|
  {
    if vs == [] {
      RetireNone(st, rk);
      assert Elements(vs) == {};
    } else {
      var p, v := vs[..|vs| - 1], vs[|vs| - 1];
      RetireSeqIs(st, rk, p);
      assert vs == p + [v];
      assert Elements(vs) == Elements(p) + {v} && v !in Elements(p);
      RetireMore(st, rk, Elements(p), v);
    }
  }

  /** A version is outdated exactly if it stands at `keep` or behind in the newest-first list. */
  lemma OutdatedAt(st: Store, rk: RoleKey, keep: nat, up: seq<nat>, i: nat)
    requires Strictly(up) && Elements(up) == SealedVersions(st, rk) && i < |up|
    ensures var v := up[|up| - 1 - i];
      v in Outdated(st, rk, keep) <==> i >= keep && v != LatestOf(st, rk)
  {
    NewerBehind(up, |up| - 1 - i);
    assert up[|up| - 1 - i] in Elements(up);
  }

  // -------------------------------------------------------------------- sums

  function SizeIn(m: map<nat, Obj>, id: nat): nat { if id in m then m[id].nbytes else 0 }

  lemma {:induction false} TotalInsert(m: map<nat, Obj>, a: seq<nat>, x: nat, b: seq<nat>)
    ensures TotalBytes(m, a + [x] + b) == TotalBytes(m, a + b) + SizeIn(m, x)
    decreases |b|
  {
    if b == [] {
      assert a + [x] + b == a + [x] && (a + [x])[..|a|] == a && a + b == a;
    } else {
      var c := b[..|b| - 1];
      assert (a + [x] + b)[..|a| + |b|] == a + [x] + c;
      assert (a + b)[..|a| + |b| - 1] == a + c;
      TotalInsert(m, a, x, c);
    }
  }

  /** The size of a list of distinct members does not depend on its order. */
  lemma {:induction false} TotalAnyOrder(m: map<nat, Obj>, p: seq<nat>, q: seq<nat>)
    requires Distinct(p) && Distinct(q) && Elements(p) == Elements(q)
    ensures TotalBytes(m, p) == TotalBytes(m, q)
    decreases |p|
  {
    if p == [] {
      if q != [] {
        HasElement(q);
      }
    } else {
      var x, r := p[|p| - 1], p[..|p| - 1];
      assert x in Elements(q);
      var k :| 0 <= k < |q| && q[k] == x;
      var a, b := q[..k], q[k + 1..];
      assert q == a + [x] + b && p == r + [x];
      TakeOut(a, x, b, r);
      TotalAnyOrder(m, r, a + b);
      TotalInsert(m, a, x, b);
    }
  }

  lemma HasElement(q: seq<nat>)
    requires q != []
    ensures Elements(q) != {}
  {
    assert q[0] in Elements(q);
  }

  lemma TakeOut(a: seq<nat>, x: nat, b: seq<nat>, r: seq<nat>)
    requires Distinct(a + [x] + b) && Distinct(r + [x]) && Elements(a + [x] + b) == Elements(r + [x])
    ensures Distinct(a + b) && Distinct(r) && Elements(a + b) == Elements(r)
  {
    var q := a + [x] + b;
    assert forall i | 0 <= i < |a + b| :: (a + b)[i] == q[if i < |a| then i else i + 1];
    assert q[|a|] == x;
    assert forall i | 0 <= i < |r| :: (r + [x])[i] == r[i];
    assert (r + [x])[|r|] == x;
    forall y ensures y in a + b <==> y in q && y != x {
    }
    forall y ensures y in r <==> y in r + [x] && y != x {
    }
    assert forall y :: y in q <==> y in Elements(q);
    assert forall y :: y in r + [x] <==> y in Elements(r + [x]);
  }

  lemma StrictlyDistinct(q: seq<nat>)
    requires Strictly(q)
    ensures Distinct(q)
  {
  }

  // ------------------------------------------------------------- loop states

  lemma OneVersion(st: Store, rk: RoleKey, v: nat, ids: seq<nat>)
    requires var vk := VersionKey(rk.job, rk.role, v);
      Elements(ids) == set id | id in st.objects && OfVersion(st.objects[id], vk)
    ensures var vk := VersionKey(rk.job, rk.role, v);
      && IdleAmong(st.objects, Elements(ids)) == IdleOf(st, rk, {v})
      && (Busy(st, vk) <==> exists id :: id in ids && id in st.objects && InFlight(st.objects[id]))
      && Surviving(st, rk, {v}) == (if Busy(st, vk) then st.manifests else st.manifests - {vk})
      && Retire(st, rk, {v}) == Remove(st, IdleOf(st, rk, {v})).(manifests := Surviving(st, rk, {v}))
  {
    var vk := VersionKey(rk.job, rk.role, v);
    RetireIs(st, rk, {v});
    forall k | k in st.manifests ensures Expired(st, rk, {v}, k) <==> k == vk && !Busy(st, vk) {
    }
    assert forall id :: id in ids <==> id in Elements(ids);
  }

  lemma VersionsAre(st: Store, rk: RoleKey, vs: seq<nat>)
    requires forall v :: v in vs <==> SealedIn(st, VersionKey(rk.job, rk.role, v))
    ensures Elements(vs) == SealedVersions(st, rk)
  {
    forall v | v in vs ensures v in SealedVersions(st, rk) {
      assert VersionKey(rk.job, rk.role, v).version == v;
    }
  }

  /** The versions retired when the newest-first list has been processed up to `i`. */
  ghost predicate Retired(st: Store, rk: RoleKey, keep: nat, down: seq<nat>, up: seq<nat>, done: seq<nat>, i: nat) {
    && Strictly(up) && Elements(up) == SealedVersions(st, rk) && |down| == |up| && keep <= i
    && (forall k | 0 <= k < |up| :: down[k] == up[|up| - 1 - k])
    && Distinct(done)
    && (forall v :: v in done <==> exists k :: keep <= k < i && k < |down| && down[k] == v && v != LatestOf(st, rk))
  }

  lemma RetiredNext(st: Store, rk: RoleKey, keep: nat, down: seq<nat>, up: seq<nat>, done: seq<nat>, i: nat)
    requires Retired(st, rk, keep, down, up, done, i) && i < |down|
    ensures Retired(st, rk, keep, down, up, if down[i] != LatestOf(st, rk) then done + [down[i]] else done, i + 1)
  {
    assert forall k | 0 <= k < i :: down[k] == up[|up| - 1 - k] > up[|up| - 1 - i] == down[i];
    assert down[i] !in done;
    var next := if down[i] != LatestOf(st, rk) then done + [down[i]] else done;
    forall v
      ensures v in next <==> exists k :: keep <= k < i + 1 && k < |down| && down[k] == v && v != LatestOf(st, rk)
    {
      if v in done {
        var k :| keep <= k < i && k < |down| && down[k] == v && v != LatestOf(st, rk);
        assert k < i + 1;
      } else if v in next {
        assert down[i] == v;
      }
    }
  }

  lemma RetiredAll(st: Store, rk: RoleKey, keep: nat, down: seq<nat>, up: seq<nat>, done: seq<nat>, i: nat)
    requires Retired(st, rk, keep, down, up, done, i) && i >= |down|
    ensures Distinct(done) && Elements(done) == Outdated(st, rk, keep)
  {
    forall v ensures v in done <==> v in Outdated(st, rk, keep) {
      if v in Outdated(st, rk, keep) {
        assert v in Elements(up);
        var k :| 0 <= k < |up| && up[k] == v;
        OutdatedAt(st, rk, keep, up, |up| - 1 - k);
        assert down[|up| - 1 - k] == v;
      } else if v in done {
        var k :| keep <= k < i && k < |down| && down[k] == v && v != LatestOf(st, rk);
        OutdatedAt(st, rk, keep, up, k);
      }
    }
  }

  /** Sorting what was gathered gives the manifest of the member set. */
  lemma SortedSeal(st: Store, c: SealConfig, vk: VersionKey, ids: seq<nat>, sorted: seq<nat>)
    requires Distinct(ids) && Elements(ids) == Members(st, vk)
    requires sorted == Ascending(Elements(ids)) && Strictly(sorted) && Elements(sorted) == Elements(ids)
    ensures Distinct(sorted) && Elements(sorted) <= st.objects.Keys
    ensures SealedManifest(st, c, vk)
         == Manifest(ManifestSealed, sorted, TotalBytes(st.objects, ids), MixAll(c, st.objects, sorted))
  {
    StrictlyDistinct(sorted);
    TotalAnyOrder(st.objects, ids, sorted);
  }

  lemma FrozenIs(st: Store, vk: VersionKey, ids: seq<nat>, m: map<nat, Obj>)
    requires Elements(ids) == Members(st, vk) && m.Keys == st.objects.Keys
    requires forall id | id in m :: m[id] == if id in ids then st.objects[id].(state := Sealed) else st.objects[id]
    ensures m == Freeze(st, vk)
  {
    assert forall id :: id in ids <==> id in Elements(ids);
  }
}

/**
 The canonical store as the object that the handlers update in place. Loops over
 the tables visit them in an arbitrary order, as hash maps do; each method is
 proved to have exactly the effect of its function in `CanonicalStore`, so the
 outcome does not depend on that order.
 */
module CanonicalTable {
  import opened CanonicalKey
  import opened CanonicalStore
  import opened StoreInv
  import opened StoreLoops

  /** `rank` has left the objects outside `todo`, of which those it held are `noted`. */
  ghost predicate PartlyLeft(was: map<nat, Obj>, now: map<nat, Obj>, noted: set<nat>, rank: nat, todo: set<nat>) {
    && todo <= was.Keys == now.Keys
    && (forall id | id in was ::
          now[id] == if id !in todo && rank in was[id].holders then Unheld(was[id], rank) else was[id])
    && forall id :: id in noted <==> id in was && id !in todo && rank in was[id].holders
  }

  lemma LeaveMore(was: map<nat, Obj>, now: map<nat, Obj>, noted: set<nat>, rank: nat, todo: set<nat>, id: nat)
    requires PartlyLeft(was, now, noted, rank, todo) && id in todo
    ensures now[id] == was[id]
    ensures if rank in was[id].holders
      then PartlyLeft(was, now[id := Unheld(now[id], rank)], noted + {id}, rank, todo - {id})
      else PartlyLeft(was, now, noted, rank, todo - {id})
  {
  }

  /** `rank` has left the first `n` objects of `ids`, held `released` of them, and `freed` are erased. */
  ghost predicate LeftSoFar(st: Store, st': Store, rank: nat, ids: seq<nat>, n: nat, released: nat, freed: nat) {
    n <= |ids| && st' == LeaveSeq(st, rank, ids[..n])
    && released == |HeldBy(st, rank, Elements(ids[..n]))| && freed == |Freed(st, rank, Elements(ids[..n]))|
  }

  lemma NoneLeft(st: Store, rank: nat, ids: seq<nat>)
    ensures LeftSoFar(st, st, rank, ids, 0, 0, 0)
  {
    assert HeldBy(st, rank, Elements(ids[..0])) == {} && Freed(st, rank, Elements(ids[..0])) == {};
  }

  lemma AllLeft(st: Store, st': Store, rank: nat, ids: seq<nat>, released: nat, freed: nat)
    requires Distinct(ids) && LeftSoFar(st, st', rank, ids, |ids|, released, freed)
    ensures st' == DropHolds(st, rank, Elements(ids))
    ensures released == |HeldBy(st, rank, Elements(ids))| && freed == |Freed(st, rank, Elements(ids))|
  {
    assert ids[..|ids|] == ids;
    LeaveSeqIs(st, rank, ids);
  }

  class ObjectTable {
    var objects: map<nat, Obj>
    var byKey: map<string, nat>
    var jobs: map<JobUid, nat>
    var manifests: map<VersionKey, Manifest>
    var latest: map<RoleKey, nat>
    var alive: set<nat>
    var nextObject: nat
    var creates: map<nat, Pending>
    var pulls: map<nat, nat>

    ghost function View(): Store
      reads this
    {
      Store(objects, byKey, jobs, manifests, latest, alive, nextObject, creates, pulls)
    }

    /** Erase an object unless a transfer reads it. */
    method ReleaseObject(id: nat) returns (ok: bool)
      requires id in objects
      modifies this
      ensures ok <==> !InFlight(old(objects)[id])
      ensures View() == if ok then Remove(old(View()), {id}) else old(View())
    {
      var o := objects[id];
      ok := o.exports == 0 && o.restores == 0;
      if ok {
        RemoveOne(View(), id);
        byKey := byKey - {o.ks};
        if o.key.job in jobs && jobs[o.key.job] > 0 {
          jobs := jobs[o.key.job := jobs[o.key.job] - 1];
        } else {
          assert o.key.job in jobs ==> jobs == jobs[o.key.job := 0];
        }
        objects := objects - {id};
      }
    }

    method MaybeFreeObject(id: nat) returns (freed: bool)
      requires id in objects
      modifies this
      ensures freed <==> old(objects)[id].holders == {} && !InFlight(old(objects)[id])
      ensures View() == MaybeFree(old(View()), id)
    {
      freed := false;
      if objects[id].holders == {} && !InFlight(objects[id]) {
        freed := ReleaseObject(id);
      }
    }

    /** First pass of a purge: the rank leaves every object; those it left are noted for the second. */
    method LeaveAll(rank: nat) returns (noted: set<nat>)
      modifies this`objects
      ensures objects == Left(old(objects), rank, old(objects).Keys)
      ensures forall id :: id in noted <==> id in old(objects) && rank in old(objects)[id].holders
    {
      var todo := objects.Keys;
      ghost var was := objects;
      noted := {};
      while todo != {}
        invariant PartlyLeft(was, objects, noted, rank, todo)
        decreases |todo|
      {
        var id :| id in todo;
        LeaveMore(was, objects, noted, rank, todo, id);
        if rank in objects[id].holders {
          objects := objects[id := Unheld(objects[id], rank)];
          noted := noted + {id};
        }
        todo := todo - {id};
      }
    }

    /** Second pass: erase, of the noted objects, those that are empty and idle. */
    method FreeNoted(noted: set<nat>) returns (ghost gone: set<nat>)
      requires noted <= objects.Keys
      modifies this
      ensures forall id :: id in gone <==> id in noted && old(objects)[id].holders == {} && !InFlight(old(objects)[id])
      ensures View() == Remove(old(View()), gone)
    {
      ghost var st := View();
      var todo := noted;
      gone := {};
      RemoveNone(st);
      while todo != {}
        invariant todo <= noted && gone !! todo && View() == Remove(st, gone)
        invariant forall id | id in noted && id !in todo ::
                    id in gone <==> st.objects[id].holders == {} && !InFlight(st.objects[id])
        invariant gone <= noted
        decreases |todo|
      {
        var id :| id in todo;
        assert objects[id] == st.objects[id];
        var freed := MaybeFreeObject(id);
        if freed {
          RemoveMore(st, gone, id);
          gone := gone + {id};
        }
        todo := todo - {id};
      }
    }

    /** Crash recovery: a dead rank leaves everything, then what it left empty and idle is erased. */
    method PurgeRank(rank: nat)
      modifies this
      ensures View() == DropHolds(old(View()), rank, old(objects).Keys)
    {
      ghost var st := View();
      var noted := LeaveAll(rank);
      ghost var gone := FreeNoted(noted);
      NotedAreFreed(st, rank, noted, gone);
      DropHoldsIs(st, rank, st.objects.Keys);
    }

    /** Ids of a version's objects, in the table's own order. */
    method CollectVersion(vk: VersionKey) returns (ids: seq<nat>)
      ensures Distinct(ids) && Elements(ids) == set id | id in objects && OfVersion(objects[id], vk)
    {
      ids := [];
      var todo := objects.Keys;
      while todo != {}
        invariant todo <= objects.Keys && Distinct(ids)
        invariant forall id :: id in ids <==> id in objects && id !in todo && OfVersion(objects[id], vk)
        decreases |todo|
      {
        var id :| id in todo;
        if OfVersion(objects[id], vk) {
          ids := ids + [id];
        }
        todo := todo - {id};
      }
    }

    /** One rank leaves one object, which is erased if that was the last hold. */
    method LeaveOne(rank: nat, id: nat) returns (left: bool, freed: bool)
      modifies this
      ensures View() == DropHolds(old(View()), rank, {id})
      ensures left <==> id in old(objects) && rank in old(objects)[id].holders
      ensures freed <==> id in Freed(old(View()), rank, {id})
    {
      left, freed := false, false;
      LeaveOneIs(View(), rank, id);
      if id in objects && rank in objects[id].holders {
        left := true;
        objects := objects[id := Unheld(objects[id], rank)];
        freed := MaybeFreeObject(id);
      }
    }

    method LeaveEach(rank: nat, ids: seq<nat>) returns (released: nat, freed: nat)
      requires Distinct(ids)
      modifies this
      ensures View() == DropHolds(old(View()), rank, Elements(ids))
      ensures released == |HeldBy(old(View()), rank, Elements(ids))|
        && freed == |Freed(old(View()), rank, Elements(ids))|
    {
      released, freed := 0, 0;
      NoneLeft(View(), rank, ids);
      for n := 0 to |ids|
        invariant LeftSoFar(old(View()), View(), rank, ids, n, released, freed)
      {
        released, freed := LeaveNth(rank, ids, n, released, freed, old(View()));
      }
      AllLeft(old(View()), View(), rank, ids, released, freed);
    }

    /** The next object of the list. */
    method LeaveNth(rank: nat, ids: seq<nat>, n: nat, released: nat, freed: nat, ghost st: Store)
      returns (released': nat, freed': nat)
      requires Distinct(ids) && n < |ids| && LeftSoFar(st, View(), rank, ids, n, released, freed)
      modifies this
      ensures LeftSoFar(st, View(), rank, ids, n + 1, released', freed')
    {
      CountNext(st, rank, ids, n);
      var l, f := LeaveOne(rank, ids[n]);
      released' := if l then released + 1 else released;
      freed' := if f then freed + 1 else freed;
      assert ids[..n + 1][..n] == ids[..n];
    }

    method HandleReleaseCanonical(rank: nat, vk: VersionKey, id: nat) returns (released: nat, freed: nat)
      modifies this
      ensures View() == ReleaseCanonical(old(View()), rank, vk, id)
      ensures rank in alive && vk.job in old(jobs) ==>
        var st, ids := old(View()), old(ReleaseIds(View(), vk, id));
        released == |HeldBy(st, rank, ids)| && freed == |Freed(st, rank, ids)|
    {
      if rank !in alive || vk.job !in jobs {
        return 0, 0;
      }
      var ids := [id];
      if id == 0 {
        ids := CollectVersion(vk);
      }
      assert Elements(ids) == ReleaseIds(View(), vk, id);
      released, freed := LeaveEach(rank, ids);
    }

    // ------------------------------------------------------ attach and commit

    /** First section of an evict: attach to a valid object, or take an id for a candidate or a creation. */
    method HandleEvict(th: nat, q: EvictRequest, ks: string) returns (d: Decision)
      modifies this
      ensures d == Decide(old(View()), q, ks) && View() == Evict(old(View()), th, q, ks)
    {
      d := Refuse;
      if q.rank in alive && q.key.job in jobs
         && !(VersionOf(q.key) in manifests && manifests[VersionOf(q.key)].state == ManifestSealed) {
        if ks in byKey && byKey[ks] in objects {
          var id := byKey[ks];
          var o := objects[id];
          if o.nbytes == q.key.nbytes {
            if o.state == Creating {
              d := if q.duplicate then Candidate(id) else WaitFor(id);
            } else if q.attach {
              d := if q.verify then Candidate(id) else AttachTo(id);
            }
          }
        } else if q.create {
          d := Create;
        }
      }
      if th !in creates {
        if d.AttachTo? {
          var o := objects[d.id];
          objects := objects[d.id := o.(holders := o.holders + {q.rank}, refcount := |o.holders + {q.rank}|)];
        } else if d.Candidate? || d.Create? {
          if d.Create? {
            creates := creates[th := Pending(nextObject, q.rank, q.key, ks)];
          }
          nextObject := nextObject + 1;
        }
      }
    }

    method HandleCommit(rank: nat, id: nat, lease: nat, h: Hash, tier: Tier) returns (ok: bool, won: bool)
      modifies this
      ensures View() == Commit(old(View()), rank, id, lease, h, tier)
      ensures won ==> ok
      ensures won <==> rank in alive && id in old(objects) && IsCreator(old(objects)[id], lease) && tier != NoTier
      ensures ok && !won <==> rank in alive && id in old(objects) && old(objects)[id].state != Creating
                              && HashOk(old(objects)[id], h)
    {
      ok, won := false, false;
      if rank !in alive || id !in objects {
        return;
      }
      var o := objects[id];
      assert objects[id := o] == objects;
      if o.state == Creating && o.lease == lease {
        if tier == NoTier {
          return;
        }
        objects := objects[id := o.(hash := h, state := TierState(tier), creator := NoRank)];
        ok, won := true, true;
      } else if o.state != Creating && HashOk(o, h) {
        objects := objects[id := o.(holders := o.holders + {rank}, refcount := |o.holders + {rank}|)];
        ok := true;
      }
    }

    /** Last section of a creation: the reservation succeeded or failed meanwhile. */
    method FinishCreation(th: nat, reserved: bool, lease: nat)
      modifies this
      ensures View() == FinishCreate(old(View()), th, reserved, lease)
    {
      if th !in creates {
        return;
      }
      var p := creates[th];
      creates := creates - {th};
      if reserved {
        objects := objects[p.id := Obj(p.key, p.ks, p.key.nbytes, Creating, {p.rank}, 1, 0, 0, Hash(0, 0),
          Rank(p.rank), lease)];
        byKey := byKey[p.ks := p.id];
        if p.key.job in jobs {
          jobs := jobs[p.key.job := jobs[p.key.job] + 1];
        }
      }
    }

    // --------------------------------------------------------------- transfers

    /** A pull takes its export hold, if the object is a sealed member of the sealed version. */
    method BeginPull(th: nat, vk: VersionKey, id: nat) returns (ok: bool)
      requires th !in pulls
      modifies this
      ensures ok <==> CanPull(old(View()), vk, id)
      ensures View() == PullBegin(old(View()), th, vk, id)
    {
      ok := false;
      if vk.job in jobs && vk in manifests && manifests[vk].state == ManifestSealed && id in objects
         && objects[id].state == Sealed {
        var n := 0;
        while n < |manifests[vk].members| && manifests[vk].members[n] != id
          invariant 0 <= n <= |manifests[vk].members| && id !in manifests[vk].members[..n]
        {
          n := n + 1;
        }
        if n < |manifests[vk].members| {
          ok := true;
          var o := objects[id];
          objects := objects[id := o.(exports := o.exports + 1, state := ExportInFlight)];
          pulls := pulls[th := id];
        } else {
          assert manifests[vk].members[..n] == manifests[vk].members;
        }
      }
    }

    /** Staging failed: the export hold is given back, nothing is freed. */
    method AbandonPull(th: nat)
      modifies this
      ensures View() == PullFail(old(View()), th)
    {
      if th !in pulls {
        return;
      }
      var id := pulls[th];
      pulls := pulls - {th};
      if id in objects {
        var o := objects[id];
        objects := objects[id := o.(exports := if o.exports == 0 then 0 else o.exports - 1, state := Sealed)];
      }
    }

    /** The transfer is over: give the hold back and free what everyone else has left meanwhile. */
    method EndPull(th: nat)
      modifies this
      ensures View() == PullEnd(old(View()), th)
    {
      if th !in pulls {
        return;
      }
      var id := pulls[th];
      pulls := pulls - {th};
      if id in objects {
        var o := objects[id];
        if o.exports > 0 {
          o := o.(exports := o.exports - 1);
        }
        if o.exports == 0 {
          o := o.(state := Sealed);
        }
        objects := objects[id := o];
        var freed := MaybeFreeObject(id);
      }
    }

    method GrantRestore(id: nat, warmed: bool)
      modifies this
      ensures View() == RestoreGrant(old(View()), id, warmed)
    {
      if id in objects && objects[id].state != Creating {
        var o := objects[id].(restores := objects[id].restores + 1);
        if warmed {
          o := o.(state := ValidMultiTier);
        }
        objects := objects[id := o];
      }
    }

    method ReleaseRestore(id: nat)
      modifies this
      ensures View() == RestoreRelease(old(View()), id)
    {
      if id in objects {
        var o := objects[id];
        if o.restores > 0 {
          o := o.(restores := o.restores - 1);
        }
        objects := objects[id := o];
        var freed := MaybeFreeObject(id);
      }
    }

    // -------------------------------------------------------- versions dropped

    /** Release each object of a list; those that a transfer reads stay. */
    method ReleaseEach(ids: seq<nat>) returns (dropped: nat, skipped: nat)
      requires Distinct(ids) && Elements(ids) <= objects.Keys
      modifies this
      ensures View() == Remove(old(View()), IdleAmong(old(objects), Elements(ids)))
      ensures dropped == |IdleAmong(old(objects), Elements(ids))| && dropped + skipped == |ids|
      ensures skipped == 0 <==> AllIdle(old(View()), ids)
    {
      ghost var st := View();
      ghost var gone: set<nat> := {};
      dropped, skipped := 0, 0;
      RemoveNone(st);
      for n := 0 to |ids|
        invariant View() == Remove(st, gone)
        invariant ReleasedTo(st, ids, n, gone, dropped, skipped)
      {
        ReleaseNext(st, ids, n, gone, dropped, skipped);
        assert objects[ids[n]] == st.objects[ids[n]];
        var ok := ReleaseObject(ids[n]);
        if ok {
          RemoveMore(st, gone, ids[n]);
          gone := gone + {ids[n]};
          dropped := dropped + 1;
        } else {
          skipped := skipped + 1;
        }
      }
      assert ids[..|ids|] == ids;
    }

    method HandleDropVersion(vk: VersionKey) returns (dropped: nat, skipped: nat)
      modifies this
      ensures View() == DropVersion(old(View()), vk)
      ensures vk.job in old(jobs) ==> dropped == |Idle(old(View()), vk)|
    {
      if vk.job !in jobs {
        return 0, 0;
      }
      var ids := CollectVersion(vk);
      assert IdleAmong(objects, Elements(ids)) == Idle(View(), vk);
      dropped, skipped := ReleaseEach(ids);
      manifests := manifests - {vk};
      var rk := RoleKey(vk.job, vk.role);
      if rk in latest && latest[rk] == vk.version {
        latest := latest - {rk};
      }
    }

    // --------------------------------------------------------------- retention

    /** Retire one version: release what is idle, and the manifest with it unless a transfer remains. */
    method RetireVersion(rk: RoleKey, v: nat)
      modifies this
      ensures View() == Retire(old(View()), rk, {v})
    {
      var vk := VersionKey(rk.job, rk.role, v);
      ghost var st := View();
      var ids := CollectVersion(vk);
      OneVersion(st, rk, v, ids);
      var dropped, skipped := ReleaseEach(ids);
      if skipped == 0 {
        manifests := manifests - {vk};
      }
      assert manifests == if Busy(st, vk) then st.manifests else st.manifests - {vk};
    }

    /** Sealed versions of (job, role), newest first. */
    method SealedNewestFirst(rk: RoleKey) returns (down: seq<nat>, ghost up: seq<nat>)
      ensures Strictly(up) && Elements(up) == SealedVersions(View(), rk) && |down| == |up|
      ensures forall i | 0 <= i < |up| :: down[i] == up[|up| - 1 - i]
    {
      var vs: seq<nat> := [];
      var todo := manifests.Keys;
      while todo != {}
        invariant todo <= manifests.Keys && Distinct(vs)
        invariant forall v :: v in vs <==>
          var vk := VersionKey(rk.job, rk.role, v); SealedIn(View(), vk) && vk !in todo
        decreases |todo|
      {
        var vk :| vk in todo;
        if vk.job == rk.job && vk.role == rk.role && manifests[vk].state == ManifestSealed {
          assert vk == VersionKey(rk.job, rk.role, vk.version);
          vs := vs + [vk.version];
        }
        todo := todo - {vk};
      }
      VersionsAre(View(), rk, vs);
      var sorted := Sort(vs);
      up := sorted;
      down := seq(|sorted|, i requires 0 <= i < |sorted| => sorted[|sorted| - 1 - i]);
    }

    method EnforceRetention(rk: RoleKey, keep: nat)
      modifies this
      ensures View() == Retain(old(View()), rk, keep)
    {
      if keep == 0 {
        return;
      }
      ghost var st := View();
      var down, up := SealedNewestFirst(rk);
      var promoted := if rk in latest then latest[rk] else 0;
      ghost var done: seq<nat> := [];
      var i := keep;
      while i < |down|
        invariant View() == RetireSeq(st, rk, done)
        invariant Retired(st, rk, keep, down, up, done, i)
        decreases |down| - i
      {
        RetiredNext(st, rk, keep, down, up, done, i);
        if down[i] != promoted {
          RetireVersion(rk, down[i]);
          assert (done + [down[i]])[..|done|] == done;
          done := done + [down[i]];
        }
        i := i + 1;
      }
      RetiredAll(st, rk, keep, down, up, done, i);
      RetireSeqIs(st, rk, done);
    }

    // -------------------------------------------------------------------- seal

    /** Members of a version in the table's own order, their size, and whether one is unfinished. */
    method Gather(vk: VersionKey) returns (ids: seq<nat>, total: nat, unfinished: bool)
      ensures Distinct(ids) && Elements(ids) == Members(View(), vk) && total == TotalBytes(objects, ids)
      ensures unfinished <==> exists id :: id in objects && OfVersion(objects[id], vk) && objects[id].state == Creating
    {
      ids, total, unfinished := [], 0, false;
      var todo := objects.Keys;
      while todo != {}
        invariant todo <= objects.Keys && Distinct(ids) && total == TotalBytes(objects, ids)
        invariant forall id :: id in ids <==> id in Members(View(), vk) && id !in todo
        invariant unfinished <==>
          exists id :: id in objects && id !in todo && OfVersion(objects[id], vk) && objects[id].state == Creating
        decreases |todo|
      {
        var id :| id in todo;
        if OfVersion(objects[id], vk) {
          if objects[id].state == Creating {
            unfinished := true;
          } else {
            assert (ids + [id])[..|ids|] == ids;
            ids, total := ids + [id], total + objects[id].nbytes;
          }
        }
        todo := todo - {id};
      }
    }

    /** Is every expected parameter the parameter of some member? */
    method AllCovered(vk: VersionKey, ids: seq<nat>, expected: seq<nat>) returns (all: bool)
      requires Elements(ids) == Members(View(), vk)
      ensures all <==> forall i | 0 <= i < |expected| :: Covered(View(), vk, expected[i])
    {
      all := true;
      var i := 0;
      while i < |expected| && all
        invariant 0 <= i <= |expected|
        invariant all <==> forall k | 0 <= k < i :: Covered(View(), vk, expected[k])
      {
        all := HasParam(vk, ids, expected[i]);
        i := i + 1;
      }
    }

    method HasParam(vk: VersionKey, ids: seq<nat>, param: nat) returns (found: bool)
      requires Elements(ids) == Members(View(), vk)
      ensures found <==> Covered(View(), vk, param)
    {
      found := false;
      assert forall k | 0 <= k < |ids| :: ids[k] in Elements(ids);
      for n := 0 to |ids|
        invariant found <==> exists k :: 0 <= k < n && objects[ids[k]].key.param == param
      {
        if objects[ids[n]].key.param == param {
          found := true;
        }
      }
    }

    /** Mix the members into the hash in list order, sealing each. */
    method SealMembers(c: SealConfig, ids: seq<nat>) returns (h: Hash)
      requires Distinct(ids) && Elements(ids) <= objects.Keys
      modifies this`objects
      ensures h == MixAll(c, old(objects), ids)
      ensures objects.Keys == old(objects).Keys
      ensures forall id | id in objects ::
        objects[id] == if id in ids then old(objects)[id].(state := Sealed) else old(objects)[id]
    {
      h := c.seed;
      ghost var was := objects;
      for n := 0 to |ids|
        invariant objects.Keys == was.Keys && h == MixAll(c, was, ids[..n])
        invariant forall id | id in was :: objects[id] == if id in ids[..n] then was[id].(state := Sealed) else was[id]
      {
        var id := ids[n];
        assert id in Elements(ids);
        assert ids[..n + 1] == ids[..n] + [id] && ids[..n + 1][..n] == ids[..n];
        assert id !in ids[..n];
        h := MixMember(c, h, id, objects[id]);
        objects := objects[id := objects[id].(state := Sealed)];
      }
      assert ids[..|ids|] == ids;
    }

    /** Seal the sorted members, record the manifest and, if asked, promote it. */
    method PublishSorted(c: SealConfig, q: SealRequest, sorted: seq<nat>, total: nat)
      requires Distinct(sorted) && Elements(sorted) == Members(View(), q.vk)
      requires SealedManifest(View(), c, q.vk) == Manifest(ManifestSealed, sorted, total, MixAll(c, objects, sorted))
      modifies this
      ensures View() == Publish(old(View()), c, q)
    {
      ghost var st := View();
      var h := SealMembers(c, sorted);
      FrozenIs(st, q.vk, sorted, objects);
      manifests := manifests[q.vk := Manifest(ManifestSealed, sorted, total, h)];
      if q.promote {
        latest := latest[RoleKey(q.vk.job, q.vk.role) := q.vk.version];
        EnforceRetention(RoleKey(q.vk.job, q.vk.role), c.keep);
      }
    }

    method HandleSeal(c: SealConfig, q: SealRequest) returns (ok: bool, ghost gathered: seq<nat>)
      modifies this
      ensures View() == Seal(old(View()), c, q, gathered)
      ensures ok <==> q.vk.job in old(jobs) && (SealedIn(old(View()), q.vk) || !SealFails(old(View()), c, q))
    {
      gathered := [];
      if q.vk.job !in jobs {
        return false, [];
      }
      if q.vk in manifests && manifests[q.vk].state == ManifestSealed {
        return true, [];
      }
      ghost var st := View();
      var ids, total, unfinished := Gather(q.vk);
      gathered := ids;
      var all := AllCovered(q.vk, ids, q.expected);
      assert unfinished || !all <==> Incomplete(st, q);
      if c.requireAll && q.failIfMissing && (unfinished || !all) {
        manifests := manifests[q.vk := Manifest(ManifestError, ids, total, Hash(0, 0))];
        return false, gathered;
      }
      var sorted := Sort(ids);
      SortedSeal(st, c, q.vk, ids, sorted);
      PublishSorted(c, q, sorted, total);
      ok := true;
    }
  }
}

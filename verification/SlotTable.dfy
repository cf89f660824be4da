/**
 The slot table of the daemon's control region: runs of consecutive slots that
 are stamped with a lease, change state together and are freed together.

 The three table updates are written by slot range, as the daemon performs them.
 `TableInv` relates the table to the history of granted leases; under it each
 range update touches exactly the slots that carry one lease's tag.
 */
module SlotTable {

  datatype SlotState =
    | Free
    | ReservedD2H
    | D2HInFlight
    | PinnedValid
    | DrainInFlight
    | ColdValid
    | ReadbackInFlight
    | Error

  /** One slot entry; timestamps and sequence numbers are not modelled. */
  datatype Slot = Slot(state: SlotState, tensor: nat, version: nat, lease: nat,
                       rank: nat, epoch: nat, nbytes: nat)

  const FreeSlot: Slot := Slot(Free, 0, 0, 0, 0, 0, 0)

  datatype Lease = Lease(base: nat, count: nat, tensor: nat, version: nat,
                         rank: nat, epoch: nat, nbytes: nat)
  {
    predicate Covers(i: int) {
      base <= i < base + count
    }
  }

  /** Every lease id ever granted, with its immutable record. */
  type Grants = map<nat, Lease>

  // ---------------------------------------------------------------- updates

  function SetState(slots: seq<Slot>, base: nat, count: nat, st: SlotState): (r: seq<Slot>)
    ensures |r| == |slots|
  {
    seq(|slots|, i requires 0 <= i < |slots| =>
      if base <= i < base + count then slots[i].(state := st) else slots[i])
  }

  function FreeRun(slots: seq<Slot>, base: nat, count: nat): (r: seq<Slot>)
    ensures |r| == |slots|
  {
    seq(|slots|, i requires 0 <= i < |slots| =>
      if base <= i < base + count then FreeSlot else slots[i])
  }

  /** The entry slot `i` gets when lease `id` takes its run in state `st`. */
  function Entry(id: nat, L: Lease, st: SlotState, gran: nat, i: nat): Slot {
    Slot(st, L.tensor, L.version, id, L.rank, L.epoch, if i == L.base then L.nbytes else gran)
  }

  function Stamp(slots: seq<Slot>, id: nat, L: Lease, st: SlotState, gran: nat): (r: seq<Slot>)
    ensures |r| == |slots|
  {
    seq(|slots|, i requires 0 <= i < |slots| =>
      if L.Covers(i) then Entry(id, L, st, gran, i) else slots[i])
  }

  predicate RunFree(slots: seq<Slot>, base: nat, count: nat) {
    base + count <= |slots| && forall i | base <= i < base + count :: slots[i].state == Free
  }

  /** ceil(nbytes / gran), but never 0. */
  function SlotsFor(gran: nat, nbytes: nat): (n: nat)
    requires gran > 0
    ensures n > 0 && nbytes <= n * gran
    ensures nbytes > 0 ==> (n - 1) * gran < nbytes
  {
    var n := (nbytes + gran - 1) / gran;
    assert n * gran <= nbytes + gran - 1 < n * gran + gran;
    if n == 0 then 1 else n
  }

  // -------------------------------------------------------------- invariant

  /** Slot `i` lies in the run of the lease it is tagged with and carries its tags. */
  ghost predicate InItsRun(slots: seq<Slot>, g: Grants, i: int)
    requires 0 <= i < |slots|
  {
    var s := slots[i];
    && s.lease in g
    && var L := g[s.lease];
    && L.Covers(i)
    && L.base < |slots|
    && slots[L.base].lease == s.lease
    && s.state == slots[L.base].state
    && s.tensor == L.tensor && s.version == L.version
    && s.rank == L.rank && s.epoch == L.epoch
    && (i == L.base ==> s.nbytes == L.nbytes)
  }

  ghost predicate SlotInv(slots: seq<Slot>, g: Grants, i: int)
    requires 0 <= i < |slots|
  {
    if slots[i].lease == 0 then slots[i] == FreeSlot
    else slots[i].state != Free && InItsRun(slots, g, i)
  }

  /** The run of lease `id` is occupied by it. */
  ghost predicate Held(slots: seq<Slot>, g: Grants, id: nat) {
    id in g && g[id].base < |slots| && slots[g[id].base].lease == id
  }

  ghost predicate Whole(slots: seq<Slot>, id: nat, L: Lease) {
    forall i | L.Covers(i) && i < |slots| :: slots[i].lease == id
  }

  ghost predicate TableInv(slots: seq<Slot>, g: Grants) {
    && (forall id | id in g :: id > 0 && g[id].count > 0 && g[id].base + g[id].count <= |slots|)
    && (forall i | 0 <= i < |slots| :: SlotInv(slots, g, i))
    && (forall id | id in g && Held(slots, g, id) :: Whole(slots, id, g[id]))
  }

  /** State of a lease's run; Free once the run is given up. */
  ghost function StateOf(slots: seq<Slot>, g: Grants, id: nat): SlotState {
    if Held(slots, g, id) then slots[g[id].base].state else Free
  }

  // -------------------------------------------------- updates, tag by tag

  /** A range update of a held run is exactly the update of the slots tagged with its lease. */
  lemma CoversIffTagged(slots: seq<Slot>, g: Grants, id: nat, i: nat)
    requires TableInv(slots, g) && Held(slots, g, id) && i < |slots|
    ensures g[id].Covers(i) <==> slots[i].lease == id
  {
    assert Whole(slots, id, g[id]);
    assert SlotInv(slots, g, i);
    assert id > 0;
  }

  lemma SetStateByTag(slots: seq<Slot>, g: Grants, id: nat, st: SlotState)
    requires TableInv(slots, g) && Held(slots, g, id) && st != Free
    ensures var r := SetState(slots, g[id].base, g[id].count, st);
      && (forall i | 0 <= i < |slots| ::
            r[i] == if slots[i].lease == id then slots[i].(state := st) else slots[i])
      && TableInv(r, g)
  {
    var r := SetState(slots, g[id].base, g[id].count, st);
    forall i | 0 <= i < |slots|
      ensures r[i] == if slots[i].lease == id then slots[i].(state := st) else slots[i]
    {
      CoversIffTagged(slots, g, id, i);
    }
    forall i | 0 <= i < |r| ensures SlotInv(r, g, i) {
      assert SlotInv(slots, g, i);
    }
    forall k | k in g && Held(r, g, k) ensures Whole(r, k, g[k]) {
      assert Held(slots, g, k) && Whole(slots, k, g[k]);
    }
  }

  lemma FreeRunByTag(slots: seq<Slot>, g: Grants, id: nat)
    requires TableInv(slots, g) && Held(slots, g, id)
    ensures var r := FreeRun(slots, g[id].base, g[id].count);
      && (forall i | 0 <= i < |slots| ::
            r[i] == if slots[i].lease == id then FreeSlot else slots[i])
      && TableInv(r, g)
  {
    var r := FreeRun(slots, g[id].base, g[id].count);
    forall i | 0 <= i < |slots|
      ensures r[i] == if slots[i].lease == id then FreeSlot else slots[i]
    {
      CoversIffTagged(slots, g, id, i);
    }
    forall i | 0 <= i < |r| ensures SlotInv(r, g, i) {
      assert SlotInv(slots, g, i);
      if r[i].lease != 0 {
        assert r[g[r[i].lease].base].lease == r[i].lease;
      }
    }
    forall k | k in g && Held(r, g, k) ensures Whole(r, k, g[k]) {
      assert Held(slots, g, k) && Whole(slots, k, g[k]);
    }
  }

  lemma StampKeepsTable(slots: seq<Slot>, g: Grants, id: nat, L: Lease, st: SlotState, gran: nat)
    requires TableInv(slots, g) && id > 0 && id !in g && st != Free
    requires L.count > 0 && RunFree(slots, L.base, L.count)
    ensures TableInv(Stamp(slots, id, L, st, gran), g[id := L])
    ensures forall i | 0 <= i < |slots| && L.Covers(i) :: slots[i] == FreeSlot
    ensures forall i | 0 <= i < |slots| :: slots[i].lease != id
  {
    var r := Stamp(slots, id, L, st, gran);
    var g' := g[id := L];
    forall i | 0 <= i < |slots|
      ensures SlotInv(slots, g, i) && slots[i].lease != id && (L.Covers(i) ==> slots[i] == FreeSlot)
    {
      assert SlotInv(slots, g, i);
    }
    forall i | 0 <= i < |r| ensures SlotInv(r, g', i) {
      assert SlotInv(slots, g, i);
      if r[i].lease != 0 && r[i].lease != id {
        assert SlotInv(slots, g, g[r[i].lease].base);
      }
    }
    forall k | k in g' && Held(r, g', k) ensures Whole(r, k, g'[k]) {
      if k != id {
        assert Held(slots, g, k) && Whole(slots, k, g[k]);
        forall i | g[k].Covers(i) && i < |r| ensures r[i].lease == k {
          assert SlotInv(slots, g, i);
        }
      }
    }
  }

  /** Two different leases never hold overlapping runs. */
  lemma HeldRunsDisjoint(slots: seq<Slot>, g: Grants, a: nat, b: nat)
    requires TableInv(slots, g) && Held(slots, g, a) && Held(slots, g, b) && a != b
    ensures forall i :: !(g[a].Covers(i) && g[b].Covers(i))
  {
    forall i | g[a].Covers(i) ensures !g[b].Covers(i) {
      CoversIffTagged(slots, g, a, i);
      CoversIffTagged(slots, g, b, i);
    }
  }

  // ------------------------------------------------------------- accounting

  /** Number of slots that are not FREE. */
  function InUse(slots: seq<Slot>): (n: nat)
    ensures n <= |slots|
  {
    if slots == [] then 0
    else (if slots[0].state == Free then 0 else 1) + InUse(slots[1..])
  }

  lemma {:induction false} InUseOfFree(a: seq<Slot>)
    requires forall i | 0 <= i < |a| :: a[i].state == Free
    ensures InUse(a) == 0
  {
    if a != [] {
      InUseOfFree(a[1..]);
    }
  }

  lemma {:induction false} InUseSameStates(a: seq<Slot>, b: seq<Slot>)
    requires |a| == |b|
    requires forall i | 0 <= i < |a| :: (a[i].state == Free) == (b[i].state == Free)
    ensures InUse(a) == InUse(b)
  {
    if a != [] {
      InUseSameStates(a[1..], b[1..]);
    }
  }

  /** Turning a run of `count` used slots into free ones lowers the count by `count`. */
  lemma {:induction false} InUseRun(used: seq<Slot>, freed: seq<Slot>, base: nat, count: nat)
    requires |used| == |freed| && base + count <= |used|
    requires forall i | 0 <= i < |used| && !(base <= i < base + count) :: used[i] == freed[i]
    requires forall i | base <= i < base + count :: used[i].state != Free && freed[i].state == Free
    ensures InUse(used) == InUse(freed) + count
  {
    if count == 0 {
      assert used == freed;
    } else if base == 0 {
      InUseRun(used[1..], freed[1..], 0, count - 1);
    } else {
      InUseRun(used[1..], freed[1..], base - 1, count);
    }
  }
}

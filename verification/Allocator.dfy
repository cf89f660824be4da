/**
 The contiguous allocator: a skip-ahead scan for a free run inside one window,
 and the preference chain over windows.
 */
module Allocator {
  import opened Options
  import opened SlotTable

  /** gpu id under which a node's overflow window is indexed. */
  const OVERFLOW_GPU: nat := 0xFFFF_FFFF

  /** Slots of one GPU (or of the overflow area) on one node, consecutive and in address order. */
  datatype Window = Window(numa: nat, gpu: nat, isOverflow: bool, first: nat, size: nat)
  {
    function Key(): (nat, nat) {
      (numa, gpu)
    }
  }

  ghost predicate WindowOk(w: Window, n: nat) {
    w.first + w.size <= n && (w.isOverflow ==> w.gpu == OVERFLOW_GPU)
  }

  /** The run of `count` slots that starts at the window's i-th slot is inside it and free. */
  ghost predicate RunAt(slots: seq<Slot>, w: Window, i: nat, count: nat) {
    i + count <= w.size && RunFree(slots, w.first + i, count)
  }

  /** Naive first fit: try every start in order. */
  ghost function FirstFit(slots: seq<Slot>, w: Window, i: nat, count: nat): (r: Option<nat>)
    ensures r.None? ==> forall j | j >= i :: !RunAt(slots, w, j, count)
    ensures r.Some? ==> i <= r.value && RunAt(slots, w, r.value, count)
                        && forall j | i <= j < r.value :: !RunAt(slots, w, j, count)
    decreases w.size - i
  {
    if i + count > w.size then None
    else if RunAt(slots, w, i, count) then Some(i)
    else if i == w.size then None
    else FirstFit(slots, w, i + 1, count)
  }

  /** The scan that jumps past the first occupied slot finds exactly the naive first fit. */
  method TryAllocInWindow(slots: array<Slot>, w: Window, count: nat) returns (found: bool, base: nat)
    requires count > 0 && WindowOk(w, slots.Length)
    ensures found == FirstFit(slots[..], w, 0, count).Some?
    ensures found ==> base == w.first + FirstFit(slots[..], w, 0, count).value
  {
    found, base := false, 0;
    if w.size < count {
      return;
    }
    var i := 0;
    while i + count <= w.size
      invariant forall j | 0 <= j < i :: !RunAt(slots[..], w, j, count)
    {
      var runOk := true;
      var k := 0;
      while k < count && runOk
        invariant k <= count
        invariant forall m | w.first + i <= m < w.first + i + k :: slots[m].state == Free
        invariant !runOk ==> k < count && slots[w.first + i + k].state != Free
        decreases count - k, runOk
      {
        if slots[w.first + i + k].state != Free {
          runOk := false;
        } else {
          k := k + 1;
        }
      }
      if runOk {
        assert RunAt(slots[..], w, i, count);
        return true, w.first + i;
      }
      forall j | i <= j <= i + k ensures !RunAt(slots[..], w, j, count) {
        assert slots[..][w.first + i + k].state != Free;
      }
      i := i + k + 1;
    }
  }

  // ------------------------------------------------------- preference chain

  /** Index by key; a later window with the same key replaces an earlier one. */
  function IndexOf(ws: seq<Window>): (m: map<(nat, nat), nat>)
    ensures forall k | k in m :: m[k] < |ws| && ws[m[k]].Key() == k
    ensures forall j | 0 <= j < |ws| :: ws[j].Key() in m && m[ws[j].Key()] >= j
  {
    if ws == [] then map[] else IndexOf(ws[..|ws| - 1])[ws[|ws| - 1].Key() := |ws| - 1]
  }

  ghost predicate HasRun(slots: seq<Slot>, w: Window, count: nat) {
    FirstFit(slots, w, 0, count).Some?
  }

  /** A window offers a run iff some start inside it is free for the whole length. */
  lemma HasRunIff(slots: seq<Slot>, w: Window, count: nat)
    ensures HasRun(slots, w, count) <==> exists i: nat :: RunAt(slots, w, i, count)
  {
  }

  /** Windows a reservation may use: those of its node, and any other when remote memory is allowed. */
  predicate Permitted(w: Window, numa: nat, remote: bool) {
    w.numa == numa || remote
  }

  /** A later window with the same key hides window `k` from the two indexed lookups. */
  ghost predicate Shadowed(ws: seq<Window>, k: nat, numa: nat, gpu: nat)
    requires k < |ws|
  {
    && ws[k].numa == numa && (ws[k].gpu == gpu || ws[k].isOverflow)
    && exists j :: k < j < |ws| && ws[j].Key() == ws[k].Key()
  }

  ghost predicate Usable(ws: seq<Window>, k: nat, numa: nat, gpu: nat, remote: bool) {
    k < |ws| && Permitted(ws[k], numa, remote) && !Shadowed(ws, k, numa, gpu)
  }

  /** First-fit start of window `k`, as a slot id. */
  ghost predicate FitsAt(slots: seq<Slot>, w: Window, count: nat, base: nat) {
    var f := FirstFit(slots, w, 0, count);
    f.Some? && base == w.first + f.value
  }

  /** Rank of a window in the preference chain: own GPU, overflow, node peers, other nodes. */
  function Tier(w: Window, numa: nat, gpu: nat): nat {
    if w.numa != numa then 3 else if w.gpu == gpu then 0 else if w.isOverflow then 1 else 2
  }

  method TryIndexed(slots: array<Slot>, ws: seq<Window>, index: map<(nat, nat), nat>, key: (nat, nat), count: nat)
    returns (found: bool, base: nat, ghost k: nat)
    requires count > 0 && index == IndexOf(ws) && forall j | 0 <= j < |ws| :: WindowOk(ws[j], slots.Length)
    ensures found ==> k < |ws| && ws[k].Key() == key && index[key] == k && FitsAt(slots[..], ws[k], count, base)
    ensures !found ==> key !in index || !HasRun(slots[..], ws[index[key]], count)
  {
    found, base, k := false, 0, 0;
    if key in index {
      k := index[key];
      found, base := TryAllocInWindow(slots, ws[index[key]], count);
    }
  }

  /** Windows one scan of the list considers: the node's peers of `gpu`, or all of other nodes. */
  predicate Scanned(w: Window, numa: nat, gpu: nat, peers: bool) {
    if peers then w.numa == numa && !w.isOverflow && w.gpu != gpu else w.numa != numa
  }

  method ScanWindows(slots: array<Slot>, ws: seq<Window>, numa: nat, gpu: nat, peers: bool, count: nat)
    returns (found: bool, base: nat, ghost win: nat)
    requires count > 0 && forall j | 0 <= j < |ws| :: WindowOk(ws[j], slots.Length)
    ensures found ==> win < |ws| && Scanned(ws[win], numa, gpu, peers) && FitsAt(slots[..], ws[win], count, base)
    ensures !found ==> forall j | 0 <= j < |ws| && Scanned(ws[j], numa, gpu, peers) :: !HasRun(slots[..], ws[j], count)
  {
    found, base, win := false, 0, 0;
    var i := 0;
    while i < |ws|
      invariant 0 <= i <= |ws|
      invariant forall j | 0 <= j < i && Scanned(ws[j], numa, gpu, peers) :: !HasRun(slots[..], ws[j], count)
    {
      if Scanned(ws[i], numa, gpu, peers) {
        found, base := TryAllocInWindow(slots, ws[i], count);
        if found {
          win := i;
          return;
        }
      }
      i := i + 1;
    }
    found := false;
  }

  /** Window `k` may serve the reservation and offers a run. */
  ghost predicate Offers(slots: seq<Slot>, ws: seq<Window>, k: nat, numa: nat, gpu: nat, remote: bool, count: nat) {
    Usable(ws, k, numa, gpu, remote) && HasRun(slots, ws[k], count)
  }

  /** A window that offers a run is found by the indexed lookups or by one of the two scans. */
  lemma OfferIsTried(slots: seq<Slot>, ws: seq<Window>, k: nat, numa: nat, gpu: nat, remote: bool, count: nat)
    requires Offers(slots, ws, k, numa, gpu, remote, count)
    requires forall j | 0 <= j < |ws| :: ws[j].isOverflow ==> ws[j].gpu == OVERFLOW_GPU
    ensures || (IndexOf(ws)[ws[k].Key()] == k && (ws[k].Key() == (numa, gpu) || ws[k].Key() == (numa, OVERFLOW_GPU)))
            || Scanned(ws[k], numa, gpu, true)
            || (remote && Scanned(ws[k], numa, gpu, false))
  {
    UsableIsIndexed(ws, k, numa, gpu, remote);
  }

  /**
   The chain succeeds exactly when some usable window holds a free run of that length, and then
   returns the first fit of a window of the best tier that has one.
   */
  method AllocateSlots(slots: array<Slot>, ws: seq<Window>, index: map<(nat, nat), nat>,
                       gpu: nat, numa: nat, remote: bool, count: nat)
    returns (found: bool, base: nat, ghost win: nat)
    requires count > 0 && index == IndexOf(ws) && forall j | 0 <= j < |ws| :: WindowOk(ws[j], slots.Length)
    ensures found <==> exists k: nat :: Offers(slots[..], ws, k, numa, gpu, remote, count)
    ensures found ==> Offers(slots[..], ws, win, numa, gpu, remote, count) && FitsAt(slots[..], ws[win], count, base)
    ensures found ==> forall k: nat | Offers(slots[..], ws, k, numa, gpu, remote, count) ::
              Tier(ws[win], numa, gpu) <= Tier(ws[k], numa, gpu)
  {
    ghost var s := slots[..];
    found, base, win := TryIndexed(slots, ws, index, (numa, gpu), count);
    if found {
      IndexedIsUsable(ws, win, numa, gpu, remote);
      assert Offers(s, ws, win, numa, gpu, remote, count);
      return;
    }
    found, base, win := TryIndexed(slots, ws, index, (numa, OVERFLOW_GPU), count);
    if found {
      IndexedIsUsable(ws, win, numa, gpu, remote);
      assert Offers(s, ws, win, numa, gpu, remote, count);
      forall k: nat | Offers(s, ws, k, numa, gpu, remote, count) ensures Tier(ws[k], numa, gpu) >= 1 {
        OfferIsTried(s, ws, k, numa, gpu, remote, count);
      }
      return;
    }
    found, base, win := ScanWindows(slots, ws, numa, gpu, true, count);
    if !found && remote {
      found, base, win := ScanWindows(slots, ws, numa, gpu, false, count);
    }
    if found {
      assert Offers(s, ws, win, numa, gpu, remote, count);
    }
    forall k: nat | Offers(s, ws, k, numa, gpu, remote, count)
      ensures found && Tier(ws[win], numa, gpu) <= Tier(ws[k], numa, gpu)
    {
      OfferIsTried(s, ws, k, numa, gpu, remote, count);
    }
  }

  lemma IndexedIsUsable(ws: seq<Window>, k: nat, numa: nat, gpu: nat, remote: bool)
    requires k < |ws| && ws[k].numa == numa && IndexOf(ws)[ws[k].Key()] == k
    ensures Usable(ws, k, numa, gpu, remote)
  {
  }

  /** A usable own-GPU or overflow window is the one the index names. */
  lemma UsableIsIndexed(ws: seq<Window>, k: nat, numa: nat, gpu: nat, remote: bool)
    requires Usable(ws, k, numa, gpu, remote)
    ensures ws[k].numa == numa && (ws[k].gpu == gpu || ws[k].isOverflow) ==> IndexOf(ws)[ws[k].Key()] == k
  {
    var j := IndexOf(ws)[ws[k].Key()];
    assert ws[j].Key() == ws[k].Key();
  }

  ghost predicate DistinctKeys(ws: seq<Window>) {
    forall i, j | 0 <= i < j < |ws| :: ws[i].Key() != ws[j].Key()
  }

  /** With distinct window keys every permitted window is usable. */
  lemma DistinctKeysUsable(ws: seq<Window>, k: nat, numa: nat, gpu: nat, remote: bool)
    requires DistinctKeys(ws) && k < |ws|
    ensures Usable(ws, k, numa, gpu, remote) <==> Permitted(ws[k], numa, remote)
  {
  }

  /** Without them a free run can be missed: window 0 is free and permitted, yet never tried. */
  lemma ShadowedWindowIsMissed()
    ensures var free := Slot(Free, 0, 0, 0, 0, 0, 0);
      var busy := free.(state := PinnedValid, lease := 1);
      var ws := [Window(0, 7, false, 0, 1), Window(0, 7, false, 1, 1)];
      && Permitted(ws[0], 0, false) && HasRun([free, busy], ws[0], 1)
      && !exists k: nat :: Offers([free, busy], ws, k, 0, 7, false, 1)
  {
    var free := Slot(Free, 0, 0, 0, 0, 0, 0);
    var ws := [Window(0, 7, false, 0, 1), Window(0, 7, false, 1, 1)];
    var slots := [free, free.(state := PinnedValid, lease := 1)];
    assert RunAt(slots, ws[0], 0, 1);
    assert ws[1].Key() == ws[0].Key();
    forall i: nat ensures !RunAt(slots, ws[1], i, 1) {
      assert slots[1].state != Free;
    }
    forall k: nat | Usable(ws, k, 0, 7, false) ensures k == 1 {
    }
  }
}

/**
 How a restore is ordered after the asynchronous completion of the tensor it
 restores. The progress thread publishes completions and remembers the index of
 each; the daemon's poller pops and applies them with the mutex held; a restore
 waits until the consumer index has passed the remembered one, then sends its
 prefetch request, whose handler takes the mutex. The ring is taken as the
 queue that `CompletionRing` proves it to be, with unwrapped indices; what the
 waiting thread compares are the wrapped 64-bit values.
 */
module RestoreWait {
  import opened Bits

  datatype Key = Key(tensor: nat, version: nat)

  datatype Entry = Entry(key: Key, d2h: bool)

  datatype Producer =
    | Idle
    | Loaded(e: Entry, before: nat)        // tail read, entry not yet published
    | Published(e: Entry, before: nat)     // index not yet remembered
    | Remembered(e: Entry)                 // tensor not yet announced as offloaded

  datatype Mutex = Unlocked | Poller | PollerHolds(e: Entry) | Handler(thread: nat)

  datatype Restore =
    | Waiting(key: Key, index: nat)
    | Passed(key: Key, index: nat, seen: nat)   // `seen`: the consumer index the wait last read
    | NoWait(key: Key)

  /**
   `log` is everything ever published, `head` counts the entries popped, `applied` is what was handed
   to the completion code; `remembered` is the agent's index table and `announced` the tensors it
   reports as offloaded.
   */
  datatype World = World(
    cap: nat,
    log: seq<Entry>,
    head: nat,
    applied: seq<Entry>,
    mu: Mutex,
    producer: Producer,
    remembered: map<Key, nat>,
    announced: set<Key>,
    restores: map<nat, Restore>)

  datatype Action =
    | LoadTail(e: Entry) | Publish | Remember | Announce
    | PollLock | Pop | ApplyEntry | PollUnlock
    | BeginRestore(thread: nat, key: Key) | CheckHead(thread: nat)
    | HandlePrefetch(thread: nat) | FinishPrefetch(thread: nat)

  /** The exit test of the wait, on the 64-bit values of the consumer index and the remembered one. */
  predicate WaitOver(head: nat, index: nat) {
    head % W64 > index % W64
  }

  function Next(s: World, a: Action): World {
    match a
    case LoadTail(e) =>
      if s.producer.Idle? then s.(producer := Loaded(e, |s.log|)) else s
    case Publish =>
      if !s.producer.Loaded? then s
      else if |s.log| - s.head >= s.cap then s.(producer := Idle)
      else s.(log := s.log + [s.producer.e],
              producer := if s.producer.e.d2h then Published(s.producer.e, s.producer.before) else Idle)
    case Remember =>
      if !s.producer.Published? then s
      else s.(remembered := s.remembered[s.producer.e.key := s.producer.before], producer := Remembered(s.producer.e))
    case Announce =>
      if !s.producer.Remembered? then s
      else s.(announced := s.announced + {s.producer.e.key}, producer := Idle)
    case PollLock =>
      if s.mu.Unlocked? then s.(mu := Poller) else s
    case Pop =>
      if s.mu.Poller? && s.head < |s.log| then s.(mu := PollerHolds(s.log[s.head]), head := s.head + 1) else s
    case ApplyEntry =>
      if s.mu.PollerHolds? then s.(mu := Poller, applied := s.applied + [s.mu.e]) else s
    case PollUnlock =>
      if s.mu.Poller? then s.(mu := Unlocked) else s
    case BeginRestore(th, key) =>
      if th in s.restores then s
      else
        var r := if key in s.remembered then Waiting(key, s.remembered[key]) else NoWait(key);
        s.(restores := s.restores[th := r])
    case CheckHead(th) =>
      if th in s.restores && s.restores[th].Waiting? && WaitOver(s.head, s.restores[th].index)
      then s.(restores := s.restores[th := Passed(s.restores[th].key, s.restores[th].index, s.head)]) else s
    case HandlePrefetch(th) =>
      if s.mu.Unlocked? && th in s.restores && !s.restores[th].Waiting? then s.(mu := Handler(th)) else s
    case FinishPrefetch(th) =>
      if s.mu == Handler(th) then s.(mu := Unlocked, restores := s.restores - {th}) else s
  }

  ghost predicate Init(s: World) {
    && s.log == [] && s.head == 0 && s.applied == [] && s.mu.Unlocked? && s.producer.Idle?
    && s.remembered == map[] && s.announced == {} && s.restores == map[] && 0 < s.cap < W64
  }

  function Exec(s: World, acts: seq<Action>): World
    decreases |acts|
  {
    if acts == [] then s else Exec(Next(s, acts[0]), acts[1..])
  }

  // -------------------------------------------------------------- invariant

  /** Index `i` of the log is a device-to-host completion of `key`. */
  ghost predicate Names(log: seq<Entry>, i: nat, key: Key) {
    i < |log| && log[i] == Entry(key, true)
  }

  /** Outside the poller's pop-and-apply, everything popped has been applied. */
  ghost predicate AppliedInv(s: World) {
    && s.head <= |s.log| <= s.head + s.cap < s.head + W64
    && (if s.mu.PollerHolds? then s.applied + [s.mu.e] else s.applied) == s.log[..s.head]
  }

  ghost predicate ProducerInv(s: World) {
    && (forall k | k in s.remembered :: Names(s.log, s.remembered[k], k))
    && s.announced <= s.remembered.Keys
    && match s.producer
       case Idle => true
       case Loaded(e, t) => t == |s.log|
       case Published(e, t) => Names(s.log, t, e.key)
       case Remembered(e) => e.key in s.remembered
  }

  ghost predicate RestoreInv(s: World, r: Restore) {
    match r
    case Waiting(k, i) => Names(s.log, i, k)
    case Passed(k, i, seen) => Names(s.log, i, k) && seen <= s.head && WaitOver(seen, i) && i < seen + s.cap
    case NoWait(k) => true
  }

  ghost predicate Inv(s: World) {
    AppliedInv(s) && ProducerInv(s) && forall th | th in s.restores :: RestoreInv(s, s.restores[th])
  }

  lemma AppliedStep(s: World, a: Action)
    requires AppliedInv(s)
    ensures AppliedInv(Next(s, a)) && s.log <= Next(s, a).log && s.head <= Next(s, a).head
  {
    if a.Publish? && s.producer.Loaded? {
      assert (s.log + [s.producer.e])[..s.head] == s.log[..s.head];
    } else if a.Pop? && s.head < |s.log| {
      assert s.log[..s.head + 1] == s.log[..s.head] + [s.log[s.head]];
    }
  }

  lemma ProducerStep(s: World, a: Action)
    requires ProducerInv(s)
    ensures ProducerInv(Next(s, a))
  {
  }

  lemma RestoreStep(s: World, a: Action, th: nat)
    requires Inv(s) && th in Next(s, a).restores
    ensures RestoreInv(Next(s, a), Next(s, a).restores[th])
  {
    AppliedStep(s, a);
    if th in s.restores {
      assert RestoreInv(s, s.restores[th]);
    }
  }

  lemma StepInv(s: World, a: Action)
    requires Inv(s)
    ensures Inv(Next(s, a))
  {
    AppliedStep(s, a);
    ProducerStep(s, a);
    forall th | th in Next(s, a).restores ensures RestoreInv(Next(s, a), Next(s, a).restores[th]) {
      RestoreStep(s, a, th);
    }
  }

  lemma {:induction false} ExecInv(s: World, acts: seq<Action>)
    requires Inv(s)
    ensures Inv(Exec(s, acts))
    decreases |acts|
  {
    if acts != [] {
      StepInv(s, acts[0]);
      ExecInv(Next(s, acts[0]), acts[1..]);
    }
  }

  // ------------------------------------------------------------- the wait

  /** While an entry is still pending, the wait ends early exactly if a 64-bit wrap lies in between. */
  lemma EarlyExitIff(head: nat, index: nat)
    requires head <= index < head + W64
    ensures WaitOver(head, index) <==> head / W64 != index / W64
  {
    var q, r := head / W64, head % W64;
    assert head == q * W64 + r;
    var d := index - head;
    if r + d < W64 {
      ModUnique(index, W64, q, r + d);
    } else {
      ModUnique(index, W64, q + 1, r + d - W64);
    }
  }

  /** The first index after the wrap is taken as consumed while it is still pending. */
  lemma EarlyExitExample()
    ensures WaitOver(W64 - 1, W64)
  {
    EarlyExitIff(W64 - 1, W64);
  }

  /** Without a wrap in between, the exit test is exact. */
  lemma SameLapExact(head: nat, index: nat)
    requires head / W64 == index / W64
    ensures WaitOver(head, index) <==> head > index
  {
    assert head == (head / W64) * W64 + head % W64;
    assert index == (index / W64) * W64 + index % W64;
  }

  /**
   In every interleaving: when the prefetch handler of a restore that waited holds the mutex, the
   completion it waited for has been applied (or rejected by the completion code), unless the
   consumer index that ended the wait was a whole 2^64 lap behind the remembered one.
   */
  lemma RestoreAfterCompletion(s0: World, acts: seq<Action>, th: nat)
    requires Init(s0)
    ensures var s := Exec(s0, acts);
      s.mu == Handler(th) && th in s.restores && s.restores[th].Passed? ==>
        var r := s.restores[th];
        || (r.index < |s.applied| && s.applied[r.index] == Entry(r.key, true))
        || (r.seen <= r.index && r.seen / W64 != r.index / W64)
  {
    ExecInv(s0, acts);
    var s := Exec(s0, acts);
    if s.mu == Handler(th) && th in s.restores && s.restores[th].Passed? {
      var r := s.restores[th];
      assert RestoreInv(s, r);
      if r.seen <= r.index {
        EarlyExitIff(r.seen, r.index);
      }
    }
  }

  /** In a session of at most 2^64 completions the guarantee is unconditional. */
  lemma RestoreAfterCompletionFirstLap(s0: World, acts: seq<Action>, th: nat)
    requires Init(s0) && |Exec(s0, acts).log| <= W64
    ensures var s := Exec(s0, acts);
      s.mu == Handler(th) && th in s.restores && s.restores[th].Passed? ==>
        s.restores[th].index < |s.applied| && s.applied[s.restores[th].index] == Entry(s.restores[th].key, true)
  {
    ExecInv(s0, acts);
    RestoreAfterCompletion(s0, acts, th);
    var s := Exec(s0, acts);
    if th in s.restores && s.restores[th].Passed? && s.restores[th].seen <= s.restores[th].index {
      var r := s.restores[th];
      assert RestoreInv(s, r);
      ModUnique(r.seen, W64, 0, r.seen);
      ModUnique(r.index, W64, 0, r.index);
    }
  }

  /** A restore of a tensor already announced as offloaded through the ring never skips the wait. */
  lemma AnnouncedIsWaitedFor(s0: World, acts: seq<Action>, th: nat, key: Key)
    requires Init(s0)
    ensures var s := Exec(s0, acts);
      key in s.announced && th !in s.restores ==>
        var s' := Next(s, BeginRestore(th, key));
        s'.restores[th].Waiting? && Names(s'.log, s'.restores[th].index, key)
  {
    ExecInv(s0, acts);
  }
}

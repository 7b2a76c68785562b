/**
 Two limits of the pool that hold even though a disconnect suspends: its size, and which calls an
 eviction can disturb.
 */
module PoolLimits {
  import opened Common
  import opened PoolModel
  import opened PoolSafety

  /******* Size *******/

  function LockedKeys(s: State): set<Key> {
    set k | k in s.pool && Locked(s, s.pool[k])
  }

  /** The largest number of pooled entries locked at once in any state of the run. */
  ghost function PeakLocked(cap: int, events: seq<Event>): nat {
    var now := |LockedKeys(After(cap, events))|;
    if events == [] then now else
    var before := PeakLocked(cap, events[..|events| - 1]);
    if now > before then now else before
  }

  lemma AllLockedCounts(s: State)
    requires AllLocked(s)
    ensures |LockedKeys(s)| == |s.pool|
  {
    assert LockedKeys(s) == s.pool.Keys;
  }

  lemma ReplacementSize(m: map<Key, EntryId>, k: Key, key: Key, e: EntryId)
    requires k in m && key !in m
    ensures |(m - {k})[key := e]| == |m|
  {
    assert (m - {k}).Keys == m.Keys - {k};
    assert (m - {k})[key := e].Keys == m.Keys - {k} + {key};
  }

  /** The awaited close of a capacity eviction runs under the registry lock: nothing is filed meanwhile,
      so the new entry takes the place of the evicted one. */
  lemma CapacityKeepsSize(s: State, t: TaskId, env: Env)
    requires Valid(s) && t in s.tasks && s.tasks[t].pc.CapacityClosing?
    ensures |CapacityContinued(s, t, env).pool| == |s.pool|
  {
    assert PcOk(s, s.tasks[t].pc);
    ReplacementSize(s.pool, s.tasks[t].pc.victim, s.tasks[t].pc.fetch, |s.heap|);
  }

  lemma ContinuedSize(s: State, t: TaskId, env: Env)
    requires Valid(s) && t in s.tasks
    ensures GrowsOnlyLocked(s, Continued(s, t, env)) && Continued(s, t, env).cap == s.cap
  {
    var pc := s.tasks[t].pc;
    if pc.CapacityClosing? { CapacityKeepsSize(s, t, env); }
    else if pc.SweepClosing? || pc.ShutdownClosing? { SubsetSize(Continued(s, t, env).pool.Keys, s.pool.Keys); }
  }

  lemma WokenSize(s: State, t: TaskId, env: Env)
    requires Valid(s) && Enabled(s, Wake(t, env))
    ensures GrowsOnlyLocked(s, Woken(s, t, env)) && Woken(s, t, env).cap == s.cap
  {}

  lemma RaisedSize(s: State, t: TaskId, err: Error, env: Env)
    requires Valid(s) && Enabled(s, Raise(t, err, env))
    ensures GrowsOnlyLocked(s, Raised(s, t, err, env)) && Raised(s, t, err, env).cap == s.cap
  {
    if !(s.tasks[t].pc.Wanted().Some? || s.tasks[t].pc.Connecting? || s.tasks[t].pc.RoundTrip?) {
      ContinuedSize(s, t, env);
    }
  }

  /** One event grows a full pool only into one whose every entry is locked. */
  lemma SizeStep(s: State, ev: Event)
    requires Valid(s)
    ensures GrowsOnlyLocked(s, Apply(s, ev)) && Apply(s, ev).cap == s.cap
  {
    if Enabled(s, ev) {
      match ev
      case Start(t, loop, op, env) =>
      case Wake(t, env) => WokenSize(s, t, env);
      case Proceed(t, env) => ContinuedSize(s, t, env);
      case Raise(t, err, env) => RaisedSize(s, t, err, env);
      case CloseLoop(_) =>
    }
  }

  /** In every reachable state the pool holds at most `cap` entries, or as many as were ever locked at once. */
  lemma {:induction false} SizeBound(cap: int, events: seq<Event>)
    ensures After(cap, events).cap == cap
    ensures |After(cap, events).pool| <= cap || |After(cap, events).pool| <= PeakLocked(cap, events)
  {
    if events != [] {
      var before := events[..|events| - 1];
      SizeBound(cap, before);
      ReachableIsValid(cap, before);
      SizeStep(After(cap, before), events[|events| - 1]);
      if AllLocked(After(cap, events)) { AllLockedCounts(After(cap, events)); }
    }
  }

  /******* Calls that an eviction can disturb *******/

  /** `u` waits for, or is inside, the lock of `e` to make a round trip. */
  predicate Calls(s: State, u: TaskId, e: EntryId) {
    u in s.tasks && s.tasks[u].pc.CallsOn() == Some(e)
  }

  lemma FrozenTask(s: State, ev: Event, v: TaskId, e: EntryId)
    requires Valid(s) && Enabled(s, ev) && !ev.CloseLoop? && Inside(s.tasks, v, Registry) && v != ev.task
    requires Calls(Apply(s, ev), ev.task, e)
    ensures Calls(s, ev.task, e)
  {
    var t := ev.task;
    assert KnownLock(s, Registry) && s.registry.locked;
    assert !Inside(s.tasks, t, Registry);
    match ev
    case Start(_, _, _, _) =>
    case Wake(_, _) =>
    case Proceed(_, env) => FrozenContinuation(s, t, env, e);
    case Raise(_, err, env) =>
      if s.tasks[t].pc.Closing() && !err.Cancelled? { FrozenContinuation(s, t, env, e); }
  }

  /** A task outside the registry lock that runs on starts no call while the registry is locked. */
  lemma FrozenContinuation(s: State, t: TaskId, env: Env, e: EntryId)
    requires Valid(s) && t in s.tasks && s.registry.locked && !Inside(s.tasks, t, Registry)
    requires Calls(Continued(s, t, env), t, e)
    ensures Calls(s, t, e)
  {}

  lemma BystanderStays(s: State, ev: Event, u: TaskId)
    requires Valid(s) && Enabled(s, ev) && !ev.CloseLoop? && u != ev.task && u in Apply(s, ev).tasks
    ensures u in s.tasks && Apply(s, ev).tasks[u] == s.tasks[u]
  {
    match ev
    case Start(_, _, _, _) =>
    case Wake(_, _) =>
    case Proceed(t, env) => ContinuationStays(s, t, env, u);
    case Raise(t, err, env) => RaiserAlone(s, t, err, env, u);
  }

  lemma RaiserAlone(s: State, t: TaskId, err: Error, env: Env, u: TaskId)
    requires Valid(s) && t in s.tasks && u != t && u in Raised(s, t, err, env).tasks
    ensures u in s.tasks && Raised(s, t, err, env).tasks[u] == s.tasks[u]
  {
    var pc := s.tasks[t].pc;
    if pc.Wanted().None? && !pc.Connecting? && !pc.RoundTrip? && !(pc.Closing() && err.Cancelled?) { ContinuationStays(s, t, env, u); }
  }

  lemma ContinuationStays(s: State, t: TaskId, env: Env, u: TaskId)
    requires t in s.tasks && u != t && u in Continued(s, t, env).tasks
    ensures u in s.tasks && Continued(s, t, env).tasks[u] == s.tasks[u]
  {}

  /** While `v` stays inside the registry lock, no task starts a call on any entry. */
  lemma RegistryFreezesCallers(s: State, ev: Event, v: TaskId, u: TaskId, e: EntryId)
    requires Valid(s) && Inside(s.tasks, v, Registry) && Inside(Apply(s, ev).tasks, v, Registry)
    requires Calls(Apply(s, ev), u, e)
    ensures Calls(s, u, e)
  {
    var pc := Apply(s, ev).tasks[v].pc;
    assert Registry in pc.Held() && pc.CallsOn().None?;
    if Enabled(s, ev) && !ev.CloseLoop? {
      if u != ev.task { BystanderStays(s, ev, u); } else { FrozenTask(s, ev, v, e); }
    }
  }

  /** `v` is inside the registry lock from the state after `i` events to the end of the run. */
  ghost predicate HoldsRegistrySince(cap: int, events: seq<Event>, i: nat, v: TaskId)
    requires i <= |events|
  {
    && Inside(After(cap, events).tasks, v, Registry)
    && (i < |events| ==> HoldsRegistrySince(cap, events[..|events| - 1], i, v))
  }

  lemma {:induction false} CallersOnlyLeave(cap: int, events: seq<Event>, i: nat, v: TaskId, u: TaskId, e: EntryId)
    requires i <= |events| && HoldsRegistrySince(cap, events, i, v) && Calls(After(cap, events), u, e)
    ensures Calls(After(cap, events[..i]), u, e)
    decreases |events|
  {
    if i == |events| {
      assert events[..i] == events;
    } else {
      var before := events[..|events| - 1];
      ReachableIsValid(cap, before);
      assert Inside(After(cap, before).tasks, v, Registry);
      RegistryFreezesCallers(After(cap, before), events[|events| - 1], v, u, e);
      CallersOnlyLeave(cap, before, i, v, u, e);
      assert before[..i] == events[..i];
    }
  }

  /** A call that an eviction `v` finds on an entry `e` it listed when `e` was unlocked had been queued for
      `e` at that moment: it was woken, but not yet running, when `locked()` said no. */
  lemma OnlyQueuedCallsAreDisturbed(cap: int, events: seq<Event>, i: nat, v: TaskId, u: TaskId, e: EntryId)
    requires i <= |events| && HoldsRegistrySince(cap, events, i, v) && Calls(After(cap, events), u, e)
    requires e < |After(cap, events[..i]).heap| && !Locked(After(cap, events[..i]), e)
    ensures var s := After(cap, events[..i]);
      && u in s.tasks && s.tasks[u].pc.AwaitEntry? && s.tasks[u].pc.entry == e && s.tasks[u].pc.use.Call?
      && u in s.heap[e].lock.queue
  {
    CallersOnlyLeave(cap, events, i, v, u, e);
    ReachableIsValid(cap, events[..i]);
    var s := After(cap, events[..i]);
    assert KnownLock(s, EntryLock(e)) && LockOk(s.tasks, EntryLock(e), LockOf(s, EntryLock(e)));
    assert !Inside(s.tasks, u, EntryLock(e));
    assert Waits(s.tasks, u, EntryLock(e));
  }

  lemma EvictionCloses(s: State, v: TaskId, env: Env)
    requires CanRun(s, v) && s.tasks[v].pc.ClosingUnlocked()
    ensures var e := s.tasks[v].pc.entry; var r := Apply(s, Proceed(v, env));
      OthersStay(s, r, v) && e < |r.heap| && r.heap[e].session.None? && !r.heap[e].connected
  {
    assert StretchBut(s, Continued(s, v, env), v, s.tasks[v].pc.entry, ClosedBy(s, v));
  }
}

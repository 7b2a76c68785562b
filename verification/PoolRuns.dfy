/** Two short runs of a pool of capacity one that show what can go wrong in it, step by step. */
module PoolRuns {
  import opened Common
  import opened PoolModel
  import opened PoolSafety
  import opened PoolTheorems
  import opened PoolEviction

  const K := Key("http://mcp", "sse")
  const NOW := Env(0, K)

  /** A pool of capacity one with one entry, in use or not, and what tasks do about it; all on loop 0. */
  function OneEntry(tasks: map<TaskId, Pc>, registry: bool, session: Option<LoopId>, lock: Lock, loop: Option<LoopId>, connected: bool): (s: PoolState) {
    PoolState(1, map t | t in tasks :: Task(0, tasks[t]), Lock(registry, []), [Entry(K, session, lock, loop, connected, 0)], map[K := 0], {})
  }

  /******* Single events *******/

  /** A new task that finds the registry lock free, inside it. */
  function Entering(s: State, t: TaskId): State {
    s.(tasks := s.tasks[t := Task(0, Running({Registry}))], registry := s.registry.(locked := true))
  }

  function PurposeOf(op: Operation): Purpose {
    match op
    case CallTool(key) => Fetch(key, First)
    case EvictIdle(now, maxIdle) => Sweep(now, maxIdle)
    case CloseAll => Shutdown
  }

  lemma StartEnters(s: State, t: TaskId, op: Operation, env: Env)
    requires t !in s.tasks && 0 !in s.closedLoops && Free(s, Registry)
    ensures Apply(s, Start(t, 0, op, env)) == InRegistry(Entering(s, t), t, PurposeOf(op), env)
  {
    var s1: State := s.(tasks := s.tasks[t := Task(0, Running({}))]);
    assert {Registry} + {} == {Registry};
    assert Take(s1, t, Registry) == Entering(s, t);
    assert Started(s, t, 0, op, env) == RequestRegistry(s1, t, PurposeOf(op), env);
  }

  lemma RoundTripReturns(s: State, t: TaskId, env: Env)
    requires CanRun(s, t) && s.tasks[t].pc.RoundTrip?
    ensures Apply(s, Proceed(t, env)) == Relocked(s, t, Done(Succeeded), s.tasks[t].pc.entry, s.heap[s.tasks[t].pc.entry].lock.(locked := false))
  {
    assert Apply(s, Proceed(t, env)) == Put(Left(s, t), t, Done(Succeeded));
  }

  /** `t` has moved, and the lock of one entry has changed. */
  function Relocked(s: State, t: TaskId, pc: Pc, e: EntryId, lock: Lock): PoolState
    requires t in s.tasks && e < |s.heap|
  {
    s.(tasks := s.tasks[t := s.tasks[t].(pc := pc)], heap := s.heap[e := s.heap[e].(lock := lock)])
  }

  /** A fetch of a pooled entry that somebody else is using or waits for. */
  lemma FetchQueues(s: State, t: TaskId, key: Key, env: Env)
    requires Runs(s, t, {Registry}) && s.closedLoops == {} && key in s.pool && !Free(s, EntryLock(s.pool[key]))
    ensures InRegistry(s, t, Fetch(key, First), env) ==
            Enqueue(Drop(s, t, Registry), t, EntryLock(s.pool[key]), AwaitEntry(s.pool[key], Call(key, First)))
  {
    assert Pruned(s) == s.pool;
    assert InFetch(s, t, key, First, env) == RequestCall(Drop(s, t, Registry), t, s.pool[key], key, First, env);
  }

  lemma EnteringQueues(s: State, t: TaskId, key: Key, env: Env)
    requires t !in s.tasks && s.closedLoops == {} && Free(s, Registry) && key in s.pool
    ensures Enqueue(Drop(Entering(s, t), t, Registry), t, EntryLock(s.pool[key]), AwaitEntry(s.pool[key], Call(key, First))) == Queued(s, t, key)
  {
    assert {Registry} - {Registry} == {};
  }

  /** A call whose entry is locked, or unlocked with a waiter, goes to the end of its queue. */
  lemma CallQueues(s: State, t: TaskId, key: Key, env: Env)
    requires t !in s.tasks && s.closedLoops == {} && Free(s, Registry) && key in s.pool
    requires s.heap[s.pool[key]].lock.locked || s.heap[s.pool[key]].lock.queue != []
    ensures Apply(s, Start(t, 0, CallTool(key), env)) == Queued(s, t, key)
  {
    calc {
      Apply(s, Start(t, 0, CallTool(key), env));
      { StartEnters(s, t, CallTool(key), env); }
      InRegistry(Entering(s, t), t, Fetch(key, First), env);
      { FetchQueues(Entering(s, t), t, key, env); }
      Enqueue(Drop(Entering(s, t), t, Registry), t, EntryLock(s.pool[key]), AwaitEntry(s.pool[key], Call(key, First)));
      { EnteringQueues(s, t, key, env); }
      Queued(s, t, key);
    }
  }

  function Queued(s: State, t: TaskId, key: Key): PoolState
    requires key in s.pool
  {
    var e := s.pool[key];
    s.(tasks := s.tasks[t := Task(0, AwaitEntry(e, Call(key, First)))],
       heap := s.heap[e := s.heap[e].(lock := s.heap[e].lock.(queue := s.heap[e].lock.queue + [t]))])
  }

  /** A sweep of a pool with one idle, connected, unlocked entry. */
  lemma SweepCloses(s: State, t: TaskId, k: Key, e: EntryId, now: int, maxIdle: int, env: Env)
    requires Runs(s, t, {Registry}) && s.pool == map[k := e] && e < |s.heap|
    requires s.heap[e].connected && !Locked(s, e) && now - s.heap[e].lastUsed > maxIdle
    ensures InRegistry(s, t, Sweep(now, maxIdle), env) == Put(s, t, SweepClosing(k, e, map[]))
  {
    var stale := Stale(s, now, maxIdle);
    assert stale == map[k := e] && |stale| == 1;
    assert Choose(stale.Keys, env.pick) == k;
    assert Others(stale, k) == map[];
  }

  lemma IdleSweepBegins(s: State, t: TaskId, k: Key, e: EntryId, env: Env)
    requires t !in s.tasks && s.closedLoops == {} && Free(s, Registry) && s.pool == map[k := e]
    requires e < |s.heap| && s.heap[e].connected && !Locked(s, e) && s.heap[e].lastUsed < 1
    ensures Apply(s, Start(t, 0, EvictIdle(1, 0), env)) == Evicting(s, t, k, e)
  {
    calc {
      Apply(s, Start(t, 0, EvictIdle(1, 0), env));
      { StartEnters(s, t, EvictIdle(1, 0), env); }
      InRegistry(Entering(s, t), t, Sweep(1, 0), env);
      { SweepCloses(Entering(s, t), t, k, e, 1, 0, env); }
      Put(Entering(s, t), t, SweepClosing(k, e, map[]));
      Evicting(s, t, k, e);
    }
  }

  function Evicting(s: State, t: TaskId, k: Key, e: EntryId): PoolState {
    s.(tasks := s.tasks[t := Task(0, SweepClosing(k, e, map[]))], registry := s.registry.(locked := true))
  }

  /******* One call *******/

  /** Task 0 inside the registry lock of an empty pool. */
  const ENTERED: State := PoolState(1, map[0 := Task(0, Running({Registry}))], Lock(true, []), [], map[], {})

  lemma FirstCallEnters()
    ensures Apply(Init(1), Start(0, 0, CallTool(K), NOW)) == InsertEntry(ENTERED, 0, K, First, NOW)
  {
    StartEnters(Init(1), 0, CallTool(K), NOW);
    assert Entering(Init(1), 0) == ENTERED;
    FetchIntoEmpty();
  }

  lemma FetchIntoEmpty()
    ensures InRegistry(ENTERED, 0, Fetch(K, First), NOW) == InsertEntry(ENTERED, 0, K, First, NOW)
  {
    assert Pruned(ENTERED) == map[];
  }

  lemma FirstCallConnects()
    ensures InsertEntry(ENTERED, 0, K, First, NOW) ==
      OneEntry(map[0 := Connecting(0, K, First)], false, None, Lock(true, []), None, false)
  {
    calc {
      InsertEntry(ENTERED, 0, K, First, NOW);
      RequestCall(Drop(Filed(ENTERED, K, NOW), 0, Registry), 0, 0, K, First, NOW);
      { FiledAndOut(); }
      RequestCall(FILED, 0, 0, K, First, NOW);
      { FiledConnects(); }
      OneEntry(map[0 := Connecting(0, K, First)], false, None, Lock(true, []), None, false);
    }
  }

  const FILED := OneEntry(map[0 := Running({})], false, None, Lock(false, []), None, false)

  lemma FiledAndOut()
    ensures Drop(Filed(ENTERED, K, NOW), 0, Registry) == FILED
  {
    assert {Registry} - {Registry} == {};
  }

  lemma FiledConnects()
    ensures RequestCall(FILED, 0, 0, K, First, NOW) == OneEntry(map[0 := Connecting(0, K, First)], false, None, Lock(true, []), None, false)
  {}

  lemma AfterOneMore(events: seq<Event>, ev: Event)
    ensures After(1, events + [ev]) == Apply(After(1, events), ev)
  {
    assert (events + [ev])[..|events|] == events;
  }

  /** Task 0 calls. */
  const CALL := [Start(0, 0, CallTool(K), NOW)] + [Proceed(0, NOW)]

  lemma CallIsInRoundTrip()
    ensures After(1, CALL) == CALLING
  {
    calc {
      After(1, CALL);
      { AfterOneMore([Start(0, 0, CallTool(K), NOW)], Proceed(0, NOW)); }
      Apply(After(1, [Start(0, 0, CallTool(K), NOW)]), Proceed(0, NOW));
      { CallConnects(); }
      Apply(OneEntry(map[0 := Connecting(0, K, First)], false, None, Lock(true, []), None, false), Proceed(0, NOW));
      { FirstCallIsInRoundTrip(); }
      CALLING;
    }
  }

  lemma CallConnects()
    ensures After(1, [Start(0, 0, CallTool(K), NOW)]) == OneEntry(map[0 := Connecting(0, K, First)], false, None, Lock(true, []), None, false)
  {
    calc {
      After(1, [Start(0, 0, CallTool(K), NOW)]);
      { AfterOneMore([], Start(0, 0, CallTool(K), NOW)); assert [] + [Start(0, 0, CallTool(K), NOW)] == [Start(0, 0, CallTool(K), NOW)]; }
      Apply(Init(1), Start(0, 0, CallTool(K), NOW));
      { FirstCallEnters(); }
      InsertEntry(ENTERED, 0, K, First, NOW);
      { FirstCallConnects(); }
      OneEntry(map[0 := Connecting(0, K, First)], false, None, Lock(true, []), None, false);
    }
  }

  const CALLING := OneEntry(map[0 := RoundTrip(0, K, First)], false, Some(0), Lock(true, []), Some(0), true)

  lemma FirstCallIsInRoundTrip()
    ensures Apply(OneEntry(map[0 := Connecting(0, K, First)], false, None, Lock(true, []), None, false), Proceed(0, NOW)) == CALLING
  {}

  /******* A call queues, and the entry is evicted *******/

  const QUEUED := OneEntry(map[0 := RoundTrip(0, K, First), 1 := AwaitEntry(0, Call(K, First))], false, Some(0), Lock(true, [1]), Some(0), true)

  lemma SecondCallQueues()
    ensures Apply(CALLING, Start(1, 0, CallTool(K), NOW)) == QUEUED
  {
    calc {
      Apply(CALLING, Start(1, 0, CallTool(K), NOW));
      { CallQueues(CALLING, 1, K, NOW); }
      Queued(CALLING, 1, K);
      { QueuedState(); }
      QUEUED;
    }
  }

  lemma QueuedState()
    ensures Queued(CALLING, 1, K) == QUEUED
  {
    assert CALLING.heap[0].lock.queue + [1] == [1];
  }

  const RELEASED := OneEntry(map[0 := Done(Succeeded), 1 := AwaitEntry(0, Call(K, First))], false, Some(0), Lock(false, [1]), Some(0), true)

  lemma FirstCallReturns()
    ensures Apply(QUEUED, Proceed(0, NOW)) == RELEASED
  {
    RoundTripReturns(QUEUED, 0, NOW);
  }

  const EVICTING := OneEntry(map[0 := Done(Succeeded), 1 := AwaitEntry(0, Call(K, First)), 2 := SweepClosing(K, 0, map[])], true, Some(0), Lock(false, [1]), Some(0), true)

  lemma SweepStarts()
    ensures Apply(RELEASED, Start(2, 0, EvictIdle(1, 0), NOW)) == EVICTING
  {
    calc {
      Apply(RELEASED, Start(2, 0, EvictIdle(1, 0), NOW));
      { IdleSweepBegins(RELEASED, 2, K, 0, NOW); }
      Evicting(RELEASED, 2, K, 0);
      { EvictingState(); }
      EVICTING;
    }
  }

  lemma EvictingState()
    ensures Evicting(RELEASED, 2, K, 0) == EVICTING
  {}

  /** Task 1 calls, task 0 returns, task 2 sweeps. */
  const EVICTION := CALL + [Start(1, 0, CallTool(K), NOW)] + [Proceed(0, NOW)] + [Start(2, 0, EvictIdle(1, 0), NOW)]

  lemma EvictionIsReached()
    ensures After(1, EVICTION) == EVICTING
  {
    var e1 := CALL + [Start(1, 0, CallTool(K), NOW)];
    var e2 := e1 + [Proceed(0, NOW)];
    calc {
      After(1, EVICTION);
      { AfterOneMore(e2, Start(2, 0, EvictIdle(1, 0), NOW)); }
      Apply(After(1, e2), Start(2, 0, EvictIdle(1, 0), NOW));
      { AfterOneMore(e1, Proceed(0, NOW)); AfterOneMore(CALL, Start(1, 0, CallTool(K), NOW)); CallIsInRoundTrip(); SecondCallQueues(); FirstCallReturns(); }
      Apply(RELEASED, Start(2, 0, EvictIdle(1, 0), NOW));
      { SweepStarts(); }
      EVICTING;
    }
  }

  /** The condition of `EvictionDisturbsExactly` is met in a reachable state. */
  lemma EvictionCanDisturb()
    ensures exists more, u, env :: Disturbs(After(1, EVICTION), more, 2, u, 0, env)
  {
    ReachableIsValid(1, EVICTION);
    EvictionIsReached();
    assert Entitled(EVICTING, 0, 0);
    EvictionDisturbsExactly(EVICTING, 2, 0);
  }

  /******* A disconnect is cancelled *******/

  const IDLE := OneEntry(map[0 := Done(Succeeded)], false, Some(0), Lock(false, []), Some(0), true)
  const SWEEPING := OneEntry(map[0 := Done(Succeeded), 1 := SweepClosing(K, 0, map[])], true, Some(0), Lock(false, []), Some(0), true)

  lemma CallReturns()
    ensures Apply(CALLING, Proceed(0, NOW)) == IDLE
  {
    RoundTripReturns(CALLING, 0, NOW);
  }

  lemma IdleIsSwept()
    ensures Apply(IDLE, Start(1, 0, EvictIdle(1, 0), NOW)) == SWEEPING
  {
    calc {
      Apply(IDLE, Start(1, 0, EvictIdle(1, 0), NOW));
      { IdleSweepBegins(IDLE, 1, K, 0, NOW); }
      Evicting(IDLE, 1, K, 0);
      { SweepingState(); }
      SWEEPING;
    }
  }

  lemma SweepingState()
    ensures Evicting(IDLE, 1, K, 0) == SWEEPING
  {}

  /** Task 0 calls and returns, task 1 sweeps and is cancelled in the disconnect. */
  const SWEEP := CALL + [Proceed(0, NOW)] + [Start(1, 0, EvictIdle(1, 0), NOW)]
  const TORN_SWEEP := SWEEP + [Raise(1, Cancelled, NOW)]

  lemma SweepIsReached()
    ensures After(1, SWEEP) == SWEEPING
  {
    var e1 := CALL + [Proceed(0, NOW)];
    calc {
      After(1, SWEEP);
      { AfterOneMore(e1, Start(1, 0, EvictIdle(1, 0), NOW)); }
      Apply(After(1, e1), Start(1, 0, EvictIdle(1, 0), NOW));
      { AfterOneMore(CALL, Proceed(0, NOW)); CallIsInRoundTrip(); CallReturns(); }
      Apply(IDLE, Start(1, 0, EvictIdle(1, 0), NOW));
      { IdleIsSwept(); }
      SWEEPING;
    }
  }

  /** A run of five events that tears a close, and ends with the flag set on a wrapper that is not open. */
  lemma TornCloseIsReached()
    ensures !NeverTearsClose(1, TORN_SWEEP)
    ensures var s := After(1, TORN_SWEEP); |s.heap| == 1 && s.heap[0].connected && s.heap[0].session.None?
  {
    assert TORN_SWEEP[..|SWEEP|] == SWEEP;
    SweepIsReached();
    AfterOneMore(SWEEP, Raise(1, Cancelled, NOW));
    ReachableIsValid(1, SWEEP);
    TornCloseLies(SWEEPING, Raise(1, Cancelled, NOW));
    TornKeepsHeap(SWEEPING);
  }

  lemma TornKeepsHeap(s: State)
    requires CanRun(s, 1) && s.tasks[1].pc.SweepClosing?
    ensures |Apply(s, Raise(1, Cancelled, NOW)).heap| == |s.heap|
  {}
}

/** What a task does to the pool inside the registry lock, spelled out on the entries: fetching, sweeping, shutting down. */
module PoolRegistry {
  import opened Common
  import opened PoolModel
  import opened PoolSafety
  import opened PoolLimits
  import opened PoolEviction
  import opened PoolReconnect

  /******* Fetching *******/

  /** The pooled entries that are not bound to a closed loop. */
  function OpenEntries(s: State): map<Key, EntryId> {
    map k | k in s.pool && (s.heap[s.pool[k]].loop.None? || s.heap[s.pool[k]].loop.value !in s.closedLoops) :: s.pool[k]
  }

  /** After a fetch, entries of closed loops are gone. The task is on its attempt for the pooled entry if there is one;
      otherwise for a new entry, if there is room or every entry is locked; otherwise some unlocked entry makes way, after
      its disconnect if it is connected. */
  ghost predicate Fetched(s: State, r: State, t: TaskId, key: Key, a: Attempt) {
    var open := OpenEntries(s);
    && On(r, t, key, a)
    && (if key in open then r.pool == open && Calls(r, t, open[key])
        else if |open| < s.cap || (forall k <- open :: Locked(s, open[k])) then r.pool == open[key := |s.heap|] && Calls(r, t, |s.heap|)
        else exists k :: MadeWay(s, r, t, key, a, open, k))
  }

  ghost predicate MadeWay(s: State, r: State, t: TaskId, key: Key, a: Attempt, open: map<Key, EntryId>, k: Key) {
    && t in r.tasks && k in open && open[k] < |s.heap| && !Locked(s, open[k])
    && (if s.heap[open[k]].connected then r.tasks[t].pc == CapacityClosing(key, a, k, open[k]) && r.pool == open
        else r.pool == (open - {k})[key := |s.heap|] && Calls(r, t, |s.heap|))
  }

  lemma OpenIsPruned(s: State)
    ensures Pruned(s) == OpenEntries(s)
  {}

  lemma RequestCallPool(s: State, t: TaskId, e: EntryId, key: Key, a: Attempt, env: Env)
    requires t in s.tasks && s.tasks[t].pc.Running? && e < |s.heap|
    ensures RequestCall(s, t, e, key, a, env).pool == s.pool
  {}

  lemma PrunedFetch(s: State, t: TaskId, key: Key, a: Attempt, env: Env)
    requires t in s.tasks && s.tasks[t].pc.Running? && OpenEntries(s) == s.pool
    ensures Fetched(s, InPruned(s, t, key, a, env), t, key, a)
  {
    InPrunedStage(s, t, key, a, env);
    var r := InPruned(s, t, key, a, env);
    if key in s.pool {
      RequestCallPool(Drop(s, t, Registry), t, s.pool[key], key, a, env);
    } else if |s.pool| < s.cap || Candidates(s) == {} {
      assert forall k <- s.pool :: Locked(s, s.pool[k]) || k in Candidates(s);
    } else {
      FullFetch(s, t, key, a, env);
    }
  }

  lemma FullFetch(s: State, t: TaskId, key: Key, a: Attempt, env: Env)
    requires t in s.tasks && s.tasks[t].pc.Running? && Candidates(s) != {}
    ensures exists k :: MadeWay(s, InFull(s, t, key, a, env), t, key, a, s.pool, k)
    ensures exists k :: k in s.pool && !Locked(s, s.pool[k])
  {
    var k := Choose(Candidates(s), env.pick);
    assert MadeWay(s, InFull(s, t, key, a, env), t, key, a, s.pool, k);
  }

  /** A fetch looks at the pool, the entries, the capacity and the closed loops, and at nothing else. */
  lemma FetchedAlike(s: State, inside: State, r: State, t: TaskId, key: Key, a: Attempt)
    requires inside.heap == s.heap && inside.cap == s.cap && inside.closedLoops == s.closedLoops && inside.pool == OpenEntries(s)
    requires Fetched(inside, r, t, key, a)
    ensures Fetched(s, r, t, key, a)
  {
    assert OpenEntries(inside) == OpenEntries(s);
    var open := OpenEntries(s);
    if key !in open && !(|open| < s.cap || (forall k <- open :: Locked(s, open[k]))) {
      var k :| MadeWay(inside, r, t, key, a, open, k);
      assert MadeWay(s, r, t, key, a, open, k);
    }
  }

  lemma FetchInside(s: State, inside: State, t: TaskId, key: Key, a: Attempt, env: Env)
    requires t in inside.tasks && inside.tasks[t].pc.Running?
    requires inside.heap == s.heap && inside.cap == s.cap && inside.closedLoops == s.closedLoops && inside.pool == s.pool
    ensures Fetched(s, InRegistry(inside, t, Fetch(key, a), env), t, key, a)
  {
    OpenIsPruned(inside);
    var pruned: State := inside.(pool := Pruned(inside));
    assert OpenEntries(pruned) == pruned.pool;
    PrunedFetch(pruned, t, key, a, env);
    FetchedAlike(s, pruned, InPruned(pruned, t, key, a, env), t, key, a);
  }

  /** A call that finds the registry lock free, and one that gets it after waiting, fetch so. */
  lemma StartFetches(s: State, t: TaskId, loop: LoopId, key: Key, env: Env)
    requires Enabled(s, Start(t, loop, CallTool(key), env)) && Free(s, Registry)
    ensures Fetched(s, Apply(s, Start(t, loop, CallTool(key), env)), t, key, First)
  {
    var s1: State := s.(tasks := s.tasks[t := Task(loop, Running({}))]);
    FetchInside(s, Take(s1, t, Registry), t, key, First, env);
  }

  lemma WakeFetches(s: State, t: TaskId, env: Env)
    requires Enabled(s, Wake(t, env)) && s.tasks[t].pc.AwaitRegistry? && s.tasks[t].pc.purpose.Fetch?
    ensures Fetched(s, Apply(s, Wake(t, env)), t, s.tasks[t].pc.purpose.key, s.tasks[t].pc.purpose.attempt)
  {
    FetchInside(s, Admitted(s, t, Registry), t, s.tasks[t].pc.purpose.key, s.tasks[t].pc.purpose.attempt, env);
  }

  /** With the registry lock held, or unlocked with a waiter, a newcomer goes to the end of its queue and changes nothing
      else. */
  lemma StartWaits(s: State, t: TaskId, loop: LoopId, op: Operation, env: Env)
    requires Enabled(s, Start(t, loop, op, env)) && (s.registry.locked || s.registry.queue != [])
    ensures var r := Apply(s, Start(t, loop, op, env)); var p := match op
        case CallTool(key) => Fetch(key, First)
        case EvictIdle(now, maxIdle) => Sweep(now, maxIdle)
        case CloseAll => Shutdown;
      r == s.(tasks := s.tasks[t := Task(loop, AwaitRegistry(p))], registry := s.registry.(queue := s.registry.queue + [t]))
  {}

  /******* Sweeping *******/

  /** The pooled entries that have been idle for longer than allowed and are not locked. */
  function IdleEntries(s: State, now: int, maxIdle: int): map<Key, EntryId> {
    map k | k in s.pool && now - s.heap[s.pool[k]].lastUsed > maxIdle && !s.heap[s.pool[k]].lock.locked :: s.pool[k]
  }

  /** A sweep with `rest` to go: it drops what is not connected, and stops with one that is to disconnect it; when it is
      done, all of them are gone, and no other entry ever is. */
  ghost predicate Swept(pool: map<Key, EntryId>, r: State, t: TaskId, rest: map<Key, EntryId>) {
    t in r.tasks &&
    match r.tasks[t].pc
    case Done(outcome) => outcome.Succeeded? && r.pool == pool - rest.Keys
    case SweepClosing(k, e, left) =>
      && k in rest && rest[k] == e && e < |r.heap| && r.heap[e].connected && k !in left
      && left.Keys <= rest.Keys && (forall j <- left :: left[j] == rest[j])
      && r.pool == pool - (rest.Keys - left.Keys - {k})
    case _ => false
  }

  lemma {:induction false} SweepOnExactly(s: State, t: TaskId, rest: map<Key, EntryId>, env: Env)
    requires t in s.tasks && s.tasks[t].pc.Running? && EntriesBelow(rest, |s.heap|)
    ensures Swept(s.pool, SweepOn(s, t, rest, env), t, rest)
    decreases |rest|
  {
    if |rest| > 0 {
      var k := Choose(rest.Keys, env.pick);
      var left := Others(rest, k);
      assert left.Keys == rest.Keys - {k};
      if s.heap[rest[k]].connected {
        assert rest.Keys - left.Keys - {k} == {} && s.pool - {} == s.pool;
      } else {
        SweepOnExactly(Popped(s, k), t, left, env);
        SweptWithOneMore(s.pool, SweepOn(Popped(s, k), t, left, env), t, rest, k, left);
      }
    } else {
      assert rest.Keys == {} && s.pool - {} == s.pool;
    }
  }

  lemma SweptWithOneMore(pool: map<Key, EntryId>, r: State, t: TaskId, rest: map<Key, EntryId>, k: Key, left: map<Key, EntryId>)
    requires k in rest && left.Keys == rest.Keys - {k} && (forall j <- left :: left[j] == rest[j]) && Swept(pool - {k}, r, t, left)
    ensures Swept(pool, r, t, rest)
  {
    match r.tasks[t].pc
    case Done(_) => assert pool - {k} - left.Keys == pool - rest.Keys;
    case SweepClosing(j, _, more) => assert pool - {k} - (left.Keys - more.Keys - {j}) == pool - (rest.Keys - more.Keys - {j});
  }

  lemma SweepInside(s: State, inside: State, t: TaskId, now: int, maxIdle: int, env: Env)
    requires t in inside.tasks && inside.tasks[t].pc.Running? && inside.heap == s.heap && inside.pool == s.pool
    ensures Swept(s.pool, InRegistry(inside, t, Sweep(now, maxIdle), env), t, IdleEntries(s, now, maxIdle))
  {
    assert Stale(inside, now, maxIdle) == IdleEntries(s, now, maxIdle);
    SweepOnExactly(inside, t, Stale(inside, now, maxIdle), env);
  }

  /** An idle sweep that finds the registry lock free, and one that gets it after waiting, is about exactly the entries
      that are idle and unlocked then. */
  lemma StartSweeps(s: State, t: TaskId, loop: LoopId, now: int, maxIdle: int, env: Env)
    requires Enabled(s, Start(t, loop, EvictIdle(now, maxIdle), env)) && Free(s, Registry)
    ensures Swept(s.pool, Apply(s, Start(t, loop, EvictIdle(now, maxIdle), env)), t, IdleEntries(s, now, maxIdle))
  {
    var s1: State := s.(tasks := s.tasks[t := Task(loop, Running({}))]);
    SweepInside(s, Take(s1, t, Registry), t, now, maxIdle, env);
  }

  lemma WakeSweeps(s: State, t: TaskId, env: Env)
    requires Enabled(s, Wake(t, env)) && s.tasks[t].pc.AwaitRegistry? && s.tasks[t].pc.purpose.Sweep?
    ensures Swept(s.pool, Apply(s, Wake(t, env)), t, IdleEntries(s, s.tasks[t].pc.purpose.now, s.tasks[t].pc.purpose.maxIdle))
  {
    SweepInside(s, Admitted(s, t, Registry), t, s.tasks[t].pc.purpose.now, s.tasks[t].pc.purpose.maxIdle, env);
  }

  /** When a disconnect of the sweep is over, its entry goes, and the sweep is about the rest. */
  lemma SweepGoesOn(s: State, t: TaskId, env: Env)
    requires Enabled(s, Proceed(t, env)) && s.tasks[t].pc.SweepClosing?
    ensures Swept(s.pool - {s.tasks[t].pc.victim}, Apply(s, Proceed(t, env)), t, s.tasks[t].pc.rest)
  {
    SweepOnExactly(Popped(CloseDone(s, t), s.tasks[t].pc.victim), t, s.tasks[t].pc.rest, env);
  }

  /******* Shutting down *******/

  /** A shutdown with `rest` to go: it stops with one that is connected to disconnect it; when it is done the pool is
      empty. */
  ghost predicate ShutDown(pool: map<Key, EntryId>, r: State, t: TaskId, rest: map<Key, EntryId>) {
    t in r.tasks &&
    match r.tasks[t].pc
    case Done(outcome) => outcome.Succeeded? && r.pool == map[] && forall k <- rest :: rest[k] < |r.heap| && !r.heap[rest[k]].connected
    case ShutdownClosing(e, left) =>
      && r.pool == pool && e < |r.heap| && r.heap[e].connected && left.Keys <= rest.Keys && (forall j <- left :: left[j] == rest[j])
      && forall k <- rest :: k in left || rest[k] == e || (rest[k] < |r.heap| && !r.heap[rest[k]].connected)
    case _ => false
  }

  lemma ShutDownWithOneMore(pool: map<Key, EntryId>, r: State, t: TaskId, rest: map<Key, EntryId>, k: Key)
    requires k in rest && rest[k] < |r.heap| && !r.heap[rest[k]].connected && ShutDown(pool, r, t, rest - {k})
    ensures ShutDown(pool, r, t, rest)
  {
    assert forall j <- rest :: j == k || j in rest - {k};
  }

  lemma {:induction false} ShutdownOnExactly(s: State, t: TaskId, rest: map<Key, EntryId>, env: Env)
    requires t in s.tasks && s.tasks[t].pc.Running? && EntriesBelow(rest, |s.heap|)
    ensures ShutDown(s.pool, ShutdownOn(s, t, rest, env), t, rest)
    decreases |rest|
  {
    ShutdownQueues(s, t, rest, env);
    if |rest| > 0 {
      var k := Choose(rest.Keys, env.pick);
      if !s.heap[rest[k]].connected {
        assert (rest - {k}).Keys == rest.Keys - {k};
        ShutdownOnExactly(s, t, rest - {k}, env);
        ShutDownWithOneMore(s.pool, ShutdownOn(s, t, rest, env), t, rest, k);
      }
    }
  }

  lemma StartShutsDown(s: State, t: TaskId, loop: LoopId, env: Env)
    requires Enabled(s, Start(t, loop, CloseAll, env)) && Free(s, Registry)
    ensures ShutDown(s.pool, Apply(s, Start(t, loop, CloseAll, env)), t, s.pool)
  {
    var s1: State := s.(tasks := s.tasks[t := Task(loop, Running({}))]);
    ShutdownOnExactly(Take(s1, t, Registry), t, s.pool, env);
  }

  lemma ShutdownGoesOn(s: State, t: TaskId, env: Env)
    requires Enabled(s, Proceed(t, env)) && s.tasks[t].pc.ShutdownClosing?
    ensures ShutDown(s.pool, Apply(s, Proceed(t, env)), t, s.tasks[t].pc.rest)
  {
    ShutdownOnExactly(CloseDone(s, t), t, s.tasks[t].pc.rest, env);
  }

  /******* Time stamps *******/

  /** A task that gets to its round trip has stamped the entry with the clock. */
  ghost predicate Stamped(r: State, t: TaskId, env: Env) {
    t in r.tasks && (r.tasks[t].pc.RoundTrip? ==> r.heap[r.tasks[t].pc.entry].lastUsed == env.now)
  }

  lemma InCallStamps(s: State, t: TaskId, e: EntryId, key: Key, a: Attempt, env: Env)
    requires t in s.tasks && e < |s.heap|
    ensures Stamped(InCall(s, t, e, key, a, env), t, env)
  {}

  lemma RequestCallStamps(s: State, t: TaskId, e: EntryId, key: Key, a: Attempt, env: Env)
    requires t in s.tasks && s.tasks[t].pc.Running? && e < |s.heap|
    ensures Stamped(RequestCall(s, t, e, key, a, env), t, env)
  {
    if Free(s, EntryLock(e)) { InCallStamps(Take(s, t, EntryLock(e)), t, e, key, a, env); }
  }

  lemma FetchStamps(s: State, t: TaskId, key: Key, a: Attempt, env: Env)
    requires t in s.tasks && s.tasks[t].pc.Running?
    ensures Stamped(InPruned(s, t, key, a, env), t, env)
  {
    if key in s.pool { RequestCallStamps(Drop(s, t, Registry), t, s.pool[key], key, a, env); }
    else if |s.pool| < s.cap || Candidates(s) == {} { InsertStamps(s, t, key, a, env); }
    else { InsertStamps(Popped(s, Choose(Candidates(s), env.pick)), t, key, a, env); }
  }

  lemma InsertStamps(s: State, t: TaskId, key: Key, a: Attempt, env: Env)
    requires t in s.tasks && s.tasks[t].pc.Running?
    ensures Stamped(InsertEntry(s, t, key, a, env), t, env)
  {
    RequestCallStamps(Drop(Filed(s, key, env), t, Registry), t, |s.heap|, key, a, env);
  }

  /** The three ways to a round trip: from the queue of the entry, from a connect, and straight from the registry. */
  lemma RoundTripIsStamped(s: State, ev: Event)
    requires Enabled(s, ev)
    requires (ev.Wake? && (s.tasks[ev.task].pc.AwaitEntry? && s.tasks[ev.task].pc.use.Call?)) || (ev.Proceed? && s.tasks[ev.task].pc.Connecting?)
      || (ev.Wake? && s.tasks[ev.task].pc.AwaitRegistry? && s.tasks[ev.task].pc.purpose.Fetch?)
    ensures Stamped(Apply(s, ev), ev.task, ev.env)
  {
    var t, pc := ev.task, s.tasks[ev.task].pc;
    if pc.AwaitEntry? {
      InCallStamps(Admitted(s, t, EntryLock(pc.entry)), t, pc.entry, pc.use.key, pc.use.attempt, ev.env);
    } else if pc.AwaitRegistry? {
      var inside := Admitted(s, t, Registry);
      FetchStamps(inside.(pool := Pruned(inside)), t, pc.purpose.key, pc.purpose.attempt, ev.env);
    }
  }
}

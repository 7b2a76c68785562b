/**
 What every step of the pool keeps: mutual exclusion on every lock, no lost waiter, one pooled
 entry per key, and no open session behind a cleared `connected` flag.
 */
module PoolSafety {
  import opened Common
  import opened PoolModel

  predicate Inside(tasks: map<TaskId, Task>, t: TaskId, l: LockId) {
    t in tasks && l in tasks[t].pc.Held()
  }

  predicate Waits(tasks: map<TaskId, Task>, t: TaskId, l: LockId) {
    t in tasks && tasks[t].pc.Wanted() == Some(l)
  }

  /** `l` is locked exactly while one task is inside its block, and its queue lists exactly the
      tasks that wait for it, each once. */
  ghost predicate LockOk(tasks: map<TaskId, Task>, l: LockId, lock: Lock) {
    && (lock.locked <==> exists t :: Inside(tasks, t, l))
    && (forall t, u :: Inside(tasks, t, l) && Inside(tasks, u, l) ==> t == u)
    && (forall t :: Waits(tasks, t, l) <==> t in lock.queue)
    && Distinct(lock.queue)
  }

  ghost predicate LocksOk(s: PoolState) {
    forall l {:trigger KnownLock(s, l)} :: KnownLock(s, l) ==> LockOk(s.tasks, l, LockOf(s, l))
  }

  ghost predicate PooledAs(s: PoolState, k: Key, e: EntryId) {
    k in s.pool && s.pool[k] == e
  }

  /** What the pool looks like to a task suspended at `pc`. */
  ghost predicate PcOk(s: State, pc: Pc)
    requires pc.Refers(|s.heap|)
  {
    match pc
    case CapacityClosing(key, _, k, e) => key !in s.pool && PooledAs(s, k, e) && |s.pool| >= s.cap
    case SweepClosing(k, e, rest) => PooledAs(s, k, e) && k !in rest && forall j <- rest :: PooledAs(s, j, rest[j])
    case ShutdownClosing(_, rest) => forall j <- rest :: PooledAs(s, j, rest[j])
    case AwaitEntry(e, Call(key, _)) => s.heap[e].key == key
    case AwaitEntry(e, Break(key)) => s.heap[e].key == key
    case Rebinding(e, key, _) => s.heap[e].key == key
    case Connecting(e, key, _) => s.heap[e].key == key
    case RoundTrip(e, key, _) => s.heap[e].key == key
    case Breaking(e, key) => s.heap[e].key == key
    case _ => true
  }

  ghost predicate PoolOk(s: State) {
    && (forall k <- s.pool :: s.heap[s.pool[k]].key == k)
    && (forall t <- s.tasks :: PcOk(s, s.tasks[t].pc))
  }

  ghost predicate Valid(s: State) {
    LocksOk(s) && PoolOk(s) && EntriesOk(s)
  }

  /** `t` is in the middle of a stretch, inside exactly the blocks of `held`. */
  predicate Runs(s: State, t: TaskId, held: set<LockId>) {
    t in s.tasks && s.tasks[t].pc == Running(held)
  }

  /******* One lock, when one task moves *******/

  lemma UntouchedLock(tasks: map<TaskId, Task>, t: TaskId, task: Task, l: LockId, lock: Lock)
    requires LockOk(tasks, l, lock)
    requires Inside(tasks, t, l) <==> l in task.pc.Held()
    requires Waits(tasks, t, l) <==> task.pc.Wanted() == Some(l)
    ensures LockOk(tasks[t := task], l, lock)
  {
    var after := tasks[t := task];
    forall u ensures Inside(after, u, l) <==> Inside(tasks, u, l) {}
    forall u ensures Waits(after, u, l) <==> Waits(tasks, u, l) {}
  }

  lemma TakenLock(tasks: map<TaskId, Task>, t: TaskId, task: Task, l: LockId, lock: Lock)
    requires LockOk(tasks, l, lock) && !lock.locked
    requires l in task.pc.Held() && !Waits(tasks, t, l) && task.pc.Wanted() == None
    ensures LockOk(tasks[t := task], l, lock.(locked := true))
  {
    var after := tasks[t := task];
    forall u ensures Inside(after, u, l) <==> u == t { assert !Inside(tasks, u, l); }
    assert Inside(after, t, l);
    forall u ensures Waits(after, u, l) <==> Waits(tasks, u, l) {}
  }

  lemma DroppedLock(tasks: map<TaskId, Task>, t: TaskId, task: Task, l: LockId, lock: Lock)
    requires LockOk(tasks, l, lock) && Inside(tasks, t, l)
    requires l !in task.pc.Held() && !Waits(tasks, t, l) && task.pc.Wanted() == None
    ensures LockOk(tasks[t := task], l, lock.(locked := false))
  {
    var after := tasks[t := task];
    forall u ensures !Inside(after, u, l) { assert Inside(tasks, u, l) ==> u == t; }
    forall u ensures Waits(after, u, l) <==> Waits(tasks, u, l) {}
  }

  lemma QueuedLock(tasks: map<TaskId, Task>, t: TaskId, task: Task, l: LockId, lock: Lock)
    requires LockOk(tasks, l, lock) && !Inside(tasks, t, l) && !Waits(tasks, t, l)
    requires task.pc.Held() == {} && task.pc.Wanted() == Some(l)
    ensures LockOk(tasks[t := task], l, lock.(queue := lock.queue + [t]))
  {
    var after := tasks[t := task];
    forall u ensures Inside(after, u, l) <==> Inside(tasks, u, l) {}
    forall u ensures Waits(after, u, l) <==> u == t || Waits(tasks, u, l) {}
  }

  lemma UnqueuedLock(tasks: map<TaskId, Task>, t: TaskId, task: Task, l: LockId, lock: Lock)
    requires LockOk(tasks, l, lock) && Waits(tasks, t, l)
    requires task.pc.Held() == {} && task.pc.Wanted() == None
    ensures LockOk(tasks[t := task], l, lock.(queue := Without(lock.queue, t)))
  {
    var after := tasks[t := task];
    WithoutIsRemoval(lock.queue, t);
    forall u ensures Inside(after, u, l) <==> Inside(tasks, u, l) {}
    forall u ensures Waits(after, u, l) <==> u != t && Waits(tasks, u, l) {}
  }

  /******* Lock operations *******/

  /** The pool and the keys of its entries are as before. */
  predicate SamePool(s: PoolState, r: PoolState) {
    && r.cap == s.cap && r.pool == s.pool && |s.heap| <= |r.heap|
    && forall e :: 0 <= e < |s.heap| ==> r.heap[e].key == s.heap[e].key
  }

  lemma PcKept(s: State, r: State, pc: Pc)
    requires SamePool(s, r) && pc.Refers(|s.heap|) && PcOk(s, pc)
    ensures pc.Refers(|r.heap|) && PcOk(r, pc)
  {}

  lemma EntriesKept(s: State, r: State, t: TaskId, pc: Pc)
    requires PoolOk(s) && EntriesOk(s) && SamePool(s, r) && |r.heap| == |s.heap|
    requires forall e :: 0 <= e < |s.heap| ==> SameConnection(s.heap[e], r.heap[e])
    requires t in s.tasks && pc.Refers(|s.heap|) && PcOk(s, pc) && r.tasks == s.tasks[t := s.tasks[t].(pc := pc)]
    ensures PoolOk(r) && EntriesOk(r)
  {
    forall u <- r.tasks ensures PcOk(r, r.tasks[u].pc) {
      PcKept(s, r, if u == t then pc else s.tasks[u].pc);
    }
  }

  lemma TakeKeeps(s: State, t: TaskId, l: LockId, held: set<LockId>)
    requires Valid(s) && Runs(s, t, held) && KnownLock(s, l) && !LockOf(s, l).locked
    ensures Valid(Take(s, t, l)) && Runs(Take(s, t, l), t, {l} + held)
  {
    var r := Take(s, t, l);
    forall m | KnownLock(r, m) ensures LockOk(r.tasks, m, LockOf(r, m)) {
      assert KnownLock(s, m);
      if m == l { TakenLock(s.tasks, t, r.tasks[t], m, LockOf(s, m)); }
      else { UntouchedLock(s.tasks, t, r.tasks[t], m, LockOf(s, m)); }
    }
    EntriesKept(s, r, t, r.tasks[t].pc);
  }

  lemma DropKeeps(s: State, t: TaskId, l: LockId, held: set<LockId>)
    requires Valid(s) && Runs(s, t, held) && KnownLock(s, l) && l in held
    ensures Valid(Drop(s, t, l)) && Runs(Drop(s, t, l), t, held - {l})
  {
    var r := Drop(s, t, l);
    forall m | KnownLock(r, m) ensures LockOk(r.tasks, m, LockOf(r, m)) {
      assert KnownLock(s, m);
      if m == l { DroppedLock(s.tasks, t, r.tasks[t], m, LockOf(s, m)); }
      else { UntouchedLock(s.tasks, t, r.tasks[t], m, LockOf(s, m)); }
    }
    EntriesKept(s, r, t, r.tasks[t].pc);
  }

  lemma EnqueueKeeps(s: State, t: TaskId, l: LockId, pc: Pc)
    requires Valid(s) && Runs(s, t, {}) && KnownLock(s, l) && pc.Refers(|s.heap|)
    requires pc.Wanted() == Some(l) && PcOk(s, pc)
    ensures Valid(Enqueue(s, t, l, pc))
  {
    var r := Enqueue(s, t, l, pc);
    forall m | KnownLock(r, m) ensures LockOk(r.tasks, m, LockOf(r, m)) {
      assert KnownLock(s, m);
      if m == l { QueuedLock(s.tasks, t, r.tasks[t], m, LockOf(s, m)); }
      else { UntouchedLock(s.tasks, t, r.tasks[t], m, LockOf(s, m)); }
    }
    EntriesKept(s, r, t, pc);
  }

  lemma DequeueKeeps(s: State, t: TaskId, l: LockId)
    requires Valid(s) && t in s.tasks && KnownLock(s, l) && s.tasks[t].pc.Wanted() == Some(l)
    ensures Valid(Dequeue(s, t, l)) && Runs(Dequeue(s, t, l), t, {})
    ensures KnownLock(Dequeue(s, t, l), l) && LockOf(Dequeue(s, t, l), l).locked == LockOf(s, l).locked
  {
    var r := Dequeue(s, t, l);
    assert s.tasks[t].pc.Held() == {};
    forall m | KnownLock(r, m) ensures LockOk(r.tasks, m, LockOf(r, m)) {
      assert KnownLock(s, m);
      if m == l { UnqueuedLock(s.tasks, t, r.tasks[t], m, LockOf(s, m)); }
      else { UntouchedLock(s.tasks, t, r.tasks[t], m, LockOf(s, m)); }
    }
    EntriesKept(s, r, t, r.tasks[t].pc);
  }

  /** A running task suspends, or a suspended one resumes, without touching a lock. */
  lemma PutKeeps(s: State, t: TaskId, pc: Pc)
    requires Valid(s) && t in s.tasks && pc.Refers(|s.heap|) && PcOk(s, pc)
    requires s.tasks[t].pc.Held() == pc.Held() && s.tasks[t].pc.Wanted() == None && pc.Wanted() == None
    ensures Valid(Put(s, t, pc))
  {
    var r := Put(s, t, pc);
    forall m | KnownLock(r, m) ensures LockOk(r.tasks, m, LockOf(r, m)) {
      assert KnownLock(s, m);
      UntouchedLock(s.tasks, t, r.tasks[t], m, LockOf(s, m));
    }
    EntriesKept(s, r, t, pc);
  }

  /******* Entries and the pool *******/

  /** Updating an entry's connection fields keeps everything, if no session opens behind a cleared flag. */
  lemma EntryUpdateKeeps(s: State, e: EntryId, entry: Entry)
    requires Valid(s) && e < |s.heap|
    requires entry.key == s.heap[e].key && entry.lock == s.heap[e].lock
    requires entry.session.Some? ==> entry.connected
    ensures Valid(s.(heap := s.heap[e := entry]))
  {
    var r: State := s.(heap := s.heap[e := entry]);
    assert LocksOk(r) by {
      forall m | KnownLock(r, m) ensures LockOk(r.tasks, m, LockOf(r, m)) {
        assert KnownLock(s, m) && LockOf(r, m) == LockOf(s, m);
      }
    }
    assert PoolOk(r) by {
      forall t <- r.tasks ensures PcOk(r, r.tasks[t].pc) { PcKept(s, r, s.tasks[t].pc); }
    }
  }

  /** Only a task inside the registry lock changes the pool, so no other task relies on its contents. */
  lemma PoolUpdateKeeps(s: State, t: TaskId, held: set<LockId>, pool: map<Key, EntryId>)
    requires Valid(s) && Runs(s, t, held) && Registry in held
    requires EntriesBelow(pool, |s.heap|) && forall k <- pool :: s.heap[pool[k]].key == k
    ensures Valid(s.(pool := pool))
  {
    var r: State := s.(pool := pool);
    forall m | KnownLock(r, m) ensures LockOk(r.tasks, m, LockOf(r, m)) {
      assert KnownLock(s, m);
    }
    assert KnownLock(s, Registry) && Inside(s.tasks, t, Registry);
    forall u <- r.tasks ensures PcOk(r, r.tasks[u].pc) {
      assert PcOk(s, s.tasks[u].pc);
      if u != t { assert !Inside(s.tasks, u, Registry); }
    }
  }

  /** A fresh entry, filed under its key by the task inside the registry lock. */
  lemma FiledKeeps(s: State, t: TaskId, key: Key, env: Env)
    requires Valid(s) && Runs(s, t, {Registry})
    ensures Valid(Filed(s, key, env))
  {
    var r := Filed(s, key, env);
    var mid: State := r.(pool := s.pool);
    assert LocksOk(mid) by {
      forall m | KnownLock(mid, m) ensures LockOk(mid.tasks, m, LockOf(mid, m)) {
        if m == EntryLock(|s.heap|) {
          forall u <- s.tasks ensures !Inside(s.tasks, u, m) && !Waits(s.tasks, u, m) {
            assert s.tasks[u].pc.Refers(|s.heap|);
          }
        } else {
          assert KnownLock(s, m) && LockOf(mid, m) == LockOf(s, m);
        }
      }
    }
    assert PoolOk(mid) by {
      forall u <- mid.tasks ensures PcOk(mid, mid.tasks[u].pc) { PcKept(s, mid, s.tasks[u].pc); }
    }
    PoolUpdateKeeps(mid, t, {Registry}, r.pool);
  }

  /******* Stretches *******/

  lemma InCallKeeps(s: State, t: TaskId, e: EntryId, key: Key, a: Attempt, env: Env)
    requires Valid(s) && e < |s.heap| && Runs(s, t, {EntryLock(e)}) && s.heap[e].key == key
    ensures Valid(InCall(s, t, e, key, a, env))
  {
    if s.heap[e].connected && s.heap[e].loop != Some(s.tasks[t].loop) {
      PutKeeps(s, t, Rebinding(e, key, a));
    } else if !s.heap[e].connected {
      PutKeeps(s, t, Connecting(e, key, a));
    } else {
      BeginRoundTripKeeps(s, t, e, key, a, env);
    }
  }

  lemma BeginRoundTripKeeps(s: State, t: TaskId, e: EntryId, key: Key, a: Attempt, env: Env)
    requires Valid(s) && e < |s.heap| && Runs(s, t, {EntryLock(e)}) && s.heap[e].key == key
    ensures Valid(BeginRoundTrip(s, t, e, key, a, env))
  {
    EntryUpdateKeeps(s, e, s.heap[e].(lastUsed := env.now));
    PutKeeps(s.(heap := s.heap[e := s.heap[e].(lastUsed := env.now)]), t, RoundTrip(e, key, a));
  }

  lemma RequestCallKeeps(s: State, t: TaskId, e: EntryId, key: Key, a: Attempt, env: Env)
    requires Valid(s) && e < |s.heap| && Runs(s, t, {}) && s.heap[e].key == key
    ensures Valid(RequestCall(s, t, e, key, a, env))
  {
    if Free(s, EntryLock(e)) {
      TakeKeeps(s, t, EntryLock(e), {});
      InCallKeeps(Take(s, t, EntryLock(e)), t, e, key, a, env);
    } else {
      EnqueueKeeps(s, t, EntryLock(e), AwaitEntry(e, Call(key, a)));
    }
  }

  lemma InsertEntryKeeps(s: State, t: TaskId, key: Key, a: Attempt, env: Env)
    requires Valid(s) && Runs(s, t, {Registry})
    ensures Valid(InsertEntry(s, t, key, a, env))
  {
    FiledKeeps(s, t, key, env);
    DropKeeps(Filed(s, key, env), t, Registry, {Registry});
    RequestCallKeeps(Drop(Filed(s, key, env), t, Registry), t, |s.heap|, key, a, env);
  }

  lemma PoppedKeeps(s: State, t: TaskId, k: Key)
    requires Valid(s) && Runs(s, t, {Registry})
    ensures Valid(Popped(s, k)) && Runs(Popped(s, k), t, {Registry})
  {
    PoolUpdateKeeps(s, t, {Registry}, s.pool - {k});
  }

  lemma InFullKeeps(s: State, t: TaskId, key: Key, a: Attempt, env: Env)
    requires Valid(s) && Runs(s, t, {Registry}) && Candidates(s) != {} && key !in s.pool && |s.pool| >= s.cap
    ensures Valid(InFull(s, t, key, a, env))
  {
    var k := Choose(Candidates(s), env.pick);
    if s.heap[s.pool[k]].connected {
      PutKeeps(s, t, CapacityClosing(key, a, k, s.pool[k]));
    } else {
      PoppedKeeps(s, t, k);
      InsertEntryKeeps(Popped(s, k), t, key, a, env);
    }
  }

  lemma InFetchKeeps(s: State, t: TaskId, key: Key, a: Attempt, env: Env)
    requires Valid(s) && Runs(s, t, {Registry})
    ensures Valid(InFetch(s, t, key, a, env))
  {
    PoolUpdateKeeps(s, t, {Registry}, Pruned(s));
    InPrunedKeeps(s.(pool := Pruned(s)), t, key, a, env);
  }

  lemma InPrunedKeeps(s: State, t: TaskId, key: Key, a: Attempt, env: Env)
    requires Valid(s) && Runs(s, t, {Registry})
    ensures Valid(InPruned(s, t, key, a, env))
  {
    if key in s.pool {
      DropKeeps(s, t, Registry, {Registry});
      RequestCallKeeps(Drop(s, t, Registry), t, s.pool[key], key, a, env);
    } else if |s.pool| < s.cap || Candidates(s) == {} {
      InsertEntryKeeps(s, t, key, a, env);
    } else {
      InFullKeeps(s, t, key, a, env);
    }
  }

  lemma {:induction false} SweepOnKeeps(s: State, t: TaskId, rest: map<Key, EntryId>, env: Env)
    requires Valid(s) && Runs(s, t, {Registry})
    requires EntriesBelow(rest, |s.heap|) && forall k <- rest :: PooledAs(s, k, rest[k])
    ensures Valid(SweepOn(s, t, rest, env))
    decreases |rest|
  {
    if |rest| == 0 {
      DropKeeps(s, t, Registry, {Registry});
      PutKeeps(Drop(s, t, Registry), t, Done(Succeeded));
    } else {
      var k := Choose(rest.Keys, env.pick);
      if s.heap[rest[k]].connected {
        PutKeeps(s, t, SweepClosing(k, rest[k], rest - {k}));
      } else {
        PoppedKeeps(s, t, k);
        SweepOnKeeps(Popped(s, k), t, rest - {k}, env);
      }
    }
  }

  lemma {:induction false} ShutdownOnKeeps(s: State, t: TaskId, rest: map<Key, EntryId>, env: Env)
    requires Valid(s) && Runs(s, t, {Registry})
    requires EntriesBelow(rest, |s.heap|) && forall k <- rest :: PooledAs(s, k, rest[k])
    ensures Valid(ShutdownOn(s, t, rest, env))
    decreases |rest|
  {
    if |rest| == 0 {
      PoolUpdateKeeps(s, t, {Registry}, map[]);
      DropKeeps(s.(pool := map[]), t, Registry, {Registry});
      PutKeeps(Drop(s.(pool := map[]), t, Registry), t, Done(Succeeded));
    } else {
      var k := Choose(rest.Keys, env.pick);
      if s.heap[rest[k]].connected {
        PutKeeps(s, t, ShutdownClosing(rest[k], rest - {k}));
      } else {
        ShutdownOnKeeps(s, t, rest - {k}, env);
      }
    }
  }

  lemma InRegistryKeeps(s: State, t: TaskId, p: Purpose, env: Env)
    requires Valid(s) && Runs(s, t, {Registry})
    ensures Valid(InRegistry(s, t, p, env))
  {
    match p
    case Fetch(key, a) => InFetchKeeps(s, t, key, a, env);
    case Sweep(now, maxIdle) => SweepOnKeeps(s, t, Stale(s, now, maxIdle), env);
    case Shutdown => ShutdownOnKeeps(s, t, s.pool, env);
  }

  lemma RequestRegistryKeeps(s: State, t: TaskId, p: Purpose, env: Env)
    requires Valid(s) && Runs(s, t, {})
    ensures Valid(RequestRegistry(s, t, p, env))
  {
    if Free(s, Registry) {
      TakeKeeps(s, t, Registry, {});
      InRegistryKeeps(Take(s, t, Registry), t, p, env);
    } else {
      EnqueueKeeps(s, t, Registry, AwaitRegistry(p));
    }
  }

  lemma InBreakKeeps(s: State, t: TaskId, e: EntryId, key: Key, env: Env)
    requires Valid(s) && e < |s.heap| && Runs(s, t, {EntryLock(e)}) && s.heap[e].key == key
    ensures Valid(InBreak(s, t, e, key, env)) && Valid(BreakDone(s, t, e, key, env))
  {
    EntryUpdateKeeps(s, e, Closed(s, e).heap[e]);
    DropKeeps(Closed(s, e), t, EntryLock(e), {EntryLock(e)});
    RequestRegistryKeeps(Drop(Closed(s, e), t, EntryLock(e)), t, Fetch(key, Second), env);
    if s.heap[e].connected { PutKeeps(s, t, Breaking(e, key)); }
  }

  lemma MarkBrokenKeeps(s: State, t: TaskId, key: Key, env: Env)
    requires Valid(s) && Runs(s, t, {}) && key in s.pool
    ensures Valid(MarkBroken(s, t, key, env))
  {
    var e := s.pool[key];
    if Free(s, EntryLock(e)) {
      TakeKeeps(s, t, EntryLock(e), {});
      InBreakKeeps(Take(s, t, EntryLock(e)), t, e, key, env);
    } else {
      EnqueueKeeps(s, t, EntryLock(e), AwaitEntry(e, Break(key)));
    }
  }

  lemma AttemptRaisedKeeps(s: State, t: TaskId, key: Key, a: Attempt, err: Error, env: Env)
    requires Valid(s) && Runs(s, t, {})
    ensures Valid(AttemptRaised(s, t, key, a, err, env))
  {
    if a.Second? || !err.Reconnectable? {
      PutKeeps(s, t, Done(Failed(err)));
    } else if key !in s.pool {
      RequestRegistryKeeps(s, t, Fetch(key, Second), env);
    } else {
      MarkBrokenKeeps(s, t, key, env);
    }
  }

  /******* Events *******/

  lemma AdmittedKeeps(s: State, t: TaskId, l: LockId)
    requires Valid(s) && t in s.tasks && KnownLock(s, l) && s.tasks[t].pc.Wanted() == Some(l) && !LockOf(s, l).locked
    ensures Valid(Admitted(s, t, l)) && Runs(Admitted(s, t, l), t, {l})
  {
    DequeueKeeps(s, t, l);
    TakeKeeps(Dequeue(s, t, l), t, l, {});
  }

  lemma WokenKeeps(s: State, t: TaskId, env: Env)
    requires Valid(s) && Enabled(s, Wake(t, env))
    ensures Valid(Woken(s, t, env))
  {
    var pc := s.tasks[t].pc;
    assert PcOk(s, pc);
    if pc.AwaitRegistry? {
      AdmittedKeeps(s, t, Registry);
      InRegistryKeeps(Admitted(s, t, Registry), t, pc.purpose, env);
    } else {
      AdmittedKeeps(s, t, EntryLock(pc.entry));
      var s1 := Admitted(s, t, EntryLock(pc.entry));
      if pc.use.Call? { InCallKeeps(s1, t, pc.entry, pc.use.key, pc.use.attempt, env); }
      else { InBreakKeeps(s1, t, pc.entry, pc.use.key, env); }
    }
  }

  lemma ClosedKeeps(s: State, t: TaskId, e: EntryId, held: set<LockId>)
    requires Valid(s) && e < |s.heap| && Runs(s, t, held)
    ensures Valid(Closed(s, e)) && Runs(Closed(s, e), t, held) && Valid(Torn(s, e)) && Runs(Torn(s, e), t, held)
  {
    EntryUpdateKeeps(s, e, Closed(s, e).heap[e]);
    EntryUpdateKeeps(s, e, Torn(s, e).heap[e]);
  }

  lemma ResumedKeeps(s: State, t: TaskId)
    requires Valid(s) && t in s.tasks && s.tasks[t].pc.Wanted().None?
    ensures Valid(Resumed(s, t)) && Runs(Resumed(s, t), t, s.tasks[t].pc.Held())
  {
    PutKeeps(s, t, Running(s.tasks[t].pc.Held()));
  }

  /** A close under the registry lock is over: the entry is closed and, in an eviction, dropped. */
  lemma EvictedKeeps(s: State, t: TaskId)
    requires Valid(s) && t in s.tasks && s.tasks[t].pc.ClosingUnlocked()
    ensures var r := Closed(Resumed(s, t), s.tasks[t].pc.entry);
      && Valid(r) && Runs(r, t, {Registry})
      && forall k :: Valid(Popped(r, k)) && Runs(Popped(r, k), t, {Registry})
  {
    ResumedKeeps(s, t);
    ClosedKeeps(Resumed(s, t), t, s.tasks[t].pc.entry, {Registry});
    var r := Closed(Resumed(s, t), s.tasks[t].pc.entry);
    forall k ensures Valid(Popped(r, k)) && Runs(Popped(r, k), t, {Registry}) { PoppedKeeps(r, t, k); }
  }

  /** Capacity eviction, `evict_idle` or `aclose_all` goes on after a close. */
  lemma EvictionContinuedKeeps(s: State, t: TaskId, env: Env)
    requires Valid(s) && t in s.tasks && s.tasks[t].pc.ClosingUnlocked()
    ensures Valid(Continued(s, t, env))
  {
    var pc := s.tasks[t].pc;
    assert PcOk(s, pc);
    EvictedKeeps(s, t);
    var r := Closed(Resumed(s, t), pc.entry);
    match pc
    case CapacityClosing(key, a, k, _) => InsertEntryKeeps(Popped(r, k), t, key, a, env);
    case SweepClosing(k, _, rest) => SweepOnKeeps(Popped(r, k), t, rest, env);
    case ShutdownClosing(_, rest) => ShutdownOnKeeps(r, t, rest, env);
  }

  lemma HolderCloseContinuedKeeps(s: State, t: TaskId, env: Env)
    requires Valid(s) && t in s.tasks && (s.tasks[t].pc.Rebinding? || s.tasks[t].pc.Breaking?)
    ensures Valid(HolderCloseContinued(s, t, env))
  {
    var pc := s.tasks[t].pc;
    assert PcOk(s, pc);
    ResumedKeeps(s, t);
    if pc.Rebinding? {
      ClosedKeeps(Resumed(s, t), t, pc.entry, {EntryLock(pc.entry)});
      PutKeeps(Closed(Resumed(s, t), pc.entry), t, Connecting(pc.entry, pc.key, pc.attempt));
    } else {
      InBreakKeeps(Resumed(s, t), t, pc.entry, pc.key, env);
    }
  }

  lemma ConnectContinuedKeeps(s: State, t: TaskId, env: Env)
    requires Valid(s) && t in s.tasks && s.tasks[t].pc.Connecting?
    ensures Valid(ConnectContinued(s, t, env))
  {
    var Connecting(e, key, a) := s.tasks[t].pc;
    assert PcOk(s, s.tasks[t].pc);
    ResumedKeeps(s, t);
    EntryUpdateKeeps(Resumed(s, t), e, Connected(Resumed(s, t), t, e).heap[e]);
    BeginRoundTripKeeps(Connected(Resumed(s, t), t, e), t, e, key, a, env);
  }

  lemma RoundTripContinuedKeeps(s: State, t: TaskId, env: Env)
    requires Valid(s) && t in s.tasks && s.tasks[t].pc.RoundTrip?
    ensures Valid(Continued(s, t, env))
  {
    var l := EntryLock(s.tasks[t].pc.entry);
    ResumedKeeps(s, t);
    DropKeeps(Resumed(s, t), t, l, {l});
    PutKeeps(Drop(Resumed(s, t), t, l), t, Done(Succeeded));
  }

  lemma ContinuedKeeps(s: State, t: TaskId, env: Env)
    requires Valid(s) && t in s.tasks
    ensures Valid(Continued(s, t, env))
  {
    var pc := s.tasks[t].pc;
    if pc.ClosingUnlocked() { EvictionContinuedKeeps(s, t, env); }
    else if pc.Closing() { HolderCloseContinuedKeeps(s, t, env); }
    else if pc.Connecting? { ConnectContinuedKeeps(s, t, env); }
    else if pc.RoundTrip? { RoundTripContinuedKeeps(s, t, env); }
  }

  lemma WaitRaisedKeeps(s: State, t: TaskId, err: Error, env: Env)
    requires Valid(s) && t in s.tasks && s.tasks[t].pc.Wanted().Some?
    ensures Valid(WaitRaised(s, t, err, env))
  {
    var pc := s.tasks[t].pc;
    var l := pc.Wanted().value;
    DequeueKeeps(s, t, l);
    var r := Dequeue(s, t, l);
    if pc.AwaitRegistry? && pc.purpose.Fetch? {
      AttemptRaisedKeeps(r, t, pc.purpose.key, pc.purpose.attempt, err, env);
    } else if pc.AwaitEntry? && pc.use.Call? {
      AttemptRaisedKeeps(r, t, pc.use.key, pc.use.attempt, err, env);
    } else {
      PutKeeps(r, t, Done(Failed(err)));
    }
  }

  lemma UseRaisedKeeps(s: State, t: TaskId, err: Error, env: Env)
    requires Valid(s) && t in s.tasks && (s.tasks[t].pc.Connecting? || s.tasks[t].pc.RoundTrip?)
    ensures Valid(UseRaised(s, t, err, env))
  {
    var pc := s.tasks[t].pc;
    ResumedKeeps(s, t);
    DropKeeps(Resumed(s, t), t, EntryLock(pc.entry), {EntryLock(pc.entry)});
    AttemptRaisedKeeps(Drop(Resumed(s, t), t, EntryLock(pc.entry)), t, pc.key, pc.attempt, err, env);
  }

  lemma CloseCancelledKeeps(s: State, t: TaskId, l: LockId)
    requires Valid(s) && t in s.tasks && KnownLock(s, l) && s.tasks[t].pc.Closing() && s.tasks[t].pc.Held() == {l}
    ensures Valid(CloseCancelled(s, t, l))
  {
    var e := s.tasks[t].pc.entry;
    ResumedKeeps(s, t);
    ClosedKeeps(Resumed(s, t), t, e, {l});
    DropKeeps(Torn(Resumed(s, t), e), t, l, {l});
    PutKeeps(Drop(Torn(Resumed(s, t), e), t, l), t, Done(Failed(Cancelled)));
  }

  lemma RaisedKeeps(s: State, t: TaskId, err: Error, env: Env)
    requires Valid(s) && t in s.tasks
    ensures Valid(Raised(s, t, err, env))
  {
    var pc := s.tasks[t].pc;
    if pc.Wanted().Some? { WaitRaisedKeeps(s, t, err, env); }
    else if pc.Connecting? || pc.RoundTrip? { UseRaisedKeeps(s, t, err, env); }
    else if pc.Closing() && err.Cancelled? {
      CloseCancelledKeeps(s, t, if pc.ClosingUnlocked() then Registry else EntryLock(pc.entry));
    } else { ContinuedKeeps(s, t, env); }
  }

  lemma StartedKeeps(s: State, t: TaskId, loop: LoopId, op: Operation, env: Env)
    requires Valid(s) && (t in s.tasks ==> s.tasks[t].pc.Done?)
    ensures Valid(Started(s, t, loop, op, env))
  {
    var s1: State := s.(tasks := s.tasks[t := Task(loop, Running({}))]);
    assert LocksOk(s1) by {
      forall m | KnownLock(s1, m) ensures LockOk(s1.tasks, m, LockOf(s1, m)) {
        assert KnownLock(s, m);
        UntouchedLock(s.tasks, t, s1.tasks[t], m, LockOf(s, m));
      }
    }
    forall u <- s1.tasks ensures PcOk(s1, s1.tasks[u].pc) { assert u != t ==> PcOk(s, s.tasks[u].pc); }
    match op
    case CallTool(key) => RequestRegistryKeeps(s1, t, Fetch(key, First), env);
    case EvictIdle(now, maxIdle) => RequestRegistryKeeps(s1, t, Sweep(now, maxIdle), env);
    case CloseAll => RequestRegistryKeeps(s1, t, Shutdown, env);
  }

  /** Every event keeps the invariant. */
  lemma ApplyKeeps(s: State, ev: Event)
    requires Valid(s)
    ensures Valid(Apply(s, ev))
  {
    if Enabled(s, ev) {
      match ev
      case Start(t, loop, op, env) => StartedKeeps(s, t, loop, op, env);
      case Wake(t, env) => WokenKeeps(s, t, env);
      case Proceed(t, env) => ContinuedKeeps(s, t, env);
      case Raise(t, err, env) => RaisedKeeps(s, t, err, env);
      case CloseLoop(l) =>
        var r := Apply(s, ev);
        assert LocksOk(r) by {
          forall m | KnownLock(r, m) ensures LockOk(r.tasks, m, LockOf(r, m)) { assert KnownLock(s, m); }
        }
        forall u <- r.tasks ensures PcOk(r, r.tasks[u].pc) { PcKept(s, r, s.tasks[u].pc); }
    }
  }

  /** Every reachable state is valid, for any number of tasks, any interleaving and any failures. */
  lemma {:induction false} ReachableIsValid(cap: int, events: seq<Event>)
    ensures Valid(After(cap, events))
  {
    if events != [] {
      ReachableIsValid(cap, events[..|events| - 1]);
      ApplyKeeps(After(cap, events[..|events| - 1]), events[|events| - 1]);
    }
  }
}

/**
 The remote connection pool as a step relation over any number of asyncio tasks.

 A task runs without interruption from one `await` that suspends to the next, so one event
 of this model is one such stretch of the source. `asyncio.Lock` is modelled with its queue:
 releasing leaves the lock unlocked, with its first waiter entitled to it but not yet running,
 and a newcomer queues behind any waiter.
 */
module PoolModel {
  import opened Common

  type TaskId = nat
  type LoopId = nat
  type EntryId = nat
  datatype Key = Key(endpoint: string, transport: string)

  /** `asyncio.Lock`: when it is unlocked and the queue is not empty, the first waiter has been woken. */
  datatype Lock = Lock(locked: bool, queue: seq<TaskId>)

  datatype LockId = Registry | EntryLock(e: EntryId)

  /** `_Entry` with its wrapper: `session` is the loop on which the wrapper is open, if it is: with a session, or
      without the SDK in HTTP mode, whose disconnect returns at once. */
  datatype Entry = Entry(key: Key, session: Option<LoopId>, lock: Lock, loop: Option<LoopId>, connected: bool, lastUsed: int)

  datatype Attempt = First | Second

  /** What an exception means to the pool: `_RECONNECTABLE`, task cancellation, or anything else. */
  datatype Error = Reconnectable | Cancelled | OtherError

  /** Why a task enters the registry lock. */
  datatype Purpose = Fetch(key: Key, attempt: Attempt) | Sweep(now: int, maxIdle: int) | Shutdown

  /** Why a task enters an entry's lock: a round trip (`acquire`) or `_mark_broken`. */
  datatype Use = Call(key: Key, attempt: Attempt) | Break(key: Key)

  datatype Outcome = Succeeded | Failed(err: Error)

  /** Where a task is suspended. `Running` is a task in the middle of a stretch, holding `held`. */
  datatype Pc =
    | Done(outcome: Outcome)
    | Running(held: set<LockId>)
    | AwaitRegistry(purpose: Purpose)
    | AwaitEntry(entry: EntryId, use: Use)
    | CapacityClosing(fetch: Key, attempt: Attempt, victim: Key, entry: EntryId)
    | SweepClosing(victim: Key, entry: EntryId, rest: map<Key, EntryId>)
    | ShutdownClosing(entry: EntryId, rest: map<Key, EntryId>)
    | Rebinding(entry: EntryId, key: Key, attempt: Attempt)
    | Connecting(entry: EntryId, key: Key, attempt: Attempt)
    | RoundTrip(entry: EntryId, key: Key, attempt: Attempt)
    | Breaking(entry: EntryId, key: Key)
  {
    /** The locks whose `async with` block the task is inside. */
    function Held(): set<LockId> {
      match this
      case Running(h) => h
      case CapacityClosing(_, _, _, _) => {Registry}
      case SweepClosing(_, _, _) => {Registry}
      case ShutdownClosing(_, _) => {Registry}
      case Rebinding(e, _, _) => {EntryLock(e)}
      case Connecting(e, _, _) => {EntryLock(e)}
      case RoundTrip(e, _, _) => {EntryLock(e)}
      case Breaking(e, _) => {EntryLock(e)}
      case _ => {}
    }

    /** The lock in whose queue the task waits. */
    function Wanted(): Option<LockId> {
      match this
      case AwaitRegistry(_) => Some(Registry)
      case AwaitEntry(e, _) => Some(EntryLock(e))
      case _ => None
    }

    /** The task awaits `wrapper.disconnect()`. */
    predicate Closing() {
      CapacityClosing? || SweepClosing? || ShutdownClosing? || Rebinding? || Breaking?
    }

    /** The entry that an eviction or the shutdown is closing without its lock. */
    predicate ClosingUnlocked() {
      CapacityClosing? || SweepClosing? || ShutdownClosing?
    }

    /** The entry for which the task waits, or inside whose lock it works, on a round trip of its own. */
    function CallsOn(): Option<EntryId> {
      match this
      case AwaitEntry(e, Call(_, _)) => Some(e)
      case Rebinding(e, _, _) => Some(e)
      case Connecting(e, _, _) => Some(e)
      case RoundTrip(e, _, _) => Some(e)
      case _ => None
    }

    /** The task is on its way to, or inside, `aclose_all`. */
    predicate ShuttingDown() {
      ShutdownClosing? || (AwaitRegistry? && purpose.Shutdown?)
    }

    predicate Refers(n: nat) {
      match this
      case Done(_) => true
      case Running(h) => LocksBelow(h, n)
      case AwaitRegistry(_) => true
      case SweepClosing(_, e, rest) => e < n && EntriesBelow(rest, n)
      case ShutdownClosing(e, rest) => e < n && EntriesBelow(rest, n)
      case _ => entry < n
    }
  }

  predicate EntriesBelow(m: map<Key, EntryId>, n: nat) {
    forall k <- m :: m[k] < n
  }

  predicate LocksBelow(locks: set<LockId>, n: nat) {
    forall l <- locks :: l.EntryLock? ==> l.e < n
  }

  datatype Task = Task(loop: LoopId, pc: Pc)

  datatype PoolState = PoolState(
    cap: int, tasks: map<TaskId, Task>, registry: Lock, heap: seq<Entry>, pool: map<Key, EntryId>, closedLoops: set<LoopId>)

  /** No dangling entry reference. `heap` keeps every entry ever built, pooled or not. */
  predicate Sound(s: PoolState) {
    && EntriesBelow(s.pool, |s.heap|)
    && (forall t <- s.tasks :: s.tasks[t].pc.Refers(|s.heap|))
  }

  type State = s: PoolState | Sound(s) witness PoolState(0, map[], Lock(false, []), [], map[], {})

  function Init(cap: int): State {
    PoolState(cap, map[], Lock(false, []), [], map[], {})
  }

  /** What the surroundings contribute to one stretch: a clock reading, and which entry an eviction
      takes first. Any choice is allowed, so the results do not depend on the eviction order. */
  datatype Env = Env(now: int, pick: Key)

  datatype Operation = CallTool(key: Key) | EvictIdle(now: int, maxIdle: int) | CloseAll

  datatype Event =
    | Start(task: TaskId, loop: LoopId, op: Operation, env: Env)
    | Wake(task: TaskId, env: Env)
    | Proceed(task: TaskId, env: Env)
    | Raise(task: TaskId, err: Error, env: Env)
    | CloseLoop(loop: LoopId)

  /******* Locks *******/

  predicate KnownLock(s: PoolState, l: LockId) {
    l.EntryLock? ==> l.e < |s.heap|
  }

  function LockOf(s: PoolState, l: LockId): Lock
    requires KnownLock(s, l)
  {
    match l case Registry => s.registry case EntryLock(e) => s.heap[e].lock
  }

  function SetLock(s: State, l: LockId, lock: Lock): State
    requires KnownLock(s, l)
  {
    match l
    case Registry => s.(registry := lock)
    case EntryLock(e) => s.(heap := s.heap[e := s.heap[e].(lock := lock)])
  }

  function Put(s: State, t: TaskId, pc: Pc): State
    requires t in s.tasks && pc.Refers(|s.heap|)
  {
    s.(tasks := s.tasks[t := s.tasks[t].(pc := pc)])
  }

  predicate Free(s: PoolState, l: LockId)
    requires KnownLock(s, l)
  {
    !LockOf(s, l).locked && LockOf(s, l).queue == []
  }

  /** Acquires `l` for the running task `t`. */
  function Take(s: State, t: TaskId, l: LockId): State
    requires KnownLock(s, l) && t in s.tasks && s.tasks[t].pc.Running?
  {
    Put(SetLock(s, l, LockOf(s, l).(locked := true)), t, Running({l} + s.tasks[t].pc.held))
  }

  /** Releases `l`: `locked()` is false from here on, even if a waiter has been woken. */
  function Drop(s: State, t: TaskId, l: LockId): State
    requires KnownLock(s, l) && t in s.tasks && s.tasks[t].pc.Running?
  {
    Put(SetLock(s, l, LockOf(s, l).(locked := false)), t, Running(s.tasks[t].pc.held - {l}))
  }

  function Enqueue(s: State, t: TaskId, l: LockId, pc: Pc): State
    requires KnownLock(s, l) && t in s.tasks && pc.Refers(|s.heap|)
  {
    Put(SetLock(s, l, LockOf(s, l).(queue := LockOf(s, l).queue + [t])), t, pc)
  }

  /** Takes `t` out of the queue of `l`: it has been woken, or its wait has been cancelled. */
  function Dequeue(s: State, t: TaskId, l: LockId): State
    requires KnownLock(s, l) && t in s.tasks
  {
    Put(SetLock(s, l, LockOf(s, l).(queue := Without(LockOf(s, l).queue, t))), t, Running({}))
  }

  /** The first waiter of an unlocked lock gets it. */
  function Admitted(s: State, t: TaskId, l: LockId): State
    requires KnownLock(s, l) && t in s.tasks
  {
    Take(Dequeue(s, t, l), t, l)
  }

  /******* Entries *******/

  /** `disconnect` has finished: the session is gone and the flag is cleared. */
  function Closed(s: State, e: EntryId): State
    requires e < |s.heap|
  {
    s.(heap := s.heap[e := s.heap[e].(session := None, connected := false)])
  }

  /** `disconnect` was cancelled: its `finally` drops the session, but the flag is left as it was. */
  function Torn(s: State, e: EntryId): State
    requires e < |s.heap|
  {
    s.(heap := s.heap[e := s.heap[e].(session := None)])
  }

  /** The entry an eviction takes next: the surroundings' choice if it is eligible, else any eligible one. */
  ghost function Choose(keys: set<Key>, pick: Key): (k: Key)
    requires keys != {}
    ensures k in keys
  {
    if pick in keys then pick else var k :| k in keys; k
  }

  predicate Locked(s: PoolState, e: EntryId)
    requires e < |s.heap|
  {
    s.heap[e].lock.locked
  }

  /** `_prune_closed_loops`: entries of a closed loop are dropped without a disconnect. */
  function Pruned(s: State): map<Key, EntryId> {
    map k | k in s.pool && !(s.heap[s.pool[k]].loop.Some? && s.heap[s.pool[k]].loop.value in s.closedLoops) :: s.pool[k]
  }

  /** The pooled entries that capacity eviction may take: those whose lock reports unlocked. */
  function Candidates(s: State): set<Key> {
    set k | k in s.pool && !Locked(s, s.pool[k])
  }

  /** The pooled entries `evict_idle` lists, once, before it closes the first of them. */
  function Stale(s: State, now: int, maxIdle: int): map<Key, EntryId> {
    map k | k in s.pool && now - s.heap[s.pool[k]].lastUsed > maxIdle && !Locked(s, s.pool[k]) :: s.pool[k]
  }

  /******* What a stretch can do *******/

  /** Connections are as before; entries built meanwhile are not connected. */
  ghost predicate SameSessions(s: PoolState, r: PoolState) {
    && |s.heap| <= |r.heap|
    && (forall e :: 0 <= e < |s.heap| ==> SameConnection(s.heap[e], r.heap[e]))
    && (forall e :: |s.heap| <= e < |r.heap| ==> r.heap[e].session.None? && !r.heap[e].connected)
  }

  predicate SameConnection(a: Entry, b: Entry) {
    a.session == b.session && a.connected == b.connected && a.loop == b.loop
  }

  /** A wrapper is yielded only with its flag set, and bound to the loop of the task. */
  predicate YieldsOwnLoop(r: State, t: TaskId)
    requires t in r.tasks
  {
    var pc := r.tasks[t].pc;
    pc.RoundTrip? ==> r.heap[pc.entry].connected && r.heap[pc.entry].loop == Some(r.tasks[t].loop)
  }

  predicate AllUnlocked(s: PoolState, m: map<Key, EntryId>) {
    forall k <- m :: m[k] < |s.heap| && !Locked(s, m[k])
  }

  /** No session is open behind a cleared flag. */
  ghost predicate EntriesOk(s: PoolState) {
    forall e :: 0 <= e < |s.heap| ==> OpenFlagged(s.heap[e])
  }

  predicate OpenFlagged(entry: Entry) {
    entry.session.Some? ==> entry.connected
  }

  /** An eviction suspends only with every entry it has yet to close unlocked. */
  predicate EvictsUnlocked(r: State, t: TaskId)
    requires t in r.tasks
  {
    match r.tasks[t].pc
    case CapacityClosing(_, _, _, e) => !Locked(r, e)
    case SweepClosing(_, e, rest) => !Locked(r, e) && AllUnlocked(r, rest)
    case _ => true
  }

  predicate AllLocked(s: State) {
    forall k <- s.pool :: Locked(s, s.pool[k])
  }

  /** The pool grows beyond its capacity only into a pool whose every entry is locked. */
  predicate GrowsOnlyLocked(s: State, r: State) {
    |r.pool| <= |s.pool| || |r.pool| <= s.cap || AllLocked(r)
  }

  /** Only task `t` moves. */
  ghost predicate OthersStay(s: PoolState, r: PoolState, t: TaskId) {
    && t in s.tasks && r.tasks.Keys == s.tasks.Keys && r.tasks[t].loop == s.tasks[t].loop
    && (forall u <- s.tasks :: u != t ==> r.tasks[u] == s.tasks[u])
    && r.cap == s.cap && r.closedLoops == s.closedLoops
  }

  /** Only task `t` moves, to a suspension point, and it changes no connection. */
  ghost predicate Stretch(s: State, r: State, t: TaskId) {
    OthersStay(s, r, t) && !r.tasks[t].pc.Running? && SameSessions(s, r) && YieldsOwnLoop(r, t)
  }

  /** Connections are as before, except that of `e`, which is now `entry`'s. */
  ghost predicate SessionsBut(s: PoolState, r: PoolState, e: EntryId, entry: Entry) {
    && e < |s.heap| <= |r.heap| && SameConnection(entry, r.heap[e])
    && (forall d :: 0 <= d < |s.heap| && d != e ==> SameConnection(s.heap[d], r.heap[d]))
    && (forall d :: |s.heap| <= d < |r.heap| ==> r.heap[d].session.None? && !r.heap[d].connected)
  }

  /** Like `Stretch`, but the connection of `e` has become `entry`'s. */
  ghost predicate StretchBut(s: State, r: State, t: TaskId, e: EntryId, entry: Entry) {
    OthersStay(s, r, t) && !r.tasks[t].pc.Running? && SessionsBut(s, r, e, entry) && YieldsOwnLoop(r, t)
  }

  /** Leaving a lock or its queue, and then a stretch that depends on the flags of one entry. */
  lemma AfterLeaving(s: State, left: State, r: State, t: TaskId, key: Key)
    requires OthersStay(s, left, t) && SameSessions(s, left) && |left.heap| == |s.heap| && left.pool == s.pool
    requires (key in left.pool ==> OpenFlagged(left.heap[left.pool[key]])) ==> Stretch(left, r, t)
    ensures EntriesOk(s) ==> Stretch(s, r, t)
  {
    if EntriesOk(s) {
      assert key in s.pool ==> SameConnection(s.heap[s.pool[key]], left.heap[s.pool[key]]);
      forall d | 0 <= d < |s.heap| ensures SameConnection(s.heap[d], r.heap[d]) {
        assert SameConnection(s.heap[d], left.heap[d]) && SameConnection(left.heap[d], r.heap[d]);
      }
    }
  }

  /** Entering the lock of an entry, and then a stretch that depends on its flags. */
  lemma ThenBreak(s: State, inside: State, r: State, t: TaskId, e: EntryId)
    requires OthersStay(s, inside, t) && SameSessions(s, inside) && |inside.heap| == |s.heap| && e < |s.heap|
    requires OpenFlagged(inside.heap[e]) ==> Stretch(inside, r, t)
    ensures OpenFlagged(s.heap[e]) ==> Stretch(s, r, t)
  {
    assert SameConnection(s.heap[e], inside.heap[e]);
    if OpenFlagged(s.heap[e]) {
      forall d | 0 <= d < |s.heap| ensures SameConnection(s.heap[d], r.heap[d]) {
        assert SameConnection(s.heap[d], inside.heap[d]) && SameConnection(inside.heap[d], r.heap[d]);
      }
    }
  }

  /** A close, and then a stretch. */
  lemma CloseThenStretch(s: State, closed: State, r: State, t: TaskId, e: EntryId, entry: Entry)
    requires OthersStay(s, closed, t) && SessionsBut(s, closed, e, entry) && |closed.heap| == |s.heap| && Stretch(closed, r, t)
    ensures StretchBut(s, r, t, e, entry)
  {
    assert SameConnection(closed.heap[e], r.heap[e]);
    forall d | 0 <= d < |s.heap| && d != e ensures SameConnection(s.heap[d], r.heap[d]) {
      assert SameConnection(closed.heap[d], r.heap[d]);
    }
  }

  /******* Stretches of `acquire` and `call_tool`, from the inside out *******/

  /** Inside the entry's lock, for a round trip. */
  function InCall(s: State, t: TaskId, e: EntryId, key: Key, a: Attempt, env: Env): (r: State)
    requires t in s.tasks && e < |s.heap|
    ensures Stretch(s, r, t)
    ensures r.tasks[t].pc.CallsOn() == Some(e) && !r.tasks[t].pc.AwaitEntry?
  {
    if s.heap[e].connected && s.heap[e].loop != Some(s.tasks[t].loop) then
      Put(s, t, Rebinding(e, key, a))
    else if !s.heap[e].connected then
      Put(s, t, Connecting(e, key, a))
    else
      BeginRoundTrip(s, t, e, key, a, env)
  }

  /** The wrapper is yielded to the caller. */
  function BeginRoundTrip(s: State, t: TaskId, e: EntryId, key: Key, a: Attempt, env: Env): State
    requires t in s.tasks && e < |s.heap|
  {
    Put(s.(heap := s.heap[e := s.heap[e].(lastUsed := env.now)]), t, RoundTrip(e, key, a))
  }

  /** `connect()` has returned. */
  function Connected(s: State, t: TaskId, e: EntryId): State
    requires t in s.tasks && e < |s.heap|
  {
    var loop := Some(s.tasks[t].loop);
    s.(heap := s.heap[e := s.heap[e].(session := loop, connected := true, loop := loop)])
  }

  function RequestCall(s: State, t: TaskId, e: EntryId, key: Key, a: Attempt, env: Env): (r: State)
    requires t in s.tasks && s.tasks[t].pc.Running? && e < |s.heap|
    ensures Stretch(s, r, t)
    ensures r.tasks[t].pc.CallsOn() == Some(e)
  {
    if Free(s, EntryLock(e)) then InCall(Take(s, t, EntryLock(e)), t, e, key, a, env)
    else Enqueue(s, t, EntryLock(e), AwaitEntry(e, Call(key, a)))
  }

  /** A new entry, filed under its key. */
  function Filed(s: State, key: Key, env: Env): (r: State)
    ensures SameSessions(s, r) && |r.heap| == |s.heap| + 1 && r.heap[..|s.heap|] == s.heap
    ensures Free(r, EntryLock(|s.heap|))
  {
    s.(heap := s.heap + [Entry(key, None, Lock(false, []), None, false, env.now)], pool := s.pool[key := |s.heap|])
  }

  /** `_get_entry` once there is room: build the entry, file it, leave the registry, lock the entry. */
  function InsertEntry(s: State, t: TaskId, key: Key, a: Attempt, env: Env): (r: State)
    requires t in s.tasks && s.tasks[t].pc.Running?
    ensures Stretch(s, r, t)
    ensures r.tasks[t].pc.CallsOn() == Some(|s.heap|) && r.pool == s.pool[key := |s.heap|] && Locked(r, |s.heap|)
    ensures forall e :: 0 <= e < |s.heap| ==> Locked(r, e) == Locked(s, e)
  {
    RequestCall(Drop(Filed(s, key, env), t, Registry), t, |s.heap|, key, a, env)
  }

  /** `_get_entry` inside the registry lock. */
  ghost function InFetch(s: State, t: TaskId, key: Key, a: Attempt, env: Env): (r: State)
    requires t in s.tasks && s.tasks[t].pc.Running?
    ensures Stretch(s, r, t)
    ensures EvictsUnlocked(r, t) && !r.tasks[t].pc.ShuttingDown()
    ensures GrowsOnlyLocked(s, r)
  {
    SubsetSize(Pruned(s).Keys, s.pool.Keys);
    InPruned(s.(pool := Pruned(s)), t, key, a, env)
  }

  ghost function InPruned(s: State, t: TaskId, key: Key, a: Attempt, env: Env): (r: State)
    requires t in s.tasks && s.tasks[t].pc.Running?
    ensures Stretch(s, r, t)
    ensures EvictsUnlocked(r, t) && !r.tasks[t].pc.ShuttingDown()
    ensures GrowsOnlyLocked(s, r)
  {
    if key in s.pool then
      RequestCall(Drop(s, t, Registry), t, s.pool[key], key, a, env)
    else if |s.pool| < s.cap || Candidates(s) == {} then
      InRoom(s, t, key, a, env)
    else
      InFull(s, t, key, a, env)
  }

  /** There is room for the new entry, or nothing to evict. */
  ghost function InRoom(s: State, t: TaskId, key: Key, a: Attempt, env: Env): (r: State)
    requires t in s.tasks && s.tasks[t].pc.Running? && key !in s.pool && (|s.pool| < s.cap || Candidates(s) == {})
    ensures Stretch(s, r, t) && r.tasks[t].pc.CallsOn().Some?
    ensures GrowsOnlyLocked(s, r)
  {
    var r := InsertEntry(s, t, key, a, env);
    NewEntryGrows(s, r, key);
    r
  }

  lemma NewEntryGrows(s: State, r: State, key: Key)
    requires key !in s.pool && (|s.pool| < s.cap || Candidates(s) == {})
    requires |s.heap| < |r.heap| && r.pool == s.pool[key := |s.heap|] && Locked(r, |s.heap|)
    requires forall e :: 0 <= e < |s.heap| ==> Locked(r, e) == Locked(s, e)
    ensures GrowsOnlyLocked(s, r)
  {
    assert r.pool.Keys == s.pool.Keys + {key};
    forall k <- s.pool ensures Locked(s, s.pool[k]) || k in Candidates(s) {}
  }

  /** `_evict_to_capacity` on a full pool with an unlocked entry. */
  ghost function InFull(s: State, t: TaskId, key: Key, a: Attempt, env: Env): (r: State)
    requires t in s.tasks && s.tasks[t].pc.Running? && Candidates(s) != {}
    ensures Stretch(s, r, t)
    ensures EvictsUnlocked(r, t) && !r.tasks[t].pc.ShuttingDown()
    ensures GrowsOnlyLocked(s, r)
  {
    var k := Choose(Candidates(s), env.pick);
    if s.heap[s.pool[k]].connected then Put(s, t, CapacityClosing(key, a, k, s.pool[k]))
    else InsertEntry(Popped(s, k), t, key, a, env)
  }

  function Popped(s: State, k: Key): State {
    s.(pool := s.pool - {k})
  }

  /** What is left of a listing. */
  function Others(listing: map<Key, EntryId>, k: Key): (rest: map<Key, EntryId>)
    requires k in listing
    ensures |rest| < |listing| && forall j <- rest :: j in listing && rest[j] == listing[j]
  {
    assert (listing - {k}).Keys == listing.Keys - {k};
    listing - {k}
  }

  /** The closing loop of `evict_idle`: an entry that is not connected needs no await. */
  ghost function SweepOn(s: State, t: TaskId, rest: map<Key, EntryId>, env: Env): (r: State)
    requires t in s.tasks && s.tasks[t].pc.Running?
    requires EntriesBelow(rest, |s.heap|)
    decreases |rest|
    ensures Stretch(s, r, t)
    ensures AllUnlocked(s, rest) ==> EvictsUnlocked(r, t)
    ensures !r.tasks[t].pc.ShuttingDown() && r.tasks[t].pc.CallsOn().None? && r.pool.Keys <= s.pool.Keys
  {
    if |rest| == 0 then Put(Drop(s, t, Registry), t, Done(Succeeded))
    else
      var k := Choose(rest.Keys, env.pick);
      if s.heap[rest[k]].connected then Put(s, t, SweepClosing(k, rest[k], Others(rest, k)))
      else SweepOn(Popped(s, k), t, Others(rest, k), env)
  }

  /** The closing loop of `aclose_all`, which looks at no lock and clears the pool at the end. */
  ghost function ShutdownOn(s: State, t: TaskId, rest: map<Key, EntryId>, env: Env): (r: State)
    requires t in s.tasks && s.tasks[t].pc.Running?
    requires EntriesBelow(rest, |s.heap|)
    decreases |rest|
    ensures Stretch(s, r, t)
    ensures EvictsUnlocked(r, t) && r.tasks[t].pc.CallsOn().None? && r.pool.Keys <= s.pool.Keys
  {
    if |rest| == 0 then Put(Drop(s.(pool := map[]), t, Registry), t, Done(Succeeded))
    else
      var k := Choose(rest.Keys, env.pick);
      if s.heap[rest[k]].connected then Put(s, t, ShutdownClosing(rest[k], rest - {k}))
      else ShutdownOn(s, t, rest - {k}, env)
  }

  ghost function InRegistry(s: State, t: TaskId, p: Purpose, env: Env): (r: State)
    requires t in s.tasks && s.tasks[t].pc.Running?
    ensures Stretch(s, r, t)
    ensures EvictsUnlocked(r, t) && (!p.Shutdown? ==> !r.tasks[t].pc.ShuttingDown())
    ensures GrowsOnlyLocked(s, r)
  {
    match p
    case Fetch(key, a) => InFetch(s, t, key, a, env)
    case Sweep(now, maxIdle) =>
      var swept := SweepOn(s, t, Stale(s, now, maxIdle), env);
      SubsetSize(swept.pool.Keys, s.pool.Keys);
      swept
    case Shutdown =>
      var shut := ShutdownOn(s, t, s.pool, env);
      SubsetSize(shut.pool.Keys, s.pool.Keys);
      shut
  }

  ghost function RequestRegistry(s: State, t: TaskId, p: Purpose, env: Env): (r: State)
    requires t in s.tasks && s.tasks[t].pc.Running?
    ensures Stretch(s, r, t)
    ensures EvictsUnlocked(r, t) && (!p.Shutdown? ==> !r.tasks[t].pc.ShuttingDown())
    ensures s.registry.locked ==> r.tasks[t].pc.AwaitRegistry? && r.pool == s.pool
    ensures GrowsOnlyLocked(s, r)
  {
    if Free(s, Registry) then InRegistry(Take(s, t, Registry), t, p, env)
    else Enqueue(s, t, Registry, AwaitRegistry(p))
  }

  /** `_mark_broken` inside the entry's lock, its close finished or unnecessary. */
  ghost function BreakDone(s: State, t: TaskId, e: EntryId, key: Key, env: Env): (r: State)
    requires t in s.tasks && s.tasks[t].pc.Running? && e < |s.heap|
    ensures Stretch(Closed(s, e), r, t)
    ensures EvictsUnlocked(r, t) && !r.tasks[t].pc.ShuttingDown()
    ensures s.registry.locked ==> r.tasks[t].pc.CallsOn().None? && r.pool == s.pool
    ensures GrowsOnlyLocked(s, r)
  {
    RequestRegistry(Drop(Closed(s, e), t, EntryLock(e)), t, Fetch(key, Second), env)
  }

  ghost function InBreak(s: State, t: TaskId, e: EntryId, key: Key, env: Env): (r: State)
    requires t in s.tasks && s.tasks[t].pc.Running? && e < |s.heap|
    ensures OpenFlagged(s.heap[e]) ==> Stretch(s, r, t)
    ensures t in r.tasks
    ensures EvictsUnlocked(r, t) && !r.tasks[t].pc.ShuttingDown()
    ensures s.registry.locked ==> r.tasks[t].pc.CallsOn().None? && r.pool == s.pool
    ensures GrowsOnlyLocked(s, r)
  {
    if s.heap[e].connected then Put(s, t, Breaking(e, key)) else BreakDone(s, t, e, key, env)
  }

  /** `_mark_broken` looks the entry up without the registry lock. */
  ghost function MarkBroken(s: State, t: TaskId, key: Key, env: Env): (r: State)
    requires t in s.tasks && s.tasks[t].pc.Running? && key in s.pool
    ensures OpenFlagged(s.heap[s.pool[key]]) ==> Stretch(s, r, t)
    ensures t in r.tasks
    ensures EvictsUnlocked(r, t) && !r.tasks[t].pc.ShuttingDown()
    ensures s.registry.locked ==> r.tasks[t].pc.CallsOn().None? && r.pool == s.pool
    ensures GrowsOnlyLocked(s, r)
  {
    var e := s.pool[key];
    if Free(s, EntryLock(e)) then
      var inside := Seized(s, t, e);
      var r := InBreak(inside, t, e, key, env);
      ThenBreak(s, inside, r, t, e);
      r
    else Enqueue(s, t, EntryLock(e), AwaitEntry(e, Break(key)))
  }

  /** `t` runs on inside the entry's lock, which was free. */
  function Seized(s: State, t: TaskId, e: EntryId): (r: State)
    requires t in s.tasks && s.tasks[t].pc.Running? && e < |s.heap|
    ensures OthersStay(s, r, t) && SameSessions(s, r) && |r.heap| == |s.heap| && r.pool == s.pool
    ensures r.registry == s.registry && r.tasks[t].pc.Running?
  {
    Take(s, t, EntryLock(e))
  }

  /** An attempt raised `err`, its locks released: reconnect once, or give up. */
  ghost function AttemptRaised(s: State, t: TaskId, key: Key, a: Attempt, err: Error, env: Env): (r: State)
    requires t in s.tasks && s.tasks[t].pc.Running?
    ensures (key in s.pool ==> OpenFlagged(s.heap[s.pool[key]])) ==> Stretch(s, r, t)
    ensures t in r.tasks
    ensures EvictsUnlocked(r, t) && !r.tasks[t].pc.ShuttingDown()
    ensures s.registry.locked ==> r.tasks[t].pc.CallsOn().None? && r.pool == s.pool
    ensures GrowsOnlyLocked(s, r)
  {
    if a.Second? || !err.Reconnectable? then Put(s, t, Done(Failed(err)))
    else if key !in s.pool then RequestRegistry(s, t, Fetch(key, Second), env)
    else MarkBroken(s, t, key, env)
  }

  /******* Events *******/

  predicate CanRun(s: State, t: TaskId) {
    t in s.tasks && s.tasks[t].loop !in s.closedLoops
  }

  function Resumed(s: State, t: TaskId): State
    requires t in s.tasks
  {
    Put(s, t, Running(s.tasks[t].pc.Held()))
  }

  /** A waiter that heads the queue of the unlocked registry lock resumes inside it. */
  ghost function WokenInRegistry(s: State, t: TaskId, env: Env): (r: State)
    requires t in s.tasks && s.tasks[t].pc.AwaitRegistry?
    ensures Stretch(s, r, t)
    ensures EvictsUnlocked(r, t) && (!s.tasks[t].pc.ShuttingDown() ==> !r.tasks[t].pc.ShuttingDown())
    ensures GrowsOnlyLocked(s, r)
  {
    InRegistry(Admitted(s, t, Registry), t, s.tasks[t].pc.purpose, env)
  }

  /** Likewise for an entry's lock, to make a round trip ... */
  function WokenInCall(s: State, t: TaskId, env: Env): (r: State)
    requires t in s.tasks && s.tasks[t].pc.AwaitEntry? && s.tasks[t].pc.use.Call?
    ensures Stretch(s, r, t)
    ensures r.tasks[t].pc.CallsOn() == s.tasks[t].pc.CallsOn() && r.pool == s.pool
  {
    var AwaitEntry(e, Call(key, a)) := s.tasks[t].pc;
    InCall(Admitted(s, t, EntryLock(e)), t, e, key, a, env)
  }

  /** `t` runs on inside the entry's lock it waited for. */
  function Entered(s: State, t: TaskId, e: EntryId): (r: State)
    requires t in s.tasks && e < |s.heap|
    ensures OthersStay(s, r, t) && SameSessions(s, r) && |r.heap| == |s.heap| && r.pool == s.pool
    ensures r.registry == s.registry && r.tasks[t].pc.Running?
  {
    Admitted(s, t, EntryLock(e))
  }

  /** ... and to mark the entry broken. */
  ghost function WokenInBreak(s: State, t: TaskId, env: Env): (r: State)
    requires t in s.tasks && s.tasks[t].pc.AwaitEntry? && s.tasks[t].pc.use.Break?
    ensures OpenFlagged(s.heap[s.tasks[t].pc.entry]) ==> Stretch(s, r, t)
    ensures t in r.tasks && EvictsUnlocked(r, t) && !r.tasks[t].pc.ShuttingDown()
    ensures s.registry.locked ==> r.tasks[t].pc.CallsOn().None? && r.pool == s.pool
    ensures GrowsOnlyLocked(s, r)
  {
    var AwaitEntry(e, Break(key)) := s.tasks[t].pc;
    var inside := Entered(s, t, e);
    var r := InBreak(inside, t, e, key, env);
    ThenBreak(s, inside, r, t, e);
    r
  }

  ghost function Woken(s: State, t: TaskId, env: Env): State
    requires t in s.tasks && s.tasks[t].pc.Wanted().Some?
  {
    var pc := s.tasks[t].pc;
    if pc.AwaitRegistry? then WokenInRegistry(s, t, env)
    else if pc.use.Call? then WokenInCall(s, t, env)
    else WokenInBreak(s, t, env)
  }

  /** The entry that `t` was closing, as the finished disconnect leaves it. */
  function ClosedBy(s: State, t: TaskId): Entry
    requires t in s.tasks && s.tasks[t].pc.Closing()
  {
    s.heap[s.tasks[t].pc.entry].(session := None, connected := false)
  }

  /** `t` runs on after its disconnect. */
  function CloseDone(s: State, t: TaskId): (r: State)
    requires t in s.tasks && s.tasks[t].pc.Closing()
    ensures OthersStay(s, r, t) && SessionsBut(s, r, s.tasks[t].pc.entry, ClosedBy(s, t)) && |r.heap| == |s.heap|
    ensures r.pool == s.pool && r.registry == s.registry && r.tasks[t].pc == Running(s.tasks[t].pc.Held())
    ensures forall e :: 0 <= e < |s.heap| ==> Locked(r, e) == Locked(s, e)
  {
    Closed(Resumed(s, t), s.tasks[t].pc.entry)
  }

  /** The disconnect of a capacity eviction is over: there is room for the new entry. */
  function CapacityContinued(s: State, t: TaskId, env: Env): (r: State)
    requires t in s.tasks && s.tasks[t].pc.CapacityClosing?
    ensures StretchBut(s, r, t, s.tasks[t].pc.entry, ClosedBy(s, t))
    ensures r.pool == (s.pool - {s.tasks[t].pc.victim})[s.tasks[t].pc.fetch := |s.heap|] && r.tasks[t].pc.CallsOn() == Some(|s.heap|)
  {
    var CapacityClosing(key, a, k, e) := s.tasks[t].pc;
    InsertEntry(Popped(CloseDone(s, t), k), t, key, a, env)
  }

  /** A disconnect of `evict_idle` is over: on to the next listed entry. */
  ghost function SweepContinued(s: State, t: TaskId, env: Env): (r: State)
    requires t in s.tasks && s.tasks[t].pc.SweepClosing?
    ensures StretchBut(s, r, t, s.tasks[t].pc.entry, ClosedBy(s, t))
    ensures EvictsUnlocked(s, t) ==> EvictsUnlocked(r, t)
    ensures !r.tasks[t].pc.ShuttingDown() && r.tasks[t].pc.CallsOn().None? && r.pool.Keys <= s.pool.Keys
  {
    var SweepClosing(k, e, rest) := s.tasks[t].pc;
    var closed := Popped(CloseDone(s, t), k);
    assert EvictsUnlocked(s, t) ==> AllUnlocked(closed, rest);
    var r := SweepOn(closed, t, rest, env);
    CloseThenStretch(s, closed, r, t, e, ClosedBy(s, t));
    r
  }

  /** A disconnect of `aclose_all` is over. */
  ghost function ShutdownContinued(s: State, t: TaskId, env: Env): (r: State)
    requires t in s.tasks && s.tasks[t].pc.ShutdownClosing?
    ensures StretchBut(s, r, t, s.tasks[t].pc.entry, ClosedBy(s, t))
    ensures EvictsUnlocked(r, t) && r.tasks[t].pc.CallsOn().None? && r.pool.Keys <= s.pool.Keys
  {
    var closed := CloseDone(s, t);
    var r := ShutdownOn(closed, t, s.tasks[t].pc.rest, env);
    CloseThenStretch(s, closed, r, t, s.tasks[t].pc.entry, ClosedBy(s, t));
    r
  }

  /** The disconnect of a lock holder is over. */
  ghost function HolderCloseContinued(s: State, t: TaskId, env: Env): (r: State)
    requires t in s.tasks && (s.tasks[t].pc.Rebinding? || s.tasks[t].pc.Breaking?)
    ensures StretchBut(s, r, t, s.tasks[t].pc.entry, ClosedBy(s, t))
    ensures EvictsUnlocked(r, t) && !r.tasks[t].pc.ShuttingDown()
    ensures s.registry.locked ==> r.pool == s.pool
    ensures s.registry.locked ==> r.tasks[t].pc.CallsOn() == s.tasks[t].pc.CallsOn() || r.tasks[t].pc.CallsOn().None?
    ensures GrowsOnlyLocked(s, r)
  {
    match s.tasks[t].pc
    case Rebinding(e, key, a) => Put(CloseDone(s, t), t, Connecting(e, key, a))
    case Breaking(e, key) => BreakContinued(s, t, env)
  }

  ghost function BreakContinued(s: State, t: TaskId, env: Env): (r: State)
    requires t in s.tasks && s.tasks[t].pc.Breaking?
    ensures StretchBut(s, r, t, s.tasks[t].pc.entry, ClosedBy(s, t))
    ensures EvictsUnlocked(r, t) && !r.tasks[t].pc.ShuttingDown()
    ensures s.registry.locked ==> r.pool == s.pool && r.tasks[t].pc.CallsOn().None?
    ensures GrowsOnlyLocked(s, r)
  {
    var Breaking(e, key) := s.tasks[t].pc;
    var r := BreakDone(Resumed(s, t), t, e, key, env);
    CloseThenStretch(s, CloseDone(s, t), r, t, e, ClosedBy(s, t));
    r
  }

  /** `connect` has returned: the round trip begins. */
  function ConnectContinued(s: State, t: TaskId, env: Env): (r: State)
    requires t in s.tasks && s.tasks[t].pc.Connecting?
    ensures StretchBut(s, r, t, s.tasks[t].pc.entry, Connected(s, t, s.tasks[t].pc.entry).heap[s.tasks[t].pc.entry])
    ensures r.tasks[t].pc.CallsOn() == s.tasks[t].pc.CallsOn() && r.tasks[t].pc.RoundTrip? && r.pool == s.pool
  {
    var Connecting(e, key, a) := s.tasks[t].pc;
    BeginRoundTrip(Connected(Resumed(s, t), t, e), t, e, key, a, env)
  }

  /** The awaited operation of `t` returns (for a disconnect: also when it raises an `Exception`). */
  ghost function Continued(s: State, t: TaskId, env: Env): State
    requires t in s.tasks
  {
    var pc := s.tasks[t].pc;
    if pc.CapacityClosing? then CapacityContinued(s, t, env)
    else if pc.SweepClosing? then SweepContinued(s, t, env)
    else if pc.ShutdownClosing? then ShutdownContinued(s, t, env)
    else if pc.Closing() then HolderCloseContinued(s, t, env)
    else if pc.Connecting? then ConnectContinued(s, t, env)
    else if pc.RoundTrip? then Put(Left(s, t), t, Done(Succeeded))
    else s
  }

  /** `t` runs on, no longer waiting for the lock. */
  function Unqueued(s: State, t: TaskId, l: LockId): (r: State)
    requires t in s.tasks && KnownLock(s, l)
    ensures OthersStay(s, r, t) && SameSessions(s, r) && |r.heap| == |s.heap| && r.pool == s.pool
    ensures r.registry.locked == s.registry.locked && r.tasks[t].pc == Running({})
  {
    Dequeue(s, t, l)
  }

  /** The wait of a call is cancelled, or the lock refuses the task's loop. */
  ghost function CallWaitRaised(s: State, t: TaskId, l: LockId, key: Key, a: Attempt, err: Error, env: Env): (r: State)
    requires t in s.tasks && s.tasks[t].pc.Wanted() == Some(l) && KnownLock(s, l)
    ensures EntriesOk(s) ==> Stretch(s, r, t)
    ensures t in r.tasks && EvictsUnlocked(r, t) && !r.tasks[t].pc.ShuttingDown()
    ensures s.registry.locked ==> r.tasks[t].pc.CallsOn().None? && r.pool == s.pool
    ensures GrowsOnlyLocked(s, r)
  {
    var left := Unqueued(s, t, l);
    var r := AttemptRaised(left, t, key, a, err, env);
    AfterLeaving(s, left, r, t, key);
    r
  }

  /** The wait for a lock is cancelled, or the lock refuses the task's loop. */
  ghost function WaitRaised(s: State, t: TaskId, err: Error, env: Env): (r: State)
    requires t in s.tasks && s.tasks[t].pc.Wanted().Some?
    ensures EntriesOk(s) ==> Stretch(s, r, t)
    ensures t in r.tasks && EvictsUnlocked(r, t) && !r.tasks[t].pc.ShuttingDown()
    ensures s.registry.locked ==> r.tasks[t].pc.CallsOn().None? && r.pool == s.pool
    ensures GrowsOnlyLocked(s, r)
  {
    var pc := s.tasks[t].pc;
    var l := pc.Wanted().value;
    if pc.AwaitRegistry? && pc.purpose.Fetch? then CallWaitRaised(s, t, l, pc.purpose.key, pc.purpose.attempt, err, env)
    else if pc.AwaitEntry? && pc.use.Call? then CallWaitRaised(s, t, l, pc.use.key, pc.use.attempt, err, env)
    else Put(Dequeue(s, t, l), t, Done(Failed(err)))
  }

  /** `t` runs on, outside the entry's lock it held. */
  function Left(s: State, t: TaskId): (r: State)
    requires t in s.tasks && (s.tasks[t].pc.Connecting? || s.tasks[t].pc.RoundTrip?)
    ensures OthersStay(s, r, t) && SameSessions(s, r) && |r.heap| == |s.heap| && r.pool == s.pool && r.registry == s.registry
    ensures r.tasks[t].pc == Running({})
  {
    Drop(Resumed(s, t), t, EntryLock(s.tasks[t].pc.entry))
  }

  /** `connect` or the round trip raises inside the entry's lock. */
  ghost function UseRaised(s: State, t: TaskId, err: Error, env: Env): (r: State)
    requires t in s.tasks && (s.tasks[t].pc.Connecting? || s.tasks[t].pc.RoundTrip?)
    ensures EntriesOk(s) ==> Stretch(s, r, t)
    ensures t in r.tasks && EvictsUnlocked(r, t) && !r.tasks[t].pc.ShuttingDown()
    ensures s.registry.locked ==> r.tasks[t].pc.CallsOn().None? && r.pool == s.pool
    ensures GrowsOnlyLocked(s, r)
  {
    var pc := s.tasks[t].pc;
    var left := Left(s, t);
    var r := AttemptRaised(left, t, pc.key, pc.attempt, err, env);
    AfterLeaving(s, left, r, t, pc.key);
    r
  }

  /** A cancellation escapes `_hard_close` and the task. */
  function CloseCancelled(s: State, t: TaskId, l: LockId): (r: State)
    requires t in s.tasks && s.tasks[t].pc.Closing() && KnownLock(s, l)
    ensures StretchBut(s, r, t, s.tasks[t].pc.entry, Torn(s, s.tasks[t].pc.entry).heap[s.tasks[t].pc.entry])
    ensures r.tasks[t].pc.Done? && r.pool == s.pool
  {
    var torn := CloseTorn(s, t);
    var r := Put(Drop(torn, t, l), t, Done(Failed(Cancelled)));
    CloseThenStretch(s, torn, r, t, s.tasks[t].pc.entry, Torn(s, s.tasks[t].pc.entry).heap[s.tasks[t].pc.entry]);
    r
  }

  /** `t` runs on out of an interrupted disconnect. */
  function CloseTorn(s: State, t: TaskId): (r: State)
    requires t in s.tasks && s.tasks[t].pc.Closing()
    ensures OthersStay(s, r, t) && SessionsBut(s, r, s.tasks[t].pc.entry, Torn(s, s.tasks[t].pc.entry).heap[s.tasks[t].pc.entry])
    ensures |r.heap| == |s.heap| && r.pool == s.pool && r.registry == s.registry && r.tasks[t].pc == Running(s.tasks[t].pc.Held())
  {
    Torn(Resumed(s, t), s.tasks[t].pc.entry)
  }

  /** The awaited operation of `t` raises, or `t` is cancelled there; the `async with` blocks unwind.
      `_hard_close` swallows an `Exception`, so a disconnect that raises one has simply finished. */
  ghost function Raised(s: State, t: TaskId, err: Error, env: Env): State
    requires t in s.tasks
  {
    var pc := s.tasks[t].pc;
    if pc.Wanted().Some? then WaitRaised(s, t, err, env)
    else if pc.Connecting? || pc.RoundTrip? then UseRaised(s, t, err, env)
    else if pc.Closing() && err.Cancelled? then
      CloseCancelled(s, t, if pc.ClosingUnlocked() then Registry else EntryLock(pc.entry))
    else Continued(s, t, env)
  }

  ghost function Started(s: State, t: TaskId, loop: LoopId, op: Operation, env: Env): (r: State)
    ensures Stretch(s.(tasks := s.tasks[t := Task(loop, Running({}))]), r, t)
    ensures EvictsUnlocked(r, t) && (!op.CloseAll? ==> !r.tasks[t].pc.ShuttingDown())
    ensures s.registry.locked ==> r.tasks[t].pc.CallsOn().None? && r.pool == s.pool
    ensures GrowsOnlyLocked(s, r)
  {
    var s1: State := s.(tasks := s.tasks[t := Task(loop, Running({}))]);
    match op
    case CallTool(key) => RequestRegistry(s1, t, Fetch(key, First), env)
    case EvictIdle(now, maxIdle) => RequestRegistry(s1, t, Sweep(now, maxIdle), env)
    case CloseAll => RequestRegistry(s1, t, Shutdown, env)
  }

  /** The event can happen in `s`. A task of a closed loop never runs again. */
  predicate Enabled(s: State, ev: Event) {
    match ev
    case Start(t, loop, _, _) => (t in s.tasks ==> s.tasks[t].pc.Done?) && loop !in s.closedLoops
    case Wake(t, _) =>
      && CanRun(s, t) && s.tasks[t].pc.Wanted().Some?
      && var lock := LockOf(s, s.tasks[t].pc.Wanted().value); !lock.locked && lock.queue != [] && lock.queue[0] == t
    case Proceed(t, _) => CanRun(s, t)
    case Raise(t, _, _) => CanRun(s, t)
    case CloseLoop(_) => true
  }

  /** One event; an event that cannot happen changes nothing, so every sequence of events is a run. */
  ghost function Apply(s: State, ev: Event): State {
    if !Enabled(s, ev) then s else
    match ev
    case Start(t, loop, op, env) => Started(s, t, loop, op, env)
    case Wake(t, env) => Woken(s, t, env)
    case Proceed(t, env) => Continued(s, t, env)
    case Raise(t, err, env) => Raised(s, t, err, env)
    case CloseLoop(l) => s.(closedLoops := s.closedLoops + {l})
  }

  /** The state after a run of `events` from an empty pool of capacity `cap`. */
  ghost function After(cap: int, events: seq<Event>): State {
    if events == [] then Init(cap) else Apply(After(cap, events[..|events| - 1]), events[|events| - 1])
  }
}

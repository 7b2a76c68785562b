/**
 When an eviction and a call meet on one connection: exactly when a call is queued for the entry and nobody at or
 before it in the queue is stuck on a closed loop.
 */
module PoolEviction {
  import opened Common
  import opened PoolModel
  import opened PoolSafety
  import opened PoolLimits

  /******* Queues while somebody is inside the registry lock *******/

  /** The queues of the entries change by what `t` does to its own place in them. */
  ghost predicate QueuesKeep(s: PoolState, r: PoolState, t: TaskId) {
    && |s.heap| <= |r.heap|
    && forall e :: 0 <= e < |s.heap| ==> Without(r.heap[e].lock.queue, t) == Without(s.heap[e].lock.queue, t)
  }

  lemma EnqueuedQueues(s: State, t: TaskId, e: EntryId, pc: Pc)
    requires t in s.tasks && e < |s.heap| && pc.Refers(|s.heap|)
    ensures QueuesKeep(s, Enqueue(s, t, EntryLock(e), pc), t)
  {
    var q := s.heap[e].lock.queue;
    WithoutConcat(q, [t], t);
    assert Without([t], t) == [];
  }

  lemma DequeuedQueues(s: State, t: TaskId, e: EntryId)
    requires t in s.tasks && e < |s.heap|
    ensures QueuesKeep(s, Dequeue(s, t, EntryLock(e)), t)
  {
    WithoutTwice(s.heap[e].lock.queue, t);
  }

  lemma RequestQueues(s: State, t: TaskId, p: Purpose, env: Env)
    requires t in s.tasks && s.tasks[t].pc.Running? && s.registry.locked
    ensures RequestRegistry(s, t, p, env).heap == s.heap
  {}

  lemma BreakQueues(s: State, t: TaskId, e: EntryId, key: Key, env: Env)
    requires t in s.tasks && s.tasks[t].pc.Running? && e < |s.heap| && s.registry.locked
    ensures QueuesKeep(s, InBreak(s, t, e, key, env), t)
  {
    if !s.heap[e].connected {
      var dropped := Drop(Closed(s, e), t, EntryLock(e));
      RequestQueues(dropped, t, Fetch(key, Second), env);
    }
  }

  lemma MarkBrokenQueues(s: State, t: TaskId, key: Key, env: Env)
    requires t in s.tasks && s.tasks[t].pc.Running? && key in s.pool && s.registry.locked
    ensures QueuesKeep(s, MarkBroken(s, t, key, env), t)
  {
    var e := s.pool[key];
    if Free(s, EntryLock(e)) {
      BreakQueues(Seized(s, t, e), t, e, key, env);
    } else {
      EnqueuedQueues(s, t, e, AwaitEntry(e, Break(key)));
    }
  }

  lemma AttemptRaisedQueues(s: State, t: TaskId, key: Key, a: Attempt, err: Error, env: Env)
    requires t in s.tasks && s.tasks[t].pc.Running? && s.registry.locked
    ensures QueuesKeep(s, AttemptRaised(s, t, key, a, err, env), t)
  {
    if a.Second? || !err.Reconnectable? {
    } else if key !in s.pool {
      RequestQueues(s, t, Fetch(key, Second), env);
    } else {
      MarkBrokenQueues(s, t, key, env);
    }
  }

  lemma WaitRaisedQueues(s: State, t: TaskId, err: Error, env: Env)
    requires t in s.tasks && s.tasks[t].pc.Wanted().Some? && s.registry.locked
    ensures QueuesKeep(s, WaitRaised(s, t, err, env), t)
  {
    var pc := s.tasks[t].pc;
    var l := pc.Wanted().value;
    var left := Unqueued(s, t, l);
    if l.EntryLock? { DequeuedQueues(s, t, l.e); }
    assert QueuesKeep(s, left, t);
    if pc.AwaitRegistry? && pc.purpose.Fetch? {
      AttemptRaisedQueues(left, t, pc.purpose.key, pc.purpose.attempt, err, env);
    } else if pc.AwaitEntry? && pc.use.Call? {
      AttemptRaisedQueues(left, t, pc.use.key, pc.use.attempt, err, env);
    }
  }

  lemma UseRaisedQueues(s: State, t: TaskId, err: Error, env: Env)
    requires t in s.tasks && (s.tasks[t].pc.Connecting? || s.tasks[t].pc.RoundTrip?) && s.registry.locked
    ensures QueuesKeep(s, UseRaised(s, t, err, env), t)
  {
    AttemptRaisedQueues(Left(s, t), t, s.tasks[t].pc.key, s.tasks[t].pc.attempt, err, env);
  }

  lemma WokenQueues(s: State, t: TaskId, env: Env)
    requires t in s.tasks && s.tasks[t].pc.AwaitEntry? && s.registry.locked
    ensures QueuesKeep(s, Woken(s, t, env), t)
  {
    var e := s.tasks[t].pc.entry;
    DequeuedQueues(s, t, e);
    var inside := Entered(s, t, e);
    assert QueuesKeep(s, inside, t);
    if s.tasks[t].pc.use.Break? { BreakQueues(inside, t, e, s.tasks[t].pc.use.key, env); }
  }

  lemma {:induction false} SweepQueues(s: State, t: TaskId, rest: map<Key, EntryId>, env: Env)
    requires t in s.tasks && s.tasks[t].pc.Running? && EntriesBelow(rest, |s.heap|)
    ensures SweepOn(s, t, rest, env).heap == s.heap
    decreases |rest|
  {
    if |rest| > 0 {
      var k := Choose(rest.Keys, env.pick);
      if !s.heap[rest[k]].connected { SweepQueues(Popped(s, k), t, Others(rest, k), env); }
    }
  }

  lemma {:induction false} ShutdownQueues(s: State, t: TaskId, rest: map<Key, EntryId>, env: Env)
    requires t in s.tasks && s.tasks[t].pc.Running? && EntriesBelow(rest, |s.heap|)
    ensures ShutdownOn(s, t, rest, env).heap == s.heap
    decreases |rest|
  {
    if |rest| > 0 {
      var k := Choose(rest.Keys, env.pick);
      if !s.heap[rest[k]].connected { ShutdownQueues(s, t, rest - {k}, env); }
    }
  }

  lemma ContinuedQueues(s: State, t: TaskId, env: Env)
    requires t in s.tasks && s.registry.locked && !s.tasks[t].pc.CapacityClosing?
    ensures QueuesKeep(s, Continued(s, t, env), t)
  {
    match s.tasks[t].pc
    case SweepClosing(k, e, rest) => SweepQueues(Popped(CloseDone(s, t), k), t, rest, env);
    case ShutdownClosing(e, rest) => ShutdownQueues(CloseDone(s, t), t, rest, env);
    case Breaking(e, key) => RequestQueues(Drop(CloseDone(s, t), t, EntryLock(e)), t, Fetch(key, Second), env);
    case _ =>
  }

  lemma RaisedQueues(s: State, t: TaskId, err: Error, env: Env)
    requires t in s.tasks && s.registry.locked && (s.tasks[t].pc.CapacityClosing? ==> err.Cancelled?)
    ensures QueuesKeep(s, Raised(s, t, err, env), t)
  {
    var pc := s.tasks[t].pc;
    if pc.Wanted().Some? { WaitRaisedQueues(s, t, err, env); }
    else if pc.Connecting? || pc.RoundTrip? { UseRaisedQueues(s, t, err, env); }
    else if !(pc.Closing() && err.Cancelled?) { ContinuedQueues(s, t, env); }
  }

  /** The event lets a capacity eviction run on, to the end of its stay in the registry lock. */
  predicate EvictorRunsOn(s: State, ev: Event) {
    && (ev.Proceed? || (ev.Raise? && !ev.err.Cancelled?))
    && ev.task in s.tasks && s.tasks[ev.task].pc.CapacityClosing?
  }

  lemma MoverKeepsQueues(s: State, ev: Event)
    requires s.registry.locked && Enabled(s, ev) && !ev.CloseLoop? && !EvictorRunsOn(s, ev)
    ensures QueuesKeep(s, Apply(s, ev), ev.task)
  {
    match ev
    case Start(t, loop, op, env) =>
    case Wake(t, env) => WokenQueues(s, t, env);
    case Proceed(t, env) => ContinuedQueues(s, t, env);
    case Raise(t, err, env) => RaisedQueues(s, t, err, env);
  }

  lemma EvictorLeaves(s: State, t: TaskId, env: Env)
    requires t in s.tasks && s.tasks[t].pc.CapacityClosing?
    ensures !Inside(CapacityContinued(s, t, env).tasks, t, Registry)
  {
    assert CapacityContinued(s, t, env).tasks[t].pc.CallsOn().Some?;
  }

  lemma EvictorIsOut(s: State, ev: Event)
    requires Enabled(s, ev) && EvictorRunsOn(s, ev)
    ensures !Inside(Apply(s, ev).tasks, ev.task, Registry)
  {
    EvictorLeaves(s, ev.task, ev.env);
    if ev.Raise? { EvictorRaises(s, ev.task, ev.err, ev.env); } else { EvictorContinues(s, ev.task, ev.env); }
  }

  lemma EvictorContinues(s: State, t: TaskId, env: Env)
    requires t in s.tasks && s.tasks[t].pc.CapacityClosing?
    ensures Continued(s, t, env) == CapacityContinued(s, t, env)
  {}

  lemma EvictorRaises(s: State, t: TaskId, err: Error, env: Env)
    requires t in s.tasks && s.tasks[t].pc.CapacityClosing? && !err.Cancelled?
    ensures Raised(s, t, err, env) == CapacityContinued(s, t, env)
  {
    assert s.tasks[t].pc.Wanted().None? && s.tasks[t].pc.Closing();
    EvictorContinues(s, t, env);
  }

  /** While `v` stays inside the registry lock, an event changes only the place of its own task in the queues. */
  lemma EventKeepsQueues(s: State, ev: Event, v: TaskId)
    requires Valid(s) && Enabled(s, ev) && !ev.CloseLoop? && Inside(s.tasks, v, Registry) && Inside(Apply(s, ev).tasks, v, Registry)
    ensures QueuesKeep(s, Apply(s, ev), ev.task)
  {
    assert KnownLock(s, Registry) && s.registry.locked;
    if EvictorRunsOn(s, ev) {
      assert Inside(s.tasks, ev.task, Registry);
      EvictorIsOut(s, ev);
    } else {
      MoverKeepsQueues(s, ev);
    }
  }

  /******* Who is stuck stays stuck *******/

  /** `u` is queued for `e`, at or behind a task whose loop is closed. */
  ghost predicate HeldUp(s: State, e: EntryId, u: TaskId, i: nat, j: nat) {
    && e < |s.heap| && i <= j < |s.heap[e].lock.queue| && s.heap[e].lock.queue[j] == u
    && !CanRun(s, s.heap[e].lock.queue[i])
  }

  /** `u` makes no call on `e`, or cannot get at it. */
  ghost predicate Stuck(s: State, e: EntryId, u: TaskId) {
    !Calls(s, u, e) || exists i: nat, j: nat :: HeldUp(s, e, u, i, j)
  }

  lemma QueuedWaits(s: State, e: EntryId, i: nat)
    requires Valid(s) && e < |s.heap| && i < |s.heap[e].lock.queue|
    ensures var w := s.heap[e].lock.queue[i]; w in s.tasks && s.tasks[w].pc.AwaitEntry? && s.tasks[w].pc.entry == e
  {
    assert KnownLock(s, EntryLock(e)) && LockOk(s.tasks, EntryLock(e), LockOf(s, EntryLock(e)));
    assert s.heap[e].lock.queue[i] in s.heap[e].lock.queue;
    assert Waits(s.tasks, s.heap[e].lock.queue[i], EntryLock(e));
  }

  /** The order in a queue outlives the move of a third task. */
  lemma HeldUpStays(s: State, r: State, t: TaskId, e: EntryId, u: TaskId, i: nat, j: nat)
    requires Valid(s) && HeldUp(s, e, u, i, j) && QueuesKeep(s, r, t) && r.closedLoops == s.closedLoops
    requires t != u && t != s.heap[e].lock.queue[i] && s.heap[e].lock.queue[i] in r.tasks
    requires var w := s.heap[e].lock.queue[i]; w in s.tasks && r.tasks[w] == s.tasks[w]
    ensures exists i: nat, j: nat :: HeldUp(r, e, u, i, j)
  {
    var m, n := WithoutKeepsOrder(s.heap[e].lock.queue, t, i, j);
    var i', j' := WithoutOrigin(r.heap[e].lock.queue, t, m, n);
    assert HeldUp(r, e, u, i', j');
  }

  /** The event of the stuck task itself: only a cancellation, which takes it out of the queue for good. */
  lemma StuckMover(s: State, ev: Event, u: TaskId, e: EntryId, i: nat, j: nat)
    requires Valid(s) && s.registry.locked && HeldUp(s, e, u, i, j) && Enabled(s, ev) && !ev.CloseLoop? && ev.task == u
    ensures Apply(s, ev) == s || !Calls(Apply(s, ev), u, e)
  {
    QueuedWaits(s, e, j);
    assert KnownLock(s, EntryLock(e)) && Distinct(s.heap[e].lock.queue);
    assert i == j ==> !CanRun(s, u);
    var head := s.heap[e].lock.queue[0];
    assert ev.Wake? ==> head == u && j == 0;
  }

  lemma StuckStays(s: State, ev: Event, v: TaskId, u: TaskId, e: EntryId)
    requires Valid(s) && Inside(s.tasks, v, Registry) && Inside(Apply(s, ev).tasks, v, Registry) && Stuck(s, e, u)
    ensures Stuck(Apply(s, ev), e, u)
  {
    var r := Apply(s, ev);
    assert KnownLock(s, Registry) && s.registry.locked;
    if Calls(r, u, e) && r != s {
      RegistryFreezesCallers(s, ev, v, u, e);
      var i: nat, j: nat :| HeldUp(s, e, u, i, j);
      var w := s.heap[e].lock.queue[i];
      QueuedWaits(s, e, i);
      if ev.CloseLoop? {
        assert HeldUp(r, e, u, i, j);
      } else if ev.task == u {
        StuckMover(s, ev, u, e, i, j);
      } else {
        EventKeepsQueues(s, ev, v);
        ApplyMovesOne(s, ev);
        HeldUpStays(s, r, ev.task, e, u, i, j);
      }
    }
  }

  lemma ApplyMovesOne(s: State, ev: Event)
    requires Valid(s) && Enabled(s, ev) && !ev.CloseLoop?
    ensures Apply(s, ev).closedLoops == s.closedLoops
    ensures forall w <- s.tasks :: w != ev.task ==> w in Apply(s, ev).tasks && Apply(s, ev).tasks[w] == s.tasks[w]
  {
    match ev
    case Start(_, _, _, _) =>
    case Wake(_, _) =>
    case Proceed(t, env) => ContinuationMovesOne(s, t, env);
    case Raise(t, err, env) =>
      if s.tasks[t].pc.Closing() && !err.Cancelled? { ContinuationMovesOne(s, t, env); }
  }

  lemma ContinuationMovesOne(s: State, t: TaskId, env: Env)
    requires t in s.tasks
    ensures OthersStay(s, Continued(s, t, env), t)
  {}

  /** The state after some more events. */
  ghost function Run(s: State, more: seq<Event>): State
    decreases |more|
  {
    if more == [] then s else Run(Apply(s, more[0]), more[1..])
  }

  /** `v` is inside the registry lock all the while. */
  ghost predicate Stays(s: State, more: seq<Event>, v: TaskId)
    decreases |more|
  {
    Inside(s.tasks, v, Registry) && (more != [] ==> Stays(Apply(s, more[0]), more[1..], v))
  }

  lemma {:induction false} StuckThroughout(s: State, more: seq<Event>, v: TaskId, u: TaskId, e: EntryId)
    requires Valid(s) && Stays(s, more, v) && Stuck(s, e, u)
    ensures Stuck(Run(s, more), e, u) && Valid(Run(s, more))
    decreases |more|
  {
    if more != [] {
      ApplyKeeps(s, more[0]);
      assert Stays(Apply(s, more[0]), more[1..], v);
      StuckStays(s, more[0], v, u, e);
      StuckThroughout(Apply(s, more[0]), more[1..], v, u, e);
    }
  }

  /******* The way to a round trip *******/

  predicate InRoundTrip(s: State, u: TaskId, e: EntryId) {
    u in s.tasks && s.tasks[u].pc.RoundTrip? && s.tasks[u].pc.entry == e
  }

  /** The waiter at place `i` is a call, and it and all before it can run. */
  ghost predicate Entitled(s: State, e: EntryId, i: nat) {
    && e < |s.heap| && i < |s.heap[e].lock.queue|
    && Calls(s, s.heap[e].lock.queue[i], e)
    && forall j :: 0 <= j <= i ==> CanRun(s, s.heap[e].lock.queue[j])
  }

  /** After `more` events, all inside the registry lock of `v`, `u` is in a round trip on `e`. */
  ghost predicate Meets(s: State, more: seq<Event>, v: TaskId, u: TaskId, e: EntryId) {
    Stays(s, more, v) && InRoundTrip(Run(s, more), u, e)
  }

  /** A call on an entry that reports unlocked is queued for it; if nobody is entitled, it is stuck. */
  lemma UnentitledIsStuck(s: State, u: TaskId, e: EntryId)
    requires Valid(s) && e < |s.heap| && !Locked(s, e) && forall i: nat :: !Entitled(s, e, i)
    ensures Stuck(s, e, u)
  {
    if Calls(s, u, e) {
      assert KnownLock(s, EntryLock(e)) && LockOk(s.tasks, EntryLock(e), LockOf(s, EntryLock(e)));
      assert !Inside(s.tasks, u, EntryLock(e));
      assert Waits(s.tasks, u, EntryLock(e));
      var j: nat :| j < |s.heap[e].lock.queue| && s.heap[e].lock.queue[j] == u;
      assert !Entitled(s, e, j);
      var i :| 0 <= i <= j && !CanRun(s, s.heap[e].lock.queue[i]);
      assert HeldUp(s, e, u, i, j);
    }
  }

  lemma StuckIsNotInRoundTrip(s: State, u: TaskId, e: EntryId)
    requires Valid(s) && Stuck(s, e, u)
    ensures !InRoundTrip(s, u, e)
  {
    if Calls(s, u, e) {
      var i: nat, j: nat :| HeldUp(s, e, u, i, j);
      QueuedWaits(s, e, j);
    }
  }

  /** Only a queued call with nobody stuck at or before it gets into a round trip. */
  lemma MeetingNeedsEntitled(s: State, more: seq<Event>, v: TaskId, u: TaskId, e: EntryId)
    requires Valid(s) && Meets(s, more, v, u, e) && e < |s.heap| && !Locked(s, e)
    ensures exists i: nat :: Entitled(s, e, i)
  {
    if forall i: nat :: !Entitled(s, e, i) {
      UnentitledIsStuck(s, u, e);
      StuckThroughout(s, more, v, u, e);
      StuckIsNotInRoundTrip(Run(s, more), u, e);
    }
  }

  /** Cancelling the first waiter of an unlocked entry moves up those behind it and changes nothing else. */
  lemma CancelHead(s: State, e: EntryId, env: Env)
    requires Valid(s) && e < |s.heap| && s.heap[e].lock.queue != [] && CanRun(s, s.heap[e].lock.queue[0])
    ensures var w := s.heap[e].lock.queue[0]; var r := Apply(s, Raise(w, Cancelled, env));
      && OthersStay(s, r, w) && |r.heap| == |s.heap|
      && r.heap[e] == s.heap[e].(lock := Lock(s.heap[e].lock.locked, s.heap[e].lock.queue[1..]))
  {
    var q := s.heap[e].lock.queue;
    QueuedWaits(s, e, 0);
    assert KnownLock(s, EntryLock(e)) && Distinct(q);
    HeadIsFresh(q);
    WithoutAbsent(q[1..], q[0]);
    assert Without(q, q[0]) == q[1..];
  }

  lemma EntitledMovesUp(s: State, e: EntryId, i: nat, env: Env)
    requires Valid(s) && Entitled(s, e, i) && i > 0
    ensures Entitled(Apply(s, Raise(s.heap[e].lock.queue[0], Cancelled, env)), e, i - 1)
  {
    CancelHead(s, e, env);
    var q := s.heap[e].lock.queue;
    assert KnownLock(s, EntryLock(e)) && Distinct(q);
    assert forall j :: 1 <= j <= i ==> q[1..][j - 1] == q[j] && q[j] != q[0] && CanRun(s, q[j]);
  }

  /** The first waiter of an unlocked entry runs, if it is a call, inside the entry's lock. */
  lemma WakeHead(s: State, e: EntryId, env: Env)
    requires Valid(s) && Entitled(s, e, 0) && !Locked(s, e)
    ensures var u := s.heap[e].lock.queue[0]; var r := Apply(s, Wake(u, env));
      OthersStay(s, r, u) && Calls(r, u, e) && !r.tasks[u].pc.AwaitEntry?
  {
    QueuedWaits(s, e, 0);
    var u := s.heap[e].lock.queue[0];
    assert Enabled(s, Wake(u, env));
    assert Apply(s, Wake(u, env)) == WokenInCall(s, u, env);
    CallerIsInside(s, u, env);
  }

  lemma CallerIsInside(s: State, t: TaskId, env: Env)
    requires t in s.tasks && s.tasks[t].pc.AwaitEntry? && s.tasks[t].pc.use.Call?
    ensures !WokenInCall(s, t, env).tasks[t].pc.AwaitEntry?
  {}

  /** From there it gets to its round trip by itself. */
  lemma CallerProceeds(s: State, u: TaskId, e: EntryId, env: Env)
    requires Calls(s, u, e) && CanRun(s, u) && !s.tasks[u].pc.AwaitEntry? && !s.tasks[u].pc.RoundTrip?
    ensures var r := Apply(s, Proceed(u, env));
      OthersStay(s, r, u) && Calls(r, u, e) && (if s.tasks[u].pc.Rebinding? then r.tasks[u].pc.Connecting? else r.tasks[u].pc.RoundTrip?)
  {}

  /** A continuation that leaves `v` alone and gets `u` into its round trip. */
  ghost predicate Arrives(s: State, more: seq<Event>, v: TaskId, u: TaskId, e: EntryId) {
    && Meets(s, more, v, u, e)
    && v in s.tasks && v in Run(s, more).tasks && Run(s, more).tasks[v] == s.tasks[v] && Run(s, more).closedLoops == s.closedLoops
  }

  /** One event more at the front. */
  lemma ArrivesEarlier(s: State, ev: Event, more: seq<Event>, v: TaskId, u: TaskId, e: EntryId)
    requires Arrives(Apply(s, ev), more, v, u, e) && Inside(s.tasks, v, Registry)
    requires Apply(s, ev).tasks[v] == s.tasks[v] && Apply(s, ev).closedLoops == s.closedLoops
    ensures Arrives(s, [ev] + more, v, u, e)
  {
    assert ([ev] + more)[1..] == more;
  }

  lemma ReachRoundTrip(s: State, v: TaskId, u: TaskId, e: EntryId, env: Env) returns (more: seq<Event>)
    requires Inside(s.tasks, v, Registry) && Calls(s, u, e) && CanRun(s, u) && !s.tasks[u].pc.AwaitEntry?
    ensures Arrives(s, more, v, u, e)
    decreases if s.tasks[u].pc.Rebinding? then 2 else if s.tasks[u].pc.Connecting? then 1 else 0
  {
    if s.tasks[u].pc.RoundTrip? {
      more := [];
    } else {
      CallerProceeds(s, u, e, env);
      more := ReachRoundTrip(Apply(s, Proceed(u, env)), v, u, e, env);
      ArrivesEarlier(s, Proceed(u, env), more, v, u, e);
      more := [Proceed(u, env)] + more;
    }
  }

  /** Cancel those ahead, wake the call, and let it connect. */
  lemma EntitledArrives(s: State, v: TaskId, e: EntryId, i: nat, env: Env) returns (more: seq<Event>, u: TaskId)
    requires Valid(s) && Inside(s.tasks, v, Registry) && Entitled(s, e, i) && !Locked(s, e)
    ensures Arrives(s, more, v, u, e)
    decreases i
  {
    var w := s.heap[e].lock.queue[0];
    QueuedWaits(s, e, 0);
    if i == 0 {
      u := w;
      more := HeadArrives(s, v, e, env);
    } else {
      var ev := Raise(w, Cancelled, env);
      CancelHead(s, e, env);
      EntitledMovesUp(s, e, i, env);
      ApplyKeeps(s, ev);
      more, u := EntitledArrives(Apply(s, ev), v, e, i - 1, env);
      ArrivesEarlier(s, ev, more, v, u, e);
      more := [ev] + more;
    }
  }

  lemma HeadArrives(s: State, v: TaskId, e: EntryId, env: Env) returns (more: seq<Event>)
    requires Valid(s) && Inside(s.tasks, v, Registry) && Entitled(s, e, 0) && !Locked(s, e)
    ensures Arrives(s, more, v, s.heap[e].lock.queue[0], e)
  {
    var u := s.heap[e].lock.queue[0];
    QueuedWaits(s, e, 0);
    WakeHead(s, e, env);
    more := ReachRoundTrip(Apply(s, Wake(u, env)), v, u, e, env);
    ArrivesEarlier(s, Wake(u, env), more, v, u, e);
    more := [Wake(u, env)] + more;
  }

  /******* When they meet *******/

  /** In every valid state, so in every reachable one, with `v` inside the registry lock and an entry that reports
      unlocked: while `v` stays there, some task can get into a round trip on the entry, if and only if a call is queued
      for the entry with nobody at or before it stuck on a closed loop. */
  lemma EvictionMeetsCallExactly(s: State, v: TaskId, e: EntryId)
    requires Valid(s) && Inside(s.tasks, v, Registry) && e < |s.heap| && !Locked(s, e)
    ensures (exists more, u :: Meets(s, more, v, u, e)) <==> exists i: nat :: Entitled(s, e, i)
  {
    if more, u :| Meets(s, more, v, u, e) {
      MeetingNeedsEntitled(s, more, v, u, e);
    }
    if i: nat :| Entitled(s, e, i) {
      var more, u := EntitledArrives(s, v, e, i, Env(0, Key("", "")));
      assert Meets(s, more, v, u, e);
    }
  }

  /** `v` runs on out of its disconnect and leaves `u` in a round trip on a connection that is gone. */
  ghost predicate Disturbs(s: State, more: seq<Event>, v: TaskId, u: TaskId, e: EntryId, env: Env) {
    && Meets(s, more, v, u, e)
    && TakesAway(Run(s, more), v, u, e, env)
  }

  ghost predicate TakesAway(s: State, v: TaskId, u: TaskId, e: EntryId, env: Env) {
    && CanRun(s, v) && s.tasks[v].pc.ClosingUnlocked() && s.tasks[v].pc.entry == e
    && var r := Apply(s, Proceed(v, env)); InRoundTrip(r, u, e) && r.heap[e].session.None?
  }

  lemma ProceedTakesAway(s: State, v: TaskId, u: TaskId, e: EntryId, env: Env)
    requires CanRun(s, v) && s.tasks[v].pc.ClosingUnlocked() && s.tasks[v].pc.entry == e && InRoundTrip(s, u, e)
    ensures TakesAway(s, v, u, e, env)
  {
    EvictionCloses(s, v, env);
  }

  /** A task that can run at the end could run all along. */
  lemma {:induction false} CouldRun(s: State, more: seq<Event>, v: TaskId)
    requires Valid(s) && Stays(s, more, v) && CanRun(Run(s, more), v)
    ensures CanRun(s, v)
    decreases |more|
  {
    if more != [] {
      ApplyKeeps(s, more[0]);
      CouldRun(Apply(s, more[0]), more[1..], v);
      LoopStays(s, more[0], v);
    }
  }

  lemma LoopStays(s: State, ev: Event, v: TaskId)
    requires Valid(s) && Inside(s.tasks, v, Registry) && CanRun(Apply(s, ev), v)
    ensures CanRun(s, v)
  {
    if Enabled(s, ev) && !ev.CloseLoop? && ev.task != v { ApplyMovesOne(s, ev); }
  }

  lemma DisturbanceNeeds(s: State, more: seq<Event>, v: TaskId, u: TaskId, e: EntryId, env: Env)
    requires Valid(s) && Disturbs(s, more, v, u, e, env) && e < |s.heap| && !Locked(s, e)
    ensures CanRun(s, v) && exists i: nat :: Entitled(s, e, i)
  {
    MeetingNeedsEntitled(s, more, v, u, e);
    CouldRun(s, more, v);
  }

  lemma EntitledIsDisturbed(s: State, v: TaskId, e: EntryId, i: nat, env: Env) returns (more: seq<Event>, u: TaskId)
    requires Valid(s) && CanRun(s, v) && s.tasks[v].pc.ClosingUnlocked() && s.tasks[v].pc.entry == e && !Locked(s, e)
    requires Entitled(s, e, i)
    ensures Disturbs(s, more, v, u, e, env)
  {
    more, u := EntitledArrives(s, v, e, i, env);
    ProceedTakesAway(Run(s, more), v, u, e, env);
  }

  /** So an eviction that is closing an unlocked entry can take the connection away from a call in mid round trip, if
      and only if its own task can run and such a call is queued. */
  lemma EvictionDisturbsExactly(s: State, v: TaskId, e: EntryId)
    requires Valid(s) && v in s.tasks && s.tasks[v].pc.ClosingUnlocked() && s.tasks[v].pc.entry == e && !Locked(s, e)
    ensures (exists more, u, env :: Disturbs(s, more, v, u, e, env)) <==> CanRun(s, v) && exists i: nat :: Entitled(s, e, i)
  {
    if more, u, env :| Disturbs(s, more, v, u, e, env) {
      DisturbanceNeeds(s, more, v, u, e, env);
    }
    if i: nat :| CanRun(s, v) && Entitled(s, e, i) {
      var more, u := EntitledIsDisturbed(s, v, e, i, Env(0, Key("", "")));
    }
  }
}

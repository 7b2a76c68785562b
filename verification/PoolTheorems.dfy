/**
 What the pool promises, over every run: exclusive use of a connection, a `connected` flag that
 tells the truth, eviction that spares calls in flight, and a bounded size.
 */
module PoolTheorems {
  import opened Common
  import opened PoolModel
  import opened PoolSafety

  /******* Exclusive use *******/

  /** `t` closes, opens or uses the wrapper of entry `e` as the holder of its lock. */
  predicate Drives(s: State, t: TaskId, e: EntryId) {
    Inside(s.tasks, t, EntryLock(e))
  }

  /** In every reachable state at most one task drives a wrapper, a lock is locked exactly while a task
      is inside it, no entry is pooled twice, and whoever is queued for a lock waits for it. */
  lemma ExclusiveUse(cap: int, events: seq<Event>)
    ensures var s := After(cap, events);
      && (forall t, u, e :: Drives(s, t, e) && Drives(s, u, e) ==> t == u)
      && (forall t, u :: Inside(s.tasks, t, Registry) && Inside(s.tasks, u, Registry) ==> t == u)
      && (forall e :: 0 <= e < |s.heap| ==> (Locked(s, e) <==> exists t :: Drives(s, t, e)))
      && (forall k <- s.pool, j <- s.pool :: s.pool[k] == s.pool[j] ==> k == j)
      && (forall e, i :: 0 <= e < |s.heap| && 0 <= i < |s.heap[e].lock.queue| ==> Waits(s.tasks, s.heap[e].lock.queue[i], EntryLock(e)))
  {
    ReachableIsValid(cap, events);
    var s := After(cap, events);
    assert KnownLock(s, Registry);
    forall t, u, e | Drives(s, t, e) && Drives(s, u, e) ensures t == u {
      assert s.tasks[t].pc.Refers(|s.heap|);
      assert KnownLock(s, EntryLock(e));
    }
    forall e | 0 <= e < |s.heap|
      ensures Locked(s, e) <==> exists t :: Drives(s, t, e)
      ensures forall i :: 0 <= i < |s.heap[e].lock.queue| ==> Waits(s.tasks, s.heap[e].lock.queue[i], EntryLock(e))
    {
      assert KnownLock(s, EntryLock(e));
      if Locked(s, e) { var t :| Inside(s.tasks, t, EntryLock(e)); assert Drives(s, t, e); }
      forall i | 0 <= i < |s.heap[e].lock.queue| ensures Waits(s.tasks, s.heap[e].lock.queue[i], EntryLock(e)) {
        assert s.heap[e].lock.queue[i] in s.heap[e].lock.queue;
      }
    }
  }

  /******* The connected flag *******/

  /** The flag of an entry says whether its wrapper is open, on the loop the entry names. */
  predicate FlagTrue(entry: Entry) {
    && (entry.connected <==> entry.session.Some?)
    && (entry.session.Some? ==> entry.session == entry.loop)
  }

  ghost predicate FlagsTrue(s: PoolState) {
    forall e :: 0 <= e < |s.heap| ==> FlagTrue(s.heap[e])
  }

  /** The event cancels a task inside a disconnect while the session is still there. */
  predicate TearsClose(s: State, ev: Event) {
    && ev.Raise? && ev.err.Cancelled? && Enabled(s, ev) && s.tasks[ev.task].pc.Closing()
    && s.heap[s.tasks[ev.task].pc.entry].session.Some?
  }

  lemma StretchKeepsFlags(s: State, r: State, t: TaskId)
    requires FlagsTrue(s) && Stretch(s, r, t)
    ensures FlagsTrue(r)
  {
    forall e | 0 <= e < |r.heap| ensures FlagTrue(r.heap[e]) {
      if e < |s.heap| { assert SameConnection(s.heap[e], r.heap[e]); }
    }
  }

  lemma StretchButKeepsFlags(s: State, r: State, t: TaskId, e: EntryId, entry: Entry)
    requires FlagsTrue(s) && StretchBut(s, r, t, e, entry)
    ensures FlagsTrue(r) <==> FlagTrue(entry)
  {
    forall d | 0 <= d < |r.heap| && d != e ensures FlagTrue(r.heap[d]) {
      if d < |s.heap| { assert SameConnection(s.heap[d], r.heap[d]); }
    }
    assert FlagTrue(r.heap[e]) <==> FlagTrue(entry);
  }

  lemma ContinuedKeepsFlags(s: State, t: TaskId, env: Env)
    requires Valid(s) && FlagsTrue(s) && t in s.tasks
    ensures FlagsTrue(Continued(s, t, env))
  {
    var pc := s.tasks[t].pc;
    var r := Continued(s, t, env);
    if pc.Closing() {
      StretchButKeepsFlags(s, r, t, pc.entry, ClosedBy(s, t));
    } else if pc.Connecting? {
      StretchButKeepsFlags(s, r, t, pc.entry, Connected(s, t, pc.entry).heap[pc.entry]);
    } else if pc.RoundTrip? {
      StretchKeepsFlags(s, r, t);
    }
  }

  lemma RaisedKeepsFlags(s: State, t: TaskId, err: Error, env: Env)
    requires Valid(s) && FlagsTrue(s) && t in s.tasks
    ensures FlagsTrue(Raised(s, t, err, env)) <==>
      !(s.tasks[t].pc.Closing() && err.Cancelled? && s.heap[s.tasks[t].pc.entry].session.Some?)
  {
    var pc := s.tasks[t].pc;
    var r := Raised(s, t, err, env);
    if pc.Wanted().Some? || pc.Connecting? || pc.RoundTrip? {
      StretchKeepsFlags(s, r, t);
    } else if pc.Closing() && err.Cancelled? {
      StretchButKeepsFlags(s, r, t, pc.entry, Torn(s, pc.entry).heap[pc.entry]);
      assert FlagTrue(s.heap[pc.entry]);
    } else {
      ContinuedKeepsFlags(s, t, env);
    }
  }

  lemma StartedKeepsFlags(s: State, t: TaskId, loop: LoopId, op: Operation, env: Env)
    requires FlagsTrue(s)
    ensures FlagsTrue(Started(s, t, loop, op, env))
  {
    StretchKeepsFlags(s.(tasks := s.tasks[t := Task(loop, Running({}))]), Started(s, t, loop, op, env), t);
  }

  lemma WokenKeepsFlags(s: State, t: TaskId, env: Env)
    requires Valid(s) && FlagsTrue(s) && t in s.tasks && s.tasks[t].pc.Wanted().Some?
    ensures FlagsTrue(Woken(s, t, env))
  {
    StretchKeepsFlags(s, Woken(s, t, env), t);
  }

  /** One event keeps the flags true exactly when it does not tear a close. */
  lemma FlagStep(s: State, ev: Event)
    requires Valid(s) && FlagsTrue(s)
    ensures FlagsTrue(Apply(s, ev)) <==> !TearsClose(s, ev)
  {
    if Enabled(s, ev) {
      match ev
      case Start(t, loop, op, env) => StartedKeepsFlags(s, t, loop, op, env);
      case Wake(t, env) => WokenKeepsFlags(s, t, env);
      case Proceed(t, env) => ContinuedKeepsFlags(s, t, env);
      case Raise(t, err, env) => RaisedKeepsFlags(s, t, err, env);
      case CloseLoop(_) =>
    }
  }

  /** The flags are true in every state of the run. */
  ghost predicate AlwaysFlagsTrue(cap: int, events: seq<Event>) {
    FlagsTrue(After(cap, events)) && (events != [] ==> AlwaysFlagsTrue(cap, events[..|events| - 1]))
  }

  /** No event of the run cancels a task inside a disconnect that still has its session. */
  ghost predicate NeverTearsClose(cap: int, events: seq<Event>) {
    events != [] ==>
      var before := events[..|events| - 1];
      NeverTearsClose(cap, before) && !TearsClose(After(cap, before), events[|events| - 1])
  }

  /** The flags are true throughout a run exactly when the run never tears a close. */
  lemma {:induction false} FlagsTrueExactlyWithoutTornClose(cap: int, events: seq<Event>)
    ensures AlwaysFlagsTrue(cap, events) <==> NeverTearsClose(cap, events)
  {
    if events != [] {
      var before := events[..|events| - 1];
      FlagsTrueExactlyWithoutTornClose(cap, before);
      ReachableIsValid(cap, before);
      if AlwaysFlagsTrue(cap, before) { FlagStep(After(cap, before), events[|events| - 1]); }
    }
  }

  /** What such a cancellation leaves behind: a flag that is set on a wrapper that is not open. */
  lemma TornCloseLies(s: State, ev: Event)
    requires Valid(s) && FlagsTrue(s) && TearsClose(s, ev)
    ensures var e := s.tasks[ev.task].pc.entry; var r := Apply(s, ev);
      e < |r.heap| && r.heap[e].connected && r.heap[e].session.None?
  {
    var e := s.tasks[ev.task].pc.entry;
    assert StretchBut(s, Raised(s, ev.task, ev.err, ev.env), ev.task, e, Torn(s, e).heap[e]);
    assert FlagTrue(s.heap[e]);
  }

  /******* Disconnect as one atomic step *******/

  /** The event is possible when a disconnect is not interrupted, and it does not start the shutdown. */
  ghost predicate AtomicEvent(s: State, ev: Event) {
    && (forall u <- s.tasks :: s.tasks[u].pc.Closing() ==> ev.Proceed? && ev.task == u)
    && !(ev.Start? && ev.op.CloseAll?)
  }

  ghost predicate AtomicRun(cap: int, events: seq<Event>) {
    events != [] ==>
      var before := events[..|events| - 1];
      AtomicRun(cap, before) && AtomicEvent(After(cap, before), events[|events| - 1])
  }

  /** What a task may rely on, or has left to do, in an atomic run. */
  ghost predicate TaskOk(s: State, t: TaskId)
    requires t in s.tasks
  {
    YieldsOwnLoop(s, t) && EvictsUnlocked(s, t) && !s.tasks[t].pc.ShuttingDown()
  }

  ghost predicate AtomicOk(s: State) {
    Valid(s) && FlagsTrue(s) && forall t <- s.tasks :: TaskOk(s, t)
  }

  /** Tasks other than `t` keep their connections when only entry `e` changes and none of them is on it. */
  lemma OthersKeepConnections(s: State, r: State, t: TaskId, e: EntryId, entry: Entry)
    requires AtomicOk(s) && StretchBut(s, r, t, e, entry) && TaskOk(r, t)
    requires forall u <- s.tasks :: u != t ==> !s.tasks[u].pc.Closing() && s.tasks[u].pc.Held() != {EntryLock(e)}
    ensures forall u <- r.tasks :: TaskOk(r, u)
  {
    forall u <- r.tasks ensures TaskOk(r, u) {
      if u != t {
        assert TaskOk(s, u);
        if s.tasks[u].pc.RoundTrip? { assert SameConnection(s.heap[s.tasks[u].pc.entry], r.heap[s.tasks[u].pc.entry]); }
      }
    }
  }

  lemma OthersUndisturbed(s: State, r: State, t: TaskId)
    requires AtomicOk(s) && t in r.tasks && TaskOk(r, t)
    requires forall u <- r.tasks :: u != t ==> u in s.tasks && r.tasks[u] == s.tasks[u] && !s.tasks[u].pc.Closing()
    requires SameSessions(s, r)
    ensures forall u <- r.tasks :: TaskOk(r, u)
  {
    forall u <- r.tasks ensures TaskOk(r, u) {
      if u != t {
        assert TaskOk(s, u);
        if s.tasks[u].pc.RoundTrip? { assert SameConnection(s.heap[s.tasks[u].pc.entry], r.heap[s.tasks[u].pc.entry]); }
      }
    }
  }

  /** While `t` closes or opens `e`, no other task is inside the lock of `e`. */
  lemma AloneOn(s: State, t: TaskId, u: TaskId, e: EntryId)
    requires AtomicOk(s) && t in s.tasks && u in s.tasks && u != t && e < |s.heap|
    requires s.tasks[t].pc.Held() == {EntryLock(e)} || !Locked(s, e)
    ensures s.tasks[u].pc.Held() != {EntryLock(e)}
  {
    assert KnownLock(s, EntryLock(e)) && LockOk(s.tasks, EntryLock(e), LockOf(s, EntryLock(e)));
    assert s.tasks[t].pc.Held() == {EntryLock(e)} ==> Inside(s.tasks, t, EntryLock(e));
    assert s.tasks[u].pc.Held() == {EntryLock(e)} ==> Inside(s.tasks, u, EntryLock(e));
  }

  lemma CloserIsOk(s: State, t: TaskId, env: Env)
    requires t in s.tasks && TaskOk(s, t) && s.tasks[t].pc.Closing()
    ensures var r := Continued(s, t, env); StretchBut(s, r, t, s.tasks[t].pc.entry, ClosedBy(s, t)) && TaskOk(r, t)
  {}

  lemma AtomicClose(s: State, t: TaskId, env: Env)
    requires AtomicOk(s) && t in s.tasks && s.tasks[t].pc.Closing() && AtomicEvent(s, Proceed(t, env))
    ensures forall u <- Continued(s, t, env).tasks :: TaskOk(Continued(s, t, env), u)
  {
    var e := s.tasks[t].pc.entry;
    var r := Continued(s, t, env);
    assert TaskOk(s, t);
    CloserIsOk(s, t, env);
    forall u <- s.tasks | u != t ensures s.tasks[u].pc.Held() != {EntryLock(e)} { AloneOn(s, t, u, e); }
    OthersKeepConnections(s, r, t, e, ClosedBy(s, t));
  }

  lemma AtomicProceed(s: State, t: TaskId, env: Env)
    requires AtomicOk(s) && t in s.tasks && AtomicEvent(s, Proceed(t, env))
    ensures forall u <- Continued(s, t, env).tasks :: TaskOk(Continued(s, t, env), u)
  {
    var pc := s.tasks[t].pc;
    var r := Continued(s, t, env);
    if pc.Closing() {
      AtomicClose(s, t, env);
    } else if pc.Connecting? {
      var entry := Connected(s, t, pc.entry).heap[pc.entry];
      assert StretchBut(s, r, t, pc.entry, entry) && TaskOk(r, t);
      forall u <- s.tasks | u != t ensures s.tasks[u].pc.Held() != {EntryLock(pc.entry)} { AloneOn(s, t, u, pc.entry); }
      OthersKeepConnections(s, r, t, pc.entry, entry);
    } else if pc.RoundTrip? {
      OthersUndisturbed(s, r, t);
    }
  }

  lemma AtomicStart(s: State, t: TaskId, loop: LoopId, op: Operation, env: Env)
    requires AtomicOk(s) && AtomicEvent(s, Start(t, loop, op, env)) && Enabled(s, Start(t, loop, op, env))
    ensures var r := Started(s, t, loop, op, env); forall u <- r.tasks :: TaskOk(r, u)
  {
    OthersUndisturbed(s, Started(s, t, loop, op, env), t);
  }

  lemma AtomicWake(s: State, t: TaskId, env: Env)
    requires AtomicOk(s) && AtomicEvent(s, Wake(t, env)) && Enabled(s, Wake(t, env))
    ensures var r := Woken(s, t, env); forall u <- r.tasks :: TaskOk(r, u)
  {
    assert TaskOk(s, t);
    OthersUndisturbed(s, Woken(s, t, env), t);
  }

  lemma AtomicRaise(s: State, t: TaskId, err: Error, env: Env)
    requires AtomicOk(s) && AtomicEvent(s, Raise(t, err, env)) && Enabled(s, Raise(t, err, env))
    ensures var r := Raised(s, t, err, env); forall u <- r.tasks :: TaskOk(r, u)
  {
    var pc := s.tasks[t].pc;
    if pc.Wanted().Some? { OthersUndisturbed(s, WaitRaised(s, t, err, env), t); }
    else if pc.Connecting? || pc.RoundTrip? { OthersUndisturbed(s, UseRaised(s, t, err, env), t); }
  }

  lemma AtomicStep(s: State, ev: Event)
    requires AtomicOk(s) && AtomicEvent(s, ev)
    ensures AtomicOk(Apply(s, ev))
  {
    ApplyKeeps(s, ev);
    FlagStep(s, ev);
    if Enabled(s, ev) {
      match ev
      case Start(t, loop, op, env) => AtomicStart(s, t, loop, op, env);
      case Wake(t, env) => AtomicWake(s, t, env);
      case Proceed(t, env) => AtomicProceed(s, t, env);
      case Raise(t, err, env) => AtomicRaise(s, t, err, env);
      case CloseLoop(_) =>
        forall u <- s.tasks ensures TaskOk(Apply(s, ev), u) { assert TaskOk(s, u); }
    }
  }

  lemma {:induction false} AtomicRunIsOk(cap: int, events: seq<Event>)
    requires AtomicRun(cap, events)
    ensures AtomicOk(After(cap, events))
  {
    if events != [] {
      AtomicRunIsOk(cap, events[..|events| - 1]);
      AtomicStep(After(cap, events[..|events| - 1]), events[|events| - 1]);
    }
  }

  /** With atomic disconnects and before shutdown, in every reachable state: each flag is true, a task in
      a round trip has its wrapper open on its own loop, and what an eviction closes is in no round trip. */
  lemma CallsKeepTheirConnection(cap: int, events: seq<Event>)
    requires AtomicRun(cap, events)
    ensures var s := After(cap, events);
      && FlagsTrue(s)
      && (forall t <- s.tasks :: s.tasks[t].pc.RoundTrip? ==> s.heap[s.tasks[t].pc.entry].session == Some(s.tasks[t].loop))
      && (forall v <- s.tasks, t <- s.tasks :: s.tasks[v].pc.ClosingUnlocked() && s.tasks[t].pc.RoundTrip? ==>
            s.tasks[t].pc.entry != s.tasks[v].pc.entry)
  {
    AtomicRunIsOk(cap, events);
    var s := After(cap, events);
    forall t <- s.tasks | s.tasks[t].pc.RoundTrip? ensures s.heap[s.tasks[t].pc.entry].session == Some(s.tasks[t].loop) {
      assert TaskOk(s, t) && FlagTrue(s.heap[s.tasks[t].pc.entry]);
    }
    forall v <- s.tasks, t <- s.tasks | s.tasks[v].pc.ClosingUnlocked() && s.tasks[t].pc.RoundTrip?
      ensures s.tasks[t].pc.entry != s.tasks[v].pc.entry
    {
      assert TaskOk(s, v);
      if s.tasks[t].pc.entry == s.tasks[v].pc.entry { AloneOn(s, v, t, s.tasks[t].pc.entry); }
    }
  }
}

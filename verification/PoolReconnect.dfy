/** The single reconnect of a pooled call, over every event and every run. */
module PoolReconnect {
  import opened Common
  import opened PoolModel
  import opened PoolSafety
  import opened PoolLimits
  import opened PoolEviction

  /** How far a call for `key` has come: its first attempt, marking the entry broken in between, or its second attempt. */
  datatype Stage = Stage(key: Key, step: Step)
  datatype Step = Trying | Marking | Retrying

  function AttemptStep(a: Attempt): Step {
    if a.First? then Trying else Retrying
  }

  function StageOf(pc: Pc): Option<Stage> {
    match pc
    case AwaitRegistry(Fetch(key, a)) => Some(Stage(key, AttemptStep(a)))
    case AwaitEntry(_, Call(key, a)) => Some(Stage(key, AttemptStep(a)))
    case AwaitEntry(_, Break(key)) => Some(Stage(key, Marking))
    case CapacityClosing(key, a, _, _) => Some(Stage(key, AttemptStep(a)))
    case Rebinding(_, key, a) => Some(Stage(key, AttemptStep(a)))
    case Connecting(_, key, a) => Some(Stage(key, AttemptStep(a)))
    case RoundTrip(_, key, a) => Some(Stage(key, AttemptStep(a)))
    case Breaking(_, key) => Some(Stage(key, Marking))
    case _ => None
  }

  /** The task is in its attempt `a` for `key`. */
  predicate On(s: State, t: TaskId, key: Key, a: Attempt) {
    t in s.tasks && StageOf(s.tasks[t].pc) == Some(Stage(key, AttemptStep(a)))
  }

  /** The task is about to mark broken, or is closing, the entry `e` of `key`. */
  predicate Breaks(s: State, t: TaskId, key: Key, e: EntryId) {
    t in s.tasks && (s.tasks[t].pc == Breaking(e, key) || s.tasks[t].pc == AwaitEntry(e, Break(key)))
  }

  /******* Stretches *******/

  lemma InCallStage(s: State, t: TaskId, e: EntryId, key: Key, a: Attempt, env: Env)
    requires t in s.tasks && e < |s.heap|
    ensures On(InCall(s, t, e, key, a, env), t, key, a)
  {}

  lemma RequestCallStage(s: State, t: TaskId, e: EntryId, key: Key, a: Attempt, env: Env)
    requires t in s.tasks && s.tasks[t].pc.Running? && e < |s.heap|
    ensures On(RequestCall(s, t, e, key, a, env), t, key, a)
  {
    if Free(s, EntryLock(e)) { InCallStage(Take(s, t, EntryLock(e)), t, e, key, a, env); }
  }

  lemma InsertEntryStage(s: State, t: TaskId, key: Key, a: Attempt, env: Env)
    requires t in s.tasks && s.tasks[t].pc.Running?
    ensures On(InsertEntry(s, t, key, a, env), t, key, a)
  {
    RequestCallStage(Drop(Filed(s, key, env), t, Registry), t, |s.heap|, key, a, env);
  }

  lemma InFullStage(s: State, t: TaskId, key: Key, a: Attempt, env: Env)
    requires t in s.tasks && s.tasks[t].pc.Running? && Candidates(s) != {}
    ensures On(InFull(s, t, key, a, env), t, key, a)
  {
    InsertEntryStage(Popped(s, Choose(Candidates(s), env.pick)), t, key, a, env);
  }

  lemma InPrunedStage(s: State, t: TaskId, key: Key, a: Attempt, env: Env)
    requires t in s.tasks && s.tasks[t].pc.Running?
    ensures On(InPruned(s, t, key, a, env), t, key, a)
  {
    if key in s.pool { RequestCallStage(Drop(s, t, Registry), t, s.pool[key], key, a, env); }
    else if |s.pool| < s.cap || Candidates(s) == {} { InsertEntryStage(s, t, key, a, env); }
    else { InFullStage(s, t, key, a, env); }
  }

  lemma FetchStage(s: State, t: TaskId, key: Key, a: Attempt, env: Env)
    requires t in s.tasks && s.tasks[t].pc.Running?
    ensures On(InRegistry(s, t, Fetch(key, a), env), t, key, a)
  {
    InPrunedStage(s.(pool := Pruned(s)), t, key, a, env);
  }

  lemma RequestStage(s: State, t: TaskId, key: Key, a: Attempt, env: Env)
    requires t in s.tasks && s.tasks[t].pc.Running?
    ensures On(RequestRegistry(s, t, Fetch(key, a), env), t, key, a)
  {
    if Free(s, Registry) { FetchStage(Take(s, t, Registry), t, key, a, env); }
  }

  lemma InBreakStage(s: State, t: TaskId, e: EntryId, key: Key, env: Env)
    requires t in s.tasks && s.tasks[t].pc.Running? && e < |s.heap|
    ensures var r := InBreak(s, t, e, key, env); if s.heap[e].connected then Breaks(r, t, key, e) else On(r, t, key, Second)
  {
    if !s.heap[e].connected { RequestStage(Drop(Closed(s, e), t, EntryLock(e)), t, key, Second, env); }
  }

  lemma MarkBrokenStage(s: State, t: TaskId, key: Key, env: Env)
    requires t in s.tasks && s.tasks[t].pc.Running? && key in s.pool
    ensures var r, e := MarkBroken(s, t, key, env), s.pool[key];
      Breaks(r, t, key, e) || (!s.heap[e].connected && On(r, t, key, Second))
  {
    var e := s.pool[key];
    if Free(s, EntryLock(e)) {
      InBreakStage(Seized(s, t, e), t, e, key, env);
      assert SameConnection(s.heap[e], Seized(s, t, e).heap[e]);
    }
  }

  /** What becomes of a call whose attempt has raised: spelled out on the pool and the task alone. */
  ghost predicate AfterError(s: State, r: State, t: TaskId, key: Key, a: Attempt, err: Error) {
    t in r.tasks &&
    if a.First? && err.Reconnectable? then
      if key in s.pool then Breaks(r, t, key, s.pool[key]) || (!s.heap[s.pool[key]].connected && On(r, t, key, Second))
      else On(r, t, key, Second)
    else r.tasks[t].pc == Done(Failed(err))
  }

  lemma AttemptRaisedStage(s: State, t: TaskId, key: Key, a: Attempt, err: Error, env: Env)
    requires t in s.tasks && s.tasks[t].pc.Running?
    ensures AfterError(s, AttemptRaised(s, t, key, a, err, env), t, key, a, err)
  {
    if a.First? && err.Reconnectable? {
      if key in s.pool { MarkBrokenStage(s, t, key, env); } else { RequestStage(s, t, key, Second, env); }
    }
  }

  /******* Events *******/

  /** A suspension point of attempt `a` for `key` at which an exception ends the attempt. */
  predicate AtRisk(pc: Pc, key: Key, a: Attempt) {
    || pc == AwaitRegistry(Fetch(key, a))
    || (pc.AwaitEntry? && pc.use == Call(key, a))
    || (pc.Connecting? && pc.key == key && pc.attempt == a)
    || (pc.RoundTrip? && pc.key == key && pc.attempt == a)
  }

  lemma SameAfterError(s: State, left: State, r: State, t: TaskId, key: Key, a: Attempt, err: Error)
    requires SameSessions(s, left) && left.pool == s.pool && AfterError(left, r, t, key, a, err)
    ensures AfterError(s, r, t, key, a, err)
  {
    if key in s.pool { assert SameConnection(s.heap[s.pool[key]], left.heap[s.pool[key]]); }
  }

  /** An attempt that raises: the first one, with a reconnectable error, goes on to mark broken the entry pooled under its
      key, or straight to the second attempt if there is none or none that is connected; in any other case the task ends
      with the error. */
  lemma RaiseExactly(s: State, t: TaskId, err: Error, env: Env, key: Key, a: Attempt)
    requires Enabled(s, Raise(t, err, env)) && AtRisk(s.tasks[t].pc, key, a)
    ensures AfterError(s, Apply(s, Raise(t, err, env)), t, key, a, err)
  {
    var pc := s.tasks[t].pc;
    var left := if pc.Wanted().Some? then Unqueued(s, t, pc.Wanted().value) else Left(s, t);
    AttemptRaisedStage(left, t, key, a, err, env);
    var r := AttemptRaised(left, t, key, a, err, env);
    SameAfterError(s, left, r, t, key, a, err);
    RaiseIsAttemptRaised(s, t, err, env, key, a);
  }

  lemma RaiseIsAttemptRaised(s: State, t: TaskId, err: Error, env: Env, key: Key, a: Attempt)
    requires Enabled(s, Raise(t, err, env)) && AtRisk(s.tasks[t].pc, key, a)
    ensures var pc := s.tasks[t].pc; var left := if pc.Wanted().Some? then Unqueued(s, t, pc.Wanted().value) else Left(s, t);
      Apply(s, Raise(t, err, env)) == AttemptRaised(left, t, key, a, err, env)
  {
    if s.tasks[t].pc.Wanted().Some? { WaitIsAttemptRaised(s, t, err, env, key, a); }
  }

  lemma WaitIsAttemptRaised(s: State, t: TaskId, err: Error, env: Env, key: Key, a: Attempt)
    requires t in s.tasks && AtRisk(s.tasks[t].pc, key, a) && s.tasks[t].pc.Wanted().Some?
    ensures WaitRaised(s, t, err, env) == AttemptRaised(Unqueued(s, t, s.tasks[t].pc.Wanted().value), t, key, a, err, env)
  {}

  /** Marking the entry broken leads to the second attempt: at once if the entry is not connected when its lock is reached,
      after the disconnect otherwise. Only an exception of the wait itself, or a cancellation, ends the task in between. */
  lemma BreakExactly(s: State, ev: Event, key: Key, e: EntryId)
    requires Enabled(s, ev) && !ev.Start? && !ev.CloseLoop? && Breaks(s, ev.task, key, e)
    ensures var r, t := Apply(s, ev), ev.task;
      match ev
      case Wake(_, _) => if s.heap[e].connected then r.tasks[t].pc == Breaking(e, key) else On(r, t, key, Second)
      case Proceed(_, _) => if s.tasks[t].pc.Breaking? then On(r, t, key, Second) else r == s
      case Raise(_, err, _) =>
        if s.tasks[t].pc.Breaking? && !err.Cancelled? then On(r, t, key, Second) else r.tasks[t].pc == Done(Failed(err))
      case _ => true
  {
    var t := ev.task;
    if s.tasks[t].pc.Breaking? {
      BreakContinues(s, t, ev.env, key, e);
    } else if ev.Wake? {
      WokenBreaks(s, t, ev.env, key, e);
    }
  }

  lemma BreakContinues(s: State, t: TaskId, env: Env, key: Key, e: EntryId)
    requires t in s.tasks && s.tasks[t].pc == Breaking(e, key)
    ensures On(Continued(s, t, env), t, key, Second)
  {
    RequestStage(Drop(CloseDone(s, t), t, EntryLock(e)), t, key, Second, env);
  }

  lemma WokenBreaks(s: State, t: TaskId, env: Env, key: Key, e: EntryId)
    requires t in s.tasks && s.tasks[t].pc == AwaitEntry(e, Break(key))
    ensures var r := Woken(s, t, env); if s.heap[e].connected then r.tasks[t].pc == Breaking(e, key) else On(r, t, key, Second)
  {
    InBreakStage(Entered(s, t, e), t, e, key, env);
    assert SameConnection(s.heap[e], Entered(s, t, e).heap[e]);
  }

  /******* Progress of one call *******/

  function Rank(step: Step): nat {
    match step case Trying => 0 case Marking => 1 case Retrying => 2
  }

  /** Where an event can take a call that is at `st`: on with the same key, never back; past the first attempt only by a
      reconnectable error; to success only from its round trip; to failure only by the exception it fails with, and not by
      a reconnectable one in the first attempt. */
  ghost predicate Advances(st: Stage, before: Pc, after: Pc, t: TaskId, ev: Event) {
    match StageOf(after)
    case Some(next) =>
      && next.key == st.key && Rank(st.step) <= Rank(next.step)
      && (st.step.Trying? && !next.step.Trying? ==> ev.Raise? && ev.task == t && ev.err.Reconnectable?)
    case None =>
      && after.Done?
      && match after.outcome
         case Succeeded => before.RoundTrip? && ev.Proceed? && ev.task == t
         case Failed(err) => ev.Raise? && ev.task == t && ev.err == err && (err.Reconnectable? ==> !st.step.Trying?)
  }

  lemma ErrorAdvances(s: State, r: State, t: TaskId, err: Error, env: Env, key: Key, a: Attempt)
    requires t in s.tasks && AfterError(s, r, t, key, a, err)
    ensures Advances(Stage(key, AttemptStep(a)), s.tasks[t].pc, r.tasks[t].pc, t, Raise(t, err, env))
  {}

  lemma WakeAdvances(s: State, t: TaskId, env: Env, st: Stage)
    requires Enabled(s, Wake(t, env)) && StageOf(s.tasks[t].pc) == Some(st)
    ensures t in Woken(s, t, env).tasks && Advances(st, s.tasks[t].pc, Woken(s, t, env).tasks[t].pc, t, Wake(t, env))
  {
    var pc := s.tasks[t].pc;
    if pc.AwaitRegistry? {
      WokenFetches(s, t, env);
      SameStageAdvances(st, pc, Woken(s, t, env).tasks[t].pc, t, Wake(t, env));
    } else if pc.use.Call? {
      WokenCalls(s, t, env);
      SameStageAdvances(st, pc, Woken(s, t, env).tasks[t].pc, t, Wake(t, env));
    } else {
      WokenBreakAdvances(s, t, env, st);
    }
  }

  lemma WokenBreakAdvances(s: State, t: TaskId, env: Env, st: Stage)
    requires t in s.tasks && StageOf(s.tasks[t].pc) == Some(st) && s.tasks[t].pc.AwaitEntry? && s.tasks[t].pc.use.Break?
    ensures t in Woken(s, t, env).tasks && Advances(st, s.tasks[t].pc, Woken(s, t, env).tasks[t].pc, t, Wake(t, env))
  {
    var pc := s.tasks[t].pc;
    WokenBreaks(s, t, env, pc.use.key, pc.entry);
    if s.heap[pc.entry].connected { SameStageAdvances(st, pc, Woken(s, t, env).tasks[t].pc, t, Wake(t, env)); }
    else { LaterStageAdvances(st, pc, Woken(s, t, env).tasks[t].pc, t, Wake(t, env)); }
  }

  lemma WokenFetches(s: State, t: TaskId, env: Env)
    requires t in s.tasks && s.tasks[t].pc.AwaitRegistry? && s.tasks[t].pc.purpose.Fetch?
    ensures On(Woken(s, t, env), t, s.tasks[t].pc.purpose.key, s.tasks[t].pc.purpose.attempt)
  {
    FetchStage(Admitted(s, t, Registry), t, s.tasks[t].pc.purpose.key, s.tasks[t].pc.purpose.attempt, env);
  }

  lemma WokenCalls(s: State, t: TaskId, env: Env)
    requires t in s.tasks && s.tasks[t].pc.AwaitEntry? && s.tasks[t].pc.use.Call?
    ensures On(Woken(s, t, env), t, s.tasks[t].pc.use.key, s.tasks[t].pc.use.attempt)
  {
    var pc := s.tasks[t].pc;
    InCallStage(Admitted(s, t, EntryLock(pc.entry)), t, pc.entry, pc.use.key, pc.use.attempt, env);
  }

  lemma EvictorFetches(s: State, t: TaskId, env: Env)
    requires t in s.tasks && s.tasks[t].pc.CapacityClosing?
    ensures On(Continued(s, t, env), t, s.tasks[t].pc.fetch, s.tasks[t].pc.attempt)
  {
    var pc := s.tasks[t].pc;
    EvictorContinues(s, t, env);
    InsertEntryStage(Popped(CloseDone(s, t), pc.victim), t, pc.fetch, pc.attempt, env);
  }

  lemma HolderContinues(s: State, t: TaskId, env: Env)
    requires t in s.tasks && (s.tasks[t].pc.Rebinding? || s.tasks[t].pc.Connecting? || s.tasks[t].pc.RoundTrip?)
    ensures var pc := s.tasks[t].pc; Continued(s, t, env).tasks[t].pc == match pc
      case Rebinding(e, key, a) => Connecting(e, key, a)
      case Connecting(e, key, a) => RoundTrip(e, key, a)
      case _ => Done(Succeeded)
  {}

  lemma WaiterStays(s: State, t: TaskId, env: Env)
    requires t in s.tasks && s.tasks[t].pc.Wanted().Some?
    ensures Continued(s, t, env) == s
  {}

  lemma ContinuedAdvances(s: State, t: TaskId, env: Env, st: Stage, ev: Event)
    requires t in s.tasks && StageOf(s.tasks[t].pc) == Some(st) && (s.tasks[t].pc.RoundTrip? ==> ev == Proceed(t, env))
    ensures t in Continued(s, t, env).tasks && Advances(st, s.tasks[t].pc, Continued(s, t, env).tasks[t].pc, t, ev)
  {
    var pc := s.tasks[t].pc;
    if pc.Wanted().Some? { WaiterAdvances(s, t, env, st, ev); }
    else if pc.CapacityClosing? { EvictorAdvances(s, t, env, st, ev); }
    else if pc.Breaking? { BreakerAdvances(s, t, env, st, ev); }
    else { HolderAdvances(s, t, env, st, ev); }
  }

  lemma WaiterAdvances(s: State, t: TaskId, env: Env, st: Stage, ev: Event)
    requires t in s.tasks && StageOf(s.tasks[t].pc) == Some(st) && s.tasks[t].pc.Wanted().Some?
    ensures t in Continued(s, t, env).tasks && Advances(st, s.tasks[t].pc, Continued(s, t, env).tasks[t].pc, t, ev)
  {
    WaiterStays(s, t, env);
    SameStageAdvances(st, s.tasks[t].pc, s.tasks[t].pc, t, ev);
  }

  lemma EvictorAdvances(s: State, t: TaskId, env: Env, st: Stage, ev: Event)
    requires t in s.tasks && StageOf(s.tasks[t].pc) == Some(st) && s.tasks[t].pc.CapacityClosing?
    ensures t in Continued(s, t, env).tasks && Advances(st, s.tasks[t].pc, Continued(s, t, env).tasks[t].pc, t, ev)
  {
    EvictorFetches(s, t, env);
    SameStageAdvances(st, s.tasks[t].pc, Continued(s, t, env).tasks[t].pc, t, ev);
  }

  lemma BreakerAdvances(s: State, t: TaskId, env: Env, st: Stage, ev: Event)
    requires t in s.tasks && StageOf(s.tasks[t].pc) == Some(st) && s.tasks[t].pc.Breaking?
    ensures t in Continued(s, t, env).tasks && Advances(st, s.tasks[t].pc, Continued(s, t, env).tasks[t].pc, t, ev)
  {
    BreakContinues(s, t, env, s.tasks[t].pc.key, s.tasks[t].pc.entry);
    LaterStageAdvances(st, s.tasks[t].pc, Continued(s, t, env).tasks[t].pc, t, ev);
  }

  lemma SameStageAdvances(st: Stage, before: Pc, after: Pc, t: TaskId, ev: Event)
    requires StageOf(after) == Some(st)
    ensures Advances(st, before, after, t, ev)
  {}

  lemma LaterStageAdvances(st: Stage, before: Pc, after: Pc, t: TaskId, ev: Event)
    requires st.step.Marking? && StageOf(after) == Some(Stage(st.key, Retrying))
    ensures Advances(st, before, after, t, ev)
  {}

  lemma HolderAdvances(s: State, t: TaskId, env: Env, st: Stage, ev: Event)
    requires t in s.tasks && StageOf(s.tasks[t].pc) == Some(st) && (s.tasks[t].pc.RoundTrip? ==> ev == Proceed(t, env))
    requires s.tasks[t].pc.Rebinding? || s.tasks[t].pc.Connecting? || s.tasks[t].pc.RoundTrip?
    ensures t in Continued(s, t, env).tasks && Advances(st, s.tasks[t].pc, Continued(s, t, env).tasks[t].pc, t, ev)
  {
    HolderContinues(s, t, env);
  }

  lemma CancelledCloseEnds(s: State, t: TaskId, env: Env)
    requires t in s.tasks && s.tasks[t].pc.Closing()
    ensures Raised(s, t, Cancelled, env).tasks[t].pc == Done(Failed(Cancelled))
  {}

  lemma ClosingContinues(s: State, t: TaskId, err: Error, env: Env)
    requires t in s.tasks && s.tasks[t].pc.Closing() && !err.Cancelled?
    ensures Raised(s, t, err, env) == Continued(s, t, env)
  {
    assert s.tasks[t].pc.Wanted().None? && !s.tasks[t].pc.Connecting? && !s.tasks[t].pc.RoundTrip?;
  }

  lemma RaiseAdvances(s: State, t: TaskId, err: Error, env: Env, st: Stage)
    requires Enabled(s, Raise(t, err, env)) && StageOf(s.tasks[t].pc) == Some(st)
    ensures var r := Apply(s, Raise(t, err, env)); t in r.tasks && Advances(st, s.tasks[t].pc, r.tasks[t].pc, t, Raise(t, err, env))
  {
    var pc := s.tasks[t].pc;
    if pc.Closing() {
      if err.Cancelled? {
        CancelledCloseEnds(s, t, env);
      } else {
        ClosingContinues(s, t, err, env);
        ContinuedAdvances(s, t, env, st, Raise(t, err, env));
      }
    } else if pc.AwaitEntry? && pc.use.Break? {
      BreakExactly(s, Raise(t, err, env), pc.use.key, pc.entry);
    } else {
      var a := if st.step.Trying? then First else Second;
      RaiseExactly(s, t, err, env, st.key, a);
      ErrorAdvances(s, Apply(s, Raise(t, err, env)), t, err, env, st.key, a);
    }
  }

  /** Every event, of the call itself or of any other task, keeps the call where it is or advances it so. */
  lemma CallAdvances(s: State, ev: Event, t: TaskId, st: Stage)
    requires Valid(s) && t in s.tasks && StageOf(s.tasks[t].pc) == Some(st)
    ensures t in Apply(s, ev).tasks
    ensures Apply(s, ev).tasks[t] == s.tasks[t] || Advances(st, s.tasks[t].pc, Apply(s, ev).tasks[t].pc, t, ev)
  {
    if Enabled(s, ev) && !ev.CloseLoop? {
      if ev.task != t { ApplyMovesOne(s, ev); }
      else if ev.Wake? { WakeAdvances(s, t, ev.env, st); }
      else if ev.Proceed? { ContinuedAdvances(s, t, ev.env, st, ev); }
      else { RaiseAdvances(s, t, ev.err, ev.env, st); }
    }
  }

  /******* Whole calls *******/

  /** The task is not in a call, and an event other than its next start does not put it into one. */
  lemma NoCallStays(s: State, ev: Event, t: TaskId)
    requires Valid(s) && t in s.tasks && StageOf(s.tasks[t].pc).None? && !(ev.Start? && ev.task == t)
    ensures t in Apply(s, ev).tasks && StageOf(Apply(s, ev).tasks[t].pc).None?
    ensures s.tasks[t].pc.Done? ==> Apply(s, ev).tasks[t] == s.tasks[t]
  {
    if Enabled(s, ev) && !ev.CloseLoop? {
      if ev.task != t { ApplyMovesOne(s, ev); }
      else if ev.Wake? { SweeperWakes(s, t, ev.env); }
      else if ev.Proceed? { SweeperContinues(s, t, ev.env); }
      else { SweeperRaises(s, t, ev.err, ev.env); }
    }
  }

  lemma {:induction false} SweepStage(s: State, t: TaskId, rest: map<Key, EntryId>, env: Env)
    requires t in s.tasks && s.tasks[t].pc.Running? && EntriesBelow(rest, |s.heap|)
    ensures var r := SweepOn(s, t, rest, env); t in r.tasks && StageOf(r.tasks[t].pc).None?
    decreases |rest|
  {
    if |rest| > 0 {
      var k := Choose(rest.Keys, env.pick);
      if !s.heap[rest[k]].connected { SweepStage(Popped(s, k), t, Others(rest, k), env); }
    }
  }

  lemma {:induction false} ShutdownStage(s: State, t: TaskId, rest: map<Key, EntryId>, env: Env)
    requires t in s.tasks && s.tasks[t].pc.Running? && EntriesBelow(rest, |s.heap|)
    ensures var r := ShutdownOn(s, t, rest, env); t in r.tasks && StageOf(r.tasks[t].pc).None?
    decreases |rest|
  {
    if |rest| > 0 {
      var k := Choose(rest.Keys, env.pick);
      if !s.heap[rest[k]].connected { ShutdownStage(s, t, rest - {k}, env); }
    }
  }

  lemma SweeperEnters(s: State, t: TaskId, p: Purpose, env: Env)
    requires t in s.tasks && s.tasks[t].pc.Running? && !p.Fetch?
    ensures var r := InRegistry(s, t, p, env); t in r.tasks && StageOf(r.tasks[t].pc).None?
  {
    if p.Sweep? { SweepStage(s, t, Stale(s, p.now, p.maxIdle), env); } else { ShutdownStage(s, t, s.pool, env); }
  }

  lemma SweeperWakes(s: State, t: TaskId, env: Env)
    requires Enabled(s, Wake(t, env)) && StageOf(s.tasks[t].pc).None?
    ensures var r := Apply(s, Wake(t, env)); t in r.tasks && StageOf(r.tasks[t].pc).None? && !s.tasks[t].pc.Done?
  {
    SweeperEnters(Admitted(s, t, Registry), t, s.tasks[t].pc.purpose, env);
  }

  lemma SweepContinuedStage(s: State, t: TaskId, env: Env)
    requires t in s.tasks && s.tasks[t].pc.SweepClosing?
    ensures var r := SweepContinued(s, t, env); t in r.tasks && StageOf(r.tasks[t].pc).None?
  {
    SweepStage(Popped(CloseDone(s, t), s.tasks[t].pc.victim), t, s.tasks[t].pc.rest, env);
  }

  lemma ShutdownContinuedStage(s: State, t: TaskId, env: Env)
    requires t in s.tasks && s.tasks[t].pc.ShutdownClosing?
    ensures var r := ShutdownContinued(s, t, env); t in r.tasks && StageOf(r.tasks[t].pc).None?
  {
    ShutdownStage(CloseDone(s, t), t, s.tasks[t].pc.rest, env);
  }

  lemma SweeperContinues(s: State, t: TaskId, env: Env)
    requires t in s.tasks && StageOf(s.tasks[t].pc).None?
    ensures var r := Continued(s, t, env); t in r.tasks && StageOf(r.tasks[t].pc).None? && (s.tasks[t].pc.Done? ==> r == s)
  {
    if s.tasks[t].pc.SweepClosing? { SweepContinuedStage(s, t, env); }
    else if s.tasks[t].pc.ShutdownClosing? { ShutdownContinuedStage(s, t, env); }
  }

  lemma SweeperRaises(s: State, t: TaskId, err: Error, env: Env)
    requires t in s.tasks && StageOf(s.tasks[t].pc).None?
    ensures var r := Raised(s, t, err, env); t in r.tasks && StageOf(r.tasks[t].pc).None? && (s.tasks[t].pc.Done? ==> r == s)
  {
    var pc := s.tasks[t].pc;
    if pc.Wanted().Some? { SweeperWaitEnds(s, t, err, env); }
    else if pc.Closing() && err.Cancelled? { CancelledCloseEnds(s, t, env); }
    else { SweeperRunsOn(s, t, err, env); SweeperContinues(s, t, env); }
  }

  lemma SweeperWaitEnds(s: State, t: TaskId, err: Error, env: Env)
    requires t in s.tasks && StageOf(s.tasks[t].pc).None? && s.tasks[t].pc.Wanted().Some?
    ensures var r := Raised(s, t, err, env); t in r.tasks && r.tasks[t].pc == Done(Failed(err))
  {}

  lemma SweeperRunsOn(s: State, t: TaskId, err: Error, env: Env)
    requires t in s.tasks && StageOf(s.tasks[t].pc).None? && s.tasks[t].pc.Wanted().None? && !(s.tasks[t].pc.Closing() && err.Cancelled?)
    ensures Raised(s, t, err, env) == Continued(s, t, env)
  {
    assert !s.tasks[t].pc.Connecting? && !s.tasks[t].pc.RoundTrip?;
  }

  lemma StartStage(s: State, t: TaskId, loop: LoopId, op: Operation, env: Env)
    requires Enabled(s, Start(t, loop, op, env))
    ensures t in Apply(s, Start(t, loop, op, env)).tasks
    ensures if op.CallTool? then On(Apply(s, Start(t, loop, op, env)), t, op.key, First)
            else StageOf(Apply(s, Start(t, loop, op, env)).tasks[t].pc).None?
  {
    var s1: State := s.(tasks := s.tasks[t := Task(loop, Running({}))]);
    match op
    case CallTool(key) => RequestStage(s1, t, key, First, env);
    case EvictIdle(now, maxIdle) => if Free(s1, Registry) { SweeperEnters(Take(s1, t, Registry), t, Sweep(now, maxIdle), env); }
    case CloseAll => if Free(s1, Registry) { SweeperEnters(Take(s1, t, Registry), t, Shutdown, env); }
  }

  function StageIn(s: State, t: TaskId): Option<Stage> {
    if t in s.tasks then StageOf(s.tasks[t].pc) else None
  }

  /** The stages that the present or last call of a task has gone through, with one more event. */
  ghost function StagesAfter(s: State, ev: Event, t: TaskId, before: seq<Stage>): seq<Stage> {
    var so, now := if ev.Start? && ev.task == t && Enabled(s, ev) then [] else before, StageIn(Apply(s, ev), t);
    if now.Some? && (so == [] || so[|so| - 1] != now.value) then so + [now.value] else so
  }

  ghost function Stages(cap: int, events: seq<Event>, t: TaskId): seq<Stage> {
    if events == [] then []
    else
      var before := events[..|events| - 1];
      StagesAfter(After(cap, before), events[|events| - 1], t, Stages(cap, before, t))
  }

  /** One key; from the first attempt on, and only forward: so at most two attempts. */
  ghost predicate Ascending(stages: seq<Stage>) {
    && (stages != [] ==> stages[0].step.Trying?)
    && (forall i, j :: 0 <= i < j < |stages| ==> stages[i].key == stages[j].key && Rank(stages[i].step) < Rank(stages[j].step))
  }

  /** What holds of a task and the stages of its call. */
  ghost predicate CallOk(s: State, t: TaskId, stages: seq<Stage>) {
    && Ascending(stages)
    && (StageIn(s, t).Some? ==> stages != [] && stages[|stages| - 1] == StageIn(s, t).value)
    && (StageIn(s, t).None? && (t !in s.tasks || !s.tasks[t].pc.Done?) ==> stages == [])
    && (t in s.tasks && s.tasks[t].pc == Done(Failed(Reconnectable)) && stages != [] ==> !stages[|stages| - 1].step.Trying?)
  }

  lemma AscendingMore(stages: seq<Stage>, next: Stage)
    requires Ascending(stages) && stages != [] && next.key == stages[|stages| - 1].key && Rank(stages[|stages| - 1].step) < Rank(next.step)
    ensures Ascending(stages + [next])
  {}

  /** One event, in terms of the task before and after it. */
  lemma CallStaysOk(s: State, r: State, t: TaskId, ev: Event, stages: seq<Stage>)
    requires CallOk(s, t, stages) && t in s.tasks && t in r.tasks && !(ev.Start? && ev.task == t)
    requires match StageIn(s, t)
      case Some(st) => r.tasks[t] == s.tasks[t] || Advances(st, s.tasks[t].pc, r.tasks[t].pc, t, ev)
      case None => StageIn(r, t).None? && (s.tasks[t].pc.Done? ==> r.tasks[t] == s.tasks[t])
    ensures var now := StageIn(r, t);
      CallOk(r, t, if now.Some? && (stages == [] || stages[|stages| - 1] != now.value) then stages + [now.value] else stages)
  {
    var now := StageIn(r, t);
    if now.Some? && stages != [] && stages[|stages| - 1] != now.value { AscendingMore(stages, now.value); }
  }

  lemma StepKeepsCall(s: State, ev: Event, t: TaskId, stages: seq<Stage>)
    requires Valid(s) && CallOk(s, t, stages)
    ensures CallOk(Apply(s, ev), t, StagesAfter(s, ev, t, stages))
  {
    if ev.Start? && ev.task == t && Enabled(s, ev) {
      StartStage(s, t, ev.loop, ev.op, ev.env);
    } else if t !in s.tasks {
      NewcomerOnly(s, ev, t);
    } else if Enabled(s, ev) {
      if StageIn(s, t).Some? { CallAdvances(s, ev, t, StageIn(s, t).value); } else { NoCallStays(s, ev, t); }
      CallStaysOk(s, Apply(s, ev), t, ev, stages);
    }
  }

  /** Over every run, for every task: the call goes through its first attempt, then perhaps the marking, then perhaps the
      second attempt, all for one key, and never a third; and a call that ends with a reconnectable error was past its
      first attempt. */
  lemma {:induction false} OneReconnect(cap: int, events: seq<Event>, t: TaskId)
    ensures CallOk(After(cap, events), t, Stages(cap, events, t)) && |Stages(cap, events, t)| <= 3
  {
    if events != [] {
      var before := events[..|events| - 1];
      OneReconnect(cap, before, t);
      ReachableIsValid(cap, before);
      StepKeepsCall(After(cap, before), events[|events| - 1], t, Stages(cap, before, t));
    }
    AscendingIsShort(Stages(cap, events, t));
  }

  lemma NewcomerOnly(s: State, ev: Event, t: TaskId)
    requires Valid(s) && t !in s.tasks && !(ev.Start? && ev.task == t && Enabled(s, ev))
    ensures t !in Apply(s, ev).tasks
  {
    if t in Apply(s, ev).tasks && Enabled(s, ev) && !ev.CloseLoop? { BystanderStays(s, ev, t); }
  }

  lemma {:induction false} RankGrows(stages: seq<Stage>, i: nat)
    requires Ascending(stages) && i < |stages|
    ensures Rank(stages[i].step) >= i
  {
    if i > 0 { RankGrows(stages, i - 1); }
  }

  lemma AscendingIsShort(stages: seq<Stage>)
    requires Ascending(stages)
    ensures |stages| <= 3
  {
    if stages != [] { RankGrows(stages, |stages| - 1); }
  }
}

/**
 What holds of every invocation in every interleaving: it behaves like one sequential run, its
 permit comes back, and a cancellation lets at most one more route call start.
 */
module InvocationTheorems {
  import opened Common
  import opened Invocation
  import opened InvocationGate

  /** Every attempt so far was followed by another one. */
  ghost predicate AllAgain(attempts: seq<Attempt>, n: nat) {
    forall j :: 0 <= j < |attempts| ==> NextOf(attempts[j], j, n) == Again
  }

  /** The recorded ending is that of a sequential run with these attempts and this cancellation check. */
  ghost predicate Explained(p: Proc, ending: Ending, n: nat) {
    exists s: Surroundings :: |s.attempts| == n + 1 && Explains(s, p, ending, n)
  }

  ghost predicate Explains(s: Surroundings, p: Proc, ending: Ending, n: nat)
    requires |s.attempts| == n + 1
  {
    && p.attempts <= s.attempts && s.flagged == p.flagged && Trace(p.writes, p.events, p.routes, ending) == Outcome(s, n)
    && (p.flagged.Some? ==> Flagged(s, Decisive(s, n, 0)))
    && (s.start.Commits? ==> |p.attempts| == Decisive(s, n, 0) + (if p.flagged.Some? then 0 else 1))
    && (!s.start.Commits? ==> p.attempts == [] && p.flagged.None?)
  }

  /** The record of an invocation that has been through `attempts`, all retried, and nothing else. */
  predicate Clean(p: Proc, k: nat) {
    p.start.Commits? && p.flagged.None? && p.writes == [RUNNING] && p.events == LogsBefore(k) && p.routes == k
  }

  ghost predicate ProcOk(p: Proc, n: nat) {
    var k := |p.attempts|;
    && p.cancels <= 1 && p.late <= p.cancels
    && match p.pc
       case Queued => Fresh(p)
       case Granted => Fresh(p)
       case Starting => Fresh(p)
       case Announcing => k > 0 && AllAgain(p.attempts, n) && Clean(p, k) && p.late == 0
       case Routing => AllAgain(p.attempts, n) && p.routes == k + 1 && p.events == LogsBefore(k) + RetryNotice(k) && Clean(p.(routes := k, events := LogsBefore(k)), k)
       case BackingOff => k > 0 && AllAgain(p.attempts, n) && Clean(p, k)
       case MarkingFailed(f) => Marking(p, n) && NextOf(p.attempts[k - 1], k - 1, n) == GiveUp(f)
       case MarkingCancelled =>
         || (p.flagged == Some(k) && AllAgain(p.attempts, n) && Clean(p.(flagged := None), k))
         || (Marking(p, n) && NextOf(p.attempts[k - 1], k - 1, n) == GiveWay)
       case Leaving(e) => Explained(p, e, n)
       case Finished(e) => Explained(p, e, n)
  }

  predicate Fresh(p: Proc) {
    p.attempts == [] && p.flagged.None? && p.writes == [] && p.events == [] && p.routes == 0 && p.late == 0
  }

  /** The last attempt has ended the loop. */
  ghost predicate Marking(p: Proc, n: nat) {
    var k := |p.attempts| - 1;
    && k >= 0 && AllAgain(p.attempts[..k], n) && p.start.Commits? && p.flagged.None?
    && p.writes == [RUNNING] + WritesOf(p.attempts[k])
    && p.events == LogsBefore(k) + EventsOf(p.attempts[k], k) && p.routes == k + RoutesOf(p.attempts[k])
  }

  /** Any attempts will do after the decisive one. */
  function Padded(attempts: seq<Attempt>, n: nat): (r: seq<Attempt>)
    ensures |attempts| <= n + 1 ==> |r| == n + 1 && attempts <= r
  {
    if |attempts| > n then attempts else attempts + seq(n + 1 - |attempts|, _ => Completes(0))
  }

  lemma AgainBoundsAttempts(attempts: seq<Attempt>, n: nat)
    requires AllAgain(attempts, n)
    ensures |attempts| <= n
  {
    assert |attempts| > n ==> NextOf(attempts[n], n, n) != Again;
  }

  /******* Steps of one run *******/

  lemma CheckedOk(p: Proc, flag: bool, n: nat)
    requires AllAgain(p.attempts, n) && Clean(p, |p.attempts|) && p.cancels <= 1 && p.late <= p.cancels
    requires flag <==> p.cancels > 0
    ensures ProcOk(Checked(p, flag), n)
  {}

  lemma RoutedOk(p: Proc, n: nat)
    requires ProcOk(p, n) && p.pc.Announcing?
    ensures ProcOk(Routed(p), n)
  {}

  lemma BegunOk(p: Proc, w: Write, flag: bool, n: nat)
    requires ProcOk(p, n) && p.pc.Starting? && (flag <==> p.cancels > 0)
    ensures ProcOk(Begun(p, w, flag), n)
  {
    if w.Commits? {
      CheckedOk(p.(start := w, writes := [RUNNING], events := [Log]), flag, n);
    } else {
      var s := Surroundings(w, Padded([], n), None, Commits);
      assert Explains(s, Begun(p, w, flag), Escaped, n);
    }
  }

  /** What the record of an ended attempt looks like, whatever the attempt leads to. */
  lemma EndedRecord(p: Proc, a: Attempt, n: nat)
    requires ProcOk(p, n) && (if a.CancelledBeforeRoute? then p.pc.Announcing? else p.pc.Routing?)
    ensures var q := Ended(p, a, n); var k := |p.attempts|;
      && q.attempts[..k] == p.attempts && q.attempts[k] == a && |q.attempts| == k + 1 && AllAgain(p.attempts, n) && k <= n
      && q.start.Commits? && q.flagged.None? && q.writes == [RUNNING] + WritesOf(a)
      && q.events == LogsBefore(k) + EventsOf(a, k) && q.routes == k + RoutesOf(a)
  {
    AgainBoundsAttempts(p.attempts, n);
    var k := |p.attempts|;
    assert LogsBefore(k) + RetryNotice(k) + EventsAfterRoute(a) == LogsBefore(k) + (RetryNotice(k) + EventsAfterRoute(a));
  }

  lemma EndedOk(p: Proc, a: Attempt, n: nat)
    requires ProcOk(p, n) && (if a.CancelledBeforeRoute? then p.pc.Announcing? else p.pc.Routing?)
    ensures ProcOk(Ended(p, a, n), n)
  {
    EndedRecord(p, a, n);
    var q, k := Ended(p, a, n), |p.attempts|;
    match NextOf(a, k, n)
    case Again =>
      assert LogsBefore(k + 1) == LogsBefore(k) + EventsOf(a, k);
    case GiveUp(_) =>
    case GiveWay =>
    case _ =>
      var s := Surroundings(Commits, Padded(q.attempts, n), None, Commits);
      LastAttemptDecides(s, q, n);
      assert Explains(s, q, q.pc.ending, n);
  }

  /** The last recorded attempt is the decisive one of the sequential run. */
  lemma LastAttemptDecides(s: Surroundings, p: Proc, n: nat)
    requires |s.attempts| == n + 1 && p.attempts <= s.attempts && p.attempts != [] && s.flagged.None?
    requires var k := |p.attempts| - 1; AllAgain(p.attempts[..k], n) && NextOf(p.attempts[k], k, n) != Again
    ensures Decisive(s, n, 0) == |p.attempts| - 1 && s.attempts[|p.attempts| - 1] == p.attempts[|p.attempts| - 1]
  {
    var k := |p.attempts| - 1;
    assert forall j :: 0 <= j < k ==> s.attempts[j] == p.attempts[..k][j];
    assert s.attempts[k] == p.attempts[k];
  }

  lemma FlagDecides(s: Surroundings, p: Proc, n: nat)
    requires |s.attempts| == n + 1 && p.attempts <= s.attempts && AllAgain(p.attempts, n)
    requires s.flagged == Some(|p.attempts|)
    ensures Decisive(s, n, 0) == |p.attempts|
  {
    AgainBoundsAttempts(p.attempts, n);
    assert Flagged(s, |p.attempts|);
    assert forall j :: 0 <= j < |p.attempts| ==> s.attempts[j] == p.attempts[j] && !Flagged(s, j);
  }

  lemma ConcludedOk(p: Proc, w: Write, n: nat)
    requires ProcOk(p, n) && (p.pc.MarkingFailed? || p.pc.MarkingCancelled?)
    ensures ProcOk(Concluded(p, w), n)
  {
    if p.pc.MarkingCancelled? && p.flagged == Some(|p.attempts|) {
      FlaggedExplains(p, w, n);
    } else {
      MarkingExplains(p, w, n);
    }
  }

  lemma FlaggedExplains(p: Proc, w: Write, n: nat)
    requires p.pc.MarkingCancelled? && p.flagged == Some(|p.attempts|) && AllAgain(p.attempts, n)
    requires Clean(p.(flagged := None), |p.attempts|)
    ensures Explained(Concluded(p, w), Concluded(p, w).pc.ending, n)
  {
    var q := Concluded(p, w);
    AgainBoundsAttempts(p.attempts, n);
    var s := Surroundings(Commits, Padded(p.attempts, n), p.flagged, w);
    FlagDecides(s, p, n);
    assert Explains(s, q, q.pc.ending, n);
  }

  lemma MarkingExplains(p: Proc, w: Write, n: nat)
    requires Marking(p, n) && (p.pc.MarkingFailed? || p.pc.MarkingCancelled?)
    requires var k := |p.attempts| - 1;
      NextOf(p.attempts[k], k, n) == if p.pc.MarkingFailed? then GiveUp(p.pc.failure) else GiveWay
    ensures Explained(Concluded(p, w), Concluded(p, w).pc.ending, n)
  {
    var q, k := Concluded(p, w), |p.attempts| - 1;
    AgainBoundsAttempts(p.attempts[..k], n);
    var s := Surroundings(Commits, Padded(p.attempts, n), None, w);
    LastAttemptDecides(s, p, n);
    assert Explains(s, q, q.pc.ending, n);
  }

  /******* All runs *******/

  /** Every record is in order, and the registry holds exactly the invocations that have not left, each with
      a flag that says whether a `cancel` succeeded. */
  ghost predicate RunsOk(s: State) {
    && (forall id <- s.procs :: ProcOk(s.procs[id], s.retries))
    && (forall id :: id in s.registry <==> id in s.procs && !s.procs[id].pc.Finished?)
    && (forall id <- s.registry :: id in s.procs && (s.registry[id] <==> s.procs[id].cancels > 0))
  }

  ghost predicate Valid(s: State) {
    PermitsOk(s) && RunsOk(s)
  }

  lemma GrantsKeepRuns(s: State, r: State)
    requires RunsOk(s) && OnlyGrants(s, r) && forall id <- s.queue :: id in s.procs ==> s.procs[id].pc.Queued?
    ensures RunsOk(r)
  {}

  lemma UpdateKeepsRuns(s: State, r: State, id: Id, p: Proc)
    requires RunsOk(s) && id in s.procs && !s.procs[id].pc.Finished? && ProcOk(p, s.retries)
    requires !p.pc.Finished? && p.cancels == s.procs[id].cancels
    requires r.procs == s.procs[id := p] && r.registry == s.registry && r.retries == s.retries
    ensures RunsOk(r)
  {}

  lemma MovedKeepsRuns(s: State, id: Id, p: Proc)
    requires Valid(s) && id in s.procs && s.procs[id].pc.Holds() && ProcOk(p, s.retries)
    requires !p.pc.Finished? && p.cancels == s.procs[id].cancels
    ensures RunsOk(Moved(s, id, p))
  {
    var r := Update(s, id, p).(value := s.value + (if p.pc.Leaving? then 1 else 0));
    UpdateKeepsRuns(s, r, id, p);
    if p.pc.Leaving? {
      QueuedAre(s);
      GrantsKeepRuns(r, Moved(s, id, p));
    }
  }

  lemma QueuedAre(s: State)
    requires QueueOk(s)
    ensures forall id <- s.queue :: id in s.procs && s.procs[id].pc.Queued?
  {
    forall id <- s.queue ensures id in s.procs && s.procs[id].pc.Queued? {
      var i :| 0 <= i < |s.queue| && s.queue[i] == id;
    }
  }

  /** An invocation outside any run step: it resumes, or its wait is cancelled. */
  lemma WaiterKeepsRuns(s: State, r: State, id: Id, p: Proc)
    requires Valid(s) && id in s.procs && !s.procs[id].pc.Finished? && ProcOk(p, s.retries)
    requires !p.pc.Finished? && p.cancels == s.procs[id].cancels
    requires r == s.(procs := s.procs[id := p], value := r.value, queue := r.queue)
    requires forall j <- r.queue :: j in s.queue && j != id
    ensures RunsOk(WakeAll(r))
  {
    QueuedAre(s);
    UpdateKeepsRuns(s, r, id, p);
    GrantsKeepRuns(r, WakeAll(r));
  }

  lemma ResumeKeepsRuns(s: State, id: Id)
    requires Valid(s) && Enabled(s, Resume(id))
    ensures RunsOk(WakeAll(SetPc(s, id, Starting)))
  {
    QueuedAre(s);
    assert ProcOk(s.procs[id], s.retries);
    WaiterKeepsRuns(s, SetPc(s, id, Starting), id, s.procs[id].(pc := Starting));
  }

  lemma CancelledWaiterOk(p: Proc, n: nat)
    requires ProcOk(p, n) && (p.pc.Queued? || p.pc.Granted?)
    ensures ProcOk(p.(pc := Leaving(Escaped), start := Raises), n)
  {
    assert Explains(Surroundings(Raises, Padded([], n), None, Commits), p.(pc := Leaving(Escaped), start := Raises), Escaped, n);
  }

  lemma CancelWaitKeepsRuns(s: State, id: Id)
    requires Valid(s) && Enabled(s, CancelWait(id))
    ensures RunsOk(WaitCancelled(s, id))
  {
    QueuedAre(s);
    var p := s.procs[id].(pc := Leaving(Escaped), start := Raises);
    assert ProcOk(s.procs[id], s.retries);
    CancelledWaiterOk(s.procs[id], s.retries);
    WaiterOutQueue(s, id);
    WaiterKeepsRuns(s, WaiterOut(s, id), id, p);
  }

  /** Whoever waits after the cancellation waited before. */
  lemma WaiterOutQueue(s: State, id: Id)
    requires QueueOk(s) && Enabled(s, CancelWait(id))
    ensures forall j <- WaiterOut(s, id).queue :: j in s.queue && j != id
  {
    QueuedAre(s);
    WithoutIsRemoval(s.queue, id);
  }

  lemma SubmitKeepsRuns(s: State, id: Id)
    requires Valid(s) && Enabled(s, Submit(id))
    ensures RunsOk(Submitted(s, id))
  {
    var r := Submitted(s, id);
    NewProcOk(r.procs[id], s.retries);
    forall j <- r.procs ensures ProcOk(r.procs[j], r.retries) { if j != id { assert ProcOk(s.procs[j], s.retries); } }
  }

  lemma NewProcOk(p: Proc, n: nat)
    requires Fresh(p) && p.cancels == 0 && (p.pc.Queued? || p.pc.Starting?)
    ensures ProcOk(p, n)
  {}

  lemma LeaveKeepsRuns(s: State, id: Id)
    requires Valid(s) && Enabled(s, Leave(id))
    ensures RunsOk(Left(s, id))
  {
    var r, p := Left(s, id), s.procs[id];
    assert ProcOk(p, s.retries);
    ExplainedAlike(p, r.procs[id], p.pc.ending, s.retries);
    forall j <- r.procs ensures ProcOk(r.procs[j], r.retries) { if j != id { assert ProcOk(s.procs[j], s.retries); } }
  }

  lemma ExplainedAlike(p: Proc, q: Proc, ending: Ending, n: nat)
    requires Explained(p, ending, n) && q == p.(pc := q.pc, cancels := q.cancels)
    ensures Explained(q, ending, n)
  {
    var s: Surroundings :| |s.attempts| == n + 1 && Explains(s, p, ending, n);
    assert Explains(s, q, ending, n);
  }

  lemma CancelledProcOk(p: Proc, n: nat)
    requires ProcOk(p, n) && p.cancels == 0 && !p.pc.Finished?
    ensures ProcOk(p.(cancels := 1), n)
  {
    if p.pc.Leaving? { ExplainedAlike(p, p.(cancels := 1), p.pc.ending, n); }
  }

  lemma CancelKeepsRuns(s: State, id: Id)
    requires Valid(s)
    ensures RunsOk(CancelRequested(s, id))
  {
    if id in s.registry && !s.registry[id] {
      var r, p := CancelRequested(s, id), s.procs[id];
      assert ProcOk(p, s.retries) && p.cancels == 0;
      CancelledProcOk(p, s.retries);
      forall j <- r.procs ensures ProcOk(r.procs[j], r.retries) { if j != id { assert ProcOk(s.procs[j], s.retries); } }
    }
  }

  lemma SuccessorOk(s: State, step: Step)
    requires Valid(s) && Enabled(s, step) && IsRunStep(step)
    ensures ProcOk(Successor(s, step), s.retries)
  {
    var p, n := s.procs[step.id], s.retries;
    assert ProcOk(p, n) && (Flag(s, step.id) <==> p.cancels > 0);
    match step
    case Started(id, w) => BegunOk(p, w, Flag(s, id), n);
    case Announced(id, cancelled) => if cancelled { EndedOk(p, CancelledBeforeRoute, n); } else { RoutedOk(p, n); }
    case RouteEnds(id, a) => EndedOk(p, a, n);
    case BackoffEnds(id) => CheckedOk(p, Flag(s, id), n);
    case LastWrite(id, w) => ConcludedOk(p, w, n);
  }

  lemma RunStepKeepsRuns(s: State, step: Step)
    requires Valid(s) && Enabled(s, step) && IsRunStep(step)
    ensures RunsOk(Moved(s, step.id, Successor(s, step)))
  {
    SuccessorOk(s, step);
    MovedKeepsRuns(s, step.id, Successor(s, step));
  }

  lemma StepKeepsRuns(s: State, step: Step)
    requires Valid(s)
    ensures RunsOk(Apply(s, step))
  {
    if Enabled(s, step) {
      if IsRunStep(step) { RunStepKeepsRuns(s, step); }
      else if step.Submit? { SubmitKeepsRuns(s, step.id); }
      else if step.Leave? { LeaveKeepsRuns(s, step.id); }
      else if step.Cancel? { CancelKeepsRuns(s, step.id); }
      else if step.Resume? { ResumeKeepsRuns(s, step.id); }
      else { CancelWaitKeepsRuns(s, step.id); }
    }
  }

  lemma {:induction false} ReachableIsValid(retries: nat, cap: nat, steps: seq<Step>)
    ensures var s := After(retries, cap, steps); Valid(s) && s.cap == cap && s.retries == retries
  {
    if steps == [] {
      assert Holders(Init(retries, cap).procs) == {};
    } else {
      var before := steps[..|steps| - 1];
      ReachableIsValid(retries, cap, before);
      StepKeepsPermits(After(retries, cap, before), steps[|steps| - 1]);
      StepKeepsRuns(After(retries, cap, before), steps[|steps| - 1]);
    }
  }

  /******* What every interleaving promises *******/

  function InFlight(s: State): set<Id> {
    set id | id in s.procs && s.procs[id].pc.Routing?
  }

  /** In every reachable state: free permits plus permit holders make the cap, at most `cap` route calls are in
      flight, an invocation that has left or finished holds no permit, and no permit is idle while a waiter
      has nobody to wake it. */
  lemma PermitsAreConserved(retries: nat, cap: nat, steps: seq<Step>)
    ensures var s := After(retries, cap, steps);
      && s.value + |Holders(s.procs)| == cap
      && |InFlight(s)| <= cap
      && (forall id <- s.procs :: s.procs[id].pc.Leaving? || s.procs[id].pc.Finished? ==> id !in Holders(s.procs))
      && (s.value > 0 && s.queue != [] ==> SomeGranted(s))
  {
    ReachableIsValid(retries, cap, steps);
    var s := After(retries, cap, steps);
    SubsetSize(InFlight(s), Holders(s.procs));
  }

  predicate SameRecord(p: Proc, q: Proc) {
    p.writes == q.writes && p.events == q.events && p.routes == q.routes
  }

  /** A status is committed, an event published or a route call started only by an invocation that holds a
      permit, in a step of its own. */
  lemma OnlyHoldersAct(s: State, step: Step, id: Id)
    requires id in s.procs
    ensures id in Apply(s, step).procs
    ensures !SameRecord(s.procs[id], Apply(s, step).procs[id]) ==> id in Holders(s.procs) && step.id == id
  {
    if Enabled(s, step) && IsRunStep(step) {
      var p := Successor(s, step);
      assert s.procs[step.id].pc.Holds();
      assert OnlyGrants(Update(s, step.id, p).(value := s.value + 1), WakeNext(Update(s, step.id, p).(value := s.value + 1)));
    }
  }

  /** However the runs interleave, a finished invocation has committed, published and returned exactly what
      the sequential loop does on the attempts it saw. */
  lemma InterleavedRunsAreSequential(retries: nat, cap: nat, steps: seq<Step>, id: Id)
    requires var s := After(retries, cap, steps); id in s.procs && s.procs[id].pc.Finished?
    ensures var p := After(retries, cap, steps).procs[id]; Explained(p, p.pc.ending, retries)
  {
    ReachableIsValid(retries, cap, steps);
    var s := After(retries, cap, steps);
    assert ProcOk(s.procs[id], retries);
  }

  /** So its last committed status is the one its reply reports, and it made at most `retries + 1` route calls. */
  lemma FinishedRunsAreConsistent(retries: nat, cap: nat, steps: seq<Step>, id: Id)
    requires var s := After(retries, cap, steps); id in s.procs && s.procs[id].pc.Finished? && s.procs[id].pc.ending.Returned?
    ensures var p := After(retries, cap, steps).procs[id];
      && p.routes <= retries + 1 && p.writes != []
      && p.writes[|p.writes| - 1] == match p.pc.ending.reply
           case Result(v) => DONE(v)
           case ToolError(f) => FAILED(f)
           case CancelledError => CANCELLED
  {
    InterleavedRunsAreSequential(retries, cap, steps, id);
    var p := After(retries, cap, steps).procs[id];
    var s: Surroundings :| |s.attempts| == retries + 1 && Explains(s, p, p.pc.ending, retries);
    ReplyMatchesStatus(s, retries);
    RetriesOnlyTransientFailures(s, retries);
  }

  /** And it has published exactly one final event, of the kind of its reply; none if it gave way to the cancellation
      flag, and at most the result if its task was cancelled. */
  lemma FinishedRunsPublishOneFinal(retries: nat, cap: nat, steps: seq<Step>, id: Id)
    requires var s := After(retries, cap, steps); id in s.procs && s.procs[id].pc.Finished? && s.procs[id].pc.ending.Returned?
    ensures var p := After(retries, cap, steps).procs[id];
      match p.pc.ending.reply
      case Result(v) => Finals(p.events) == [ResultEvent(v)]
      case ToolError(f) => Finals(p.events) == [ErrorEvent(f)]
      case CancelledError => if p.flagged.Some? then Finals(p.events) == [] else |Finals(p.events)| <= 1
  {
    InterleavedRunsAreSequential(retries, cap, steps, id);
    var p := After(retries, cap, steps).procs[id];
    var s: Surroundings :| |s.attempts| == retries + 1 && Explains(s, p, p.pc.ending, retries);
    OneFinalEvent(s, retries);
  }

  /** The attempts of a finished run: each but the last, and the last as well if the run then saw the cancellation flag,
      failed with something that may go away; a last one that failed was the last allowed or failed with something else. */
  ghost predicate RetriedExactly(p: Proc, n: nat) {
    && (forall j :: 0 <= j < |p.attempts| - (if p.flagged.Some? then 0 else 1) ==>
          exists f :: FailsWith(p.attempts[j], f) && MayGoAway(f))
    && (p.flagged.None? && p.attempts != [] ==>
          forall f :: FailsWith(p.attempts[|p.attempts| - 1], f) ==> |p.attempts| == n + 1 || !MayGoAway(f))
  }

  /** In any interleaving, a finished run has gone on exactly after failures that may go away. */
  lemma FinishedRunsRetryExactly(retries: nat, cap: nat, steps: seq<Step>, id: Id)
    requires var s := After(retries, cap, steps); id in s.procs && s.procs[id].pc.Finished?
    ensures RetriedExactly(After(retries, cap, steps).procs[id], retries)
  {
    InterleavedRunsAreSequential(retries, cap, steps, id);
    var p := After(retries, cap, steps).procs[id];
    var s: Surroundings :| |s.attempts| == retries + 1 && Explains(s, p, p.pc.ending, retries);
    ExplainedRetries(s, p, p.pc.ending, retries);
  }

  lemma ExplainedRetries(s: Surroundings, p: Proc, ending: Ending, n: nat)
    requires |s.attempts| == n + 1 && Explains(s, p, ending, n)
    ensures RetriedExactly(p, n)
  {
    if s.start.Commits? {
      var d := Decisive(s, n, 0);
      forall j | 0 <= j < d ensures exists f :: FailsWith(p.attempts[j], f) && MayGoAway(f) {
        assert p.attempts[j] == s.attempts[j] && NextOf(s.attempts[j], j, n) == Again;
        assert FailsWith(p.attempts[j], Caught(p.attempts[j]).value);
      }
    }
  }

  /** A successful run in any interleaving publishes its result last but for the audit entry. */
  lemma FinishedRunsEndWithAudit(retries: nat, cap: nat, steps: seq<Step>, id: Id)
    requires var s := After(retries, cap, steps);
      id in s.procs && s.procs[id].pc.Finished? && s.procs[id].pc.ending.Returned? && s.procs[id].pc.ending.reply.Result?
    ensures var events := After(retries, cap, steps).procs[id].events; events == Cut(events) + [Log]
  {
    InterleavedRunsAreSequential(retries, cap, steps, id);
    var p := After(retries, cap, steps).procs[id];
    var s: Surroundings :| |s.attempts| == retries + 1 && Explains(s, p, p.pc.ending, retries);
    StreamEndsBeforeAudit(s, retries);
  }

  /** Events are only ever added. */
  lemma EventsGrow(s: State, step: Step, id: Id)
    requires Valid(s) && id in s.procs
    ensures id in Apply(s, step).procs && s.procs[id].events <= Apply(s, step).procs[id].events
  {
    OnlyHoldersAct(s, step, id);
    if Enabled(s, step) && IsRunStep(step) && step.id == id { SuccessorEvents(s, step); MovedEvents(s, id, Successor(s, step)); }
  }

  lemma SuccessorEvents(s: State, step: Step)
    requires Valid(s) && Enabled(s, step) && IsRunStep(step)
    ensures s.procs[step.id].events <= Successor(s, step).events
  {
    var p := s.procs[step.id];
    assert ProcOk(p, s.retries);
    match step
    case Started(id, w) => BegunEvents(p, w, Flag(s, id));
    case Announced(_, cancelled) => if cancelled { EndedEvents(p, CancelledBeforeRoute, s.retries); }
    case RouteEnds(_, a) => EndedEvents(p, a, s.retries);
    case BackoffEnds(_) =>
    case LastWrite(_, w) => ConcludedEvents(p, w);
  }

  lemma BegunEvents(p: Proc, w: Write, flag: bool)
    requires p.events == []
    ensures p.events <= Begun(p, w, flag).events
  {}

  lemma EndedEvents(p: Proc, a: Attempt, n: nat)
    ensures p.events <= Ended(p, a, n).events
  {}

  lemma ConcludedEvents(p: Proc, w: Write)
    ensures p.events <= Concluded(p, w).events
  {}

  lemma MovedEvents(s: State, id: Id, p: Proc)
    ensures id in Moved(s, id, p).procs && Moved(s, id, p).procs[id].events == p.events
  {}

  /** `cancel(id)` returns True at most once, at most one route call starts after that, and the registry holds
      exactly the invocations between registering and leaving. */
  lemma CancellationIsPrompt(retries: nat, cap: nat, steps: seq<Step>)
    ensures var s := After(retries, cap, steps);
      && (forall id <- s.procs :: s.procs[id].cancels <= 1 && s.procs[id].late <= s.procs[id].cancels)
      && (forall id :: id in s.registry <==> id in s.procs && !s.procs[id].pc.Finished?)
  {
    ReachableIsValid(retries, cap, steps);
    var s := After(retries, cap, steps);
    forall id <- s.procs ensures s.procs[id].cancels <= 1 && s.procs[id].late <= s.procs[id].cancels {
      assert ProcOk(s.procs[id], s.retries);
    }
  }
}

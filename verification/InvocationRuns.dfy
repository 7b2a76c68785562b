/**
 The converse of the refinement: whatever the surroundings of a sequential run, some interleaved run of the gate does
 exactly that. And what each step of the gate does to its queue and its flags.
 */
module InvocationRuns {
  import opened Common
  import opened Invocation
  import opened InvocationGate
  import opened InvocationTheorems

  /** The state after some more steps. */
  function Run(s: State, more: seq<Step>): State
    decreases |more|
  {
    if more == [] then s else Run(Apply(s, more[0]), more[1..])
  }

  /** The invocation has finished and left exactly this trace. */
  ghost predicate Ends(s: State, id: Id, t: Trace) {
    id in s.procs && s.procs[id].pc == Finished(t.ending) && Matches(s.procs[id], t)
  }

  predicate Matches(p: Proc, t: Trace) {
    p.writes == t.writes && p.events == t.events && p.routes == t.routes
  }

  lemma EndsAfter(s: State, step: Step, more: seq<Step>, id: Id, t: Trace)
    requires Ends(Run(Apply(s, step), more), id, t)
    ensures Ends(Run(s, [step] + more), id, t)
  {
    assert ([step] + more)[1..] == more;
  }

  /** Nobody waits. */
  ghost predicate Quiet(s: State, id: Id) {
    Valid(s) && s.queue == [] && id in s.procs && id in s.registry
  }

  lemma MovedAlone(s: State, id: Id, p: Proc)
    requires s.queue == []
    ensures var r := Moved(s, id, p); r.procs == s.procs[id := p] && r.queue == [] && r.registry == s.registry && r.retries == s.retries
  {}

  lemma QuietStep(s: State, step: Step)
    requires Quiet(s, step.id) && Enabled(s, step) && IsRunStep(step)
    ensures var r := Apply(s, step);
      Quiet(r, step.id) && r.procs[step.id] == Successor(s, step) && r.registry == s.registry && r.retries == s.retries
  {
    StepKeepsPermits(s, step);
    StepKeepsRuns(s, step);
    MovedAlone(s, step.id, Successor(s, step));
    RunStepMoves(s, step);
  }

  lemma RunStepMoves(s: State, step: Step)
    requires Enabled(s, step) && IsRunStep(step)
    ensures Apply(s, step) == Moved(s, step.id, Successor(s, step))
  {}

  lemma QuietCancel(s: State, id: Id)
    requires Quiet(s, id) && !s.registry[id]
    ensures var r := Apply(s, Cancel(id));
      Quiet(r, id) && r.procs[id] == s.procs[id].(cancels := s.procs[id].cancels + 1) && r.registry[id] && r.retries == s.retries
  {
    StepKeepsPermits(s, Cancel(id));
    StepKeepsRuns(s, Cancel(id));
    CancelSets(s, id);
  }

  lemma CancelSets(s: State, id: Id)
    requires id in s.registry && !s.registry[id] && id in s.procs
    ensures var r := Apply(s, Cancel(id));
      && r.procs == s.procs[id := s.procs[id].(cancels := s.procs[id].cancels + 1)]
      && r.registry == s.registry[id := true] && r.queue == s.queue && r.retries == s.retries
  {}

  lemma LeaveEnds(s: State, id: Id, t: Trace)
    requires id in s.procs && s.procs[id].pc == Leaving(t.ending) && Matches(s.procs[id], t)
    ensures Ends(Run(s, [Leave(id)]), id, t)
  {
    assert [Leave(id)][1..] == [];
  }

  lemma ConcludeEnds(s: State, id: Id, w: Write, t: Trace)
    requires Quiet(s, id) && (s.procs[id].pc.MarkingFailed? || s.procs[id].pc.MarkingCancelled?)
    requires var p := s.procs[id]; Concluded(p, w).pc == Leaving(t.ending) && Matches(Concluded(p, w), t)
    ensures Ends(Run(s, [LastWrite(id, w)] + [Leave(id)]), id, t)
  {
    QuietStep(s, LastWrite(id, w));
    LeaveEnds(Apply(s, LastWrite(id, w)), id, t);
    EndsAfter(s, LastWrite(id, w), [Leave(id)], id, t);
  }

  /******* One attempt after the other *******/

  /** All checks and attempts before number `k` lead on. */
  ghost predicate LeadsTo(sur: Surroundings, n: nat, k: nat)
    requires k <= n < |sur.attempts|
  {
    forall j :: 0 <= j < k ==> !Flagged(sur, j) && NextOf(sur.attempts[j], j, n) == Again
  }

  /** The invocation is about to make check number `k`. */
  ghost predicate AtCheck(s: State, id: Id, sur: Surroundings, k: nat)
    requires k <= s.retries < |sur.attempts|
  {
    && Quiet(s, id) && !s.registry[id] && sur.start.Commits? && LeadsTo(sur, s.retries, k)
    && var p := s.procs[id]; p.attempts == sur.attempts[..k] && (if k == 0 then p.pc.Starting? else p.pc.BackingOff?)
  }

  /** The step that makes the check. */
  function CheckStep(id: Id, k: nat): Step {
    if k == 0 then Started(id, Commits) else BackoffEnds(id)
  }

  lemma DecidesAt(sur: Surroundings, n: nat, k: nat)
    requires k <= n < |sur.attempts| && LeadsTo(sur, n, k) && (Flagged(sur, k) || NextOf(sur.attempts[k], k, n) != Again)
    ensures Decisive(sur, n, 0) == k
  {}

  /** What the invocation is after the check. */
  lemma CheckMakes(s: State, id: Id, k: nat)
    requires Quiet(s, id) && (if k == 0 then s.procs[id].pc.Starting? else s.procs[id].pc.BackingOff?) && |s.procs[id].attempts| == k
    ensures var step := CheckStep(id, k); var p, q := s.procs[id], Successor(s, step);
      && Enabled(s, step) && IsRunStep(step)
      && q.attempts == p.attempts
      && (if s.registry[id] then q.pc.MarkingCancelled? && q.writes == [RUNNING] && q.events == LogsBefore(k) && q.routes == k
          else if k == 0 then q.pc.Routing? else q.pc.Announcing?)
  {
    assert ProcOk(s.procs[id], s.retries);
  }

  lemma FlaggedConclusion(q: Proc, sur: Surroundings, n: nat, k: nat)
    requires k <= n < |sur.attempts| && sur.start.Commits? && LeadsTo(sur, n, k) && Flagged(sur, k)
    requires q.pc.MarkingCancelled? && q.writes == [RUNNING] && q.events == LogsBefore(k) && q.routes == k
    ensures var t := Outcome(sur, n); Concluded(q, sur.last).pc == Leaving(t.ending) && Matches(Concluded(q, sur.last), t)
  {
    DecidesAt(sur, n, k);
  }

  lemma FlaggedCheckEnds(s: State, id: Id, sur: Surroundings, k: nat)
    requires k <= s.retries < |sur.attempts| && AtCheck(s, id, sur, k) && Flagged(sur, k)
    ensures Ends(Run(s, [Cancel(id)] + ([CheckStep(id, k)] + ([LastWrite(id, sur.last)] + [Leave(id)]))), id, Outcome(sur, s.retries))
  {
    var s1, step := Apply(s, Cancel(id)), CheckStep(id, k);
    var rest, t := [LastWrite(id, sur.last)] + [Leave(id)], Outcome(sur, s.retries);
    QuietCancel(s, id);
    CheckMakes(s1, id, k);
    QuietStep(s1, step);
    FlaggedConclusion(Successor(s1, step), sur, s.retries, k);
    ConcludeEnds(Apply(s1, step), id, sur.last, t);
    EndsAfter(s1, step, rest, id, t);
    EndsAfter(s, Cancel(id), [step] + rest, id, t);
  }

  /** The attempt that decides, at its end. */
  ghost predicate AtEnd(q: Proc, sur: Surroundings, n: nat, k: nat)
    requires k <= n < |sur.attempts|
  {
    var a := sur.attempts[k];
    && q.writes == [RUNNING] + WritesOf(a) && q.events == LogsBefore(k) + EventsOf(a, k) && q.routes == k + RoutesOf(a)
    && match NextOf(a, k, n)
       case Again => q.pc.BackingOff?
       case GiveUp(f) => q.pc == MarkingFailed(f)
       case GiveWay => q.pc.MarkingCancelled?
       case Answer(v) => q.pc == Leaving(Returned(Result(v)))
       case Escape => q.pc == Leaving(Escaped)
  }

  lemma EndedIsAtEnd(p: Proc, sur: Surroundings, n: nat, k: nat)
    requires k <= n < |sur.attempts| && ProcOk(p, n) && |p.attempts| == k
    requires if sur.attempts[k].CancelledBeforeRoute? then p.pc.Announcing? else p.pc.Routing?
    ensures AtEnd(Ended(p, sur.attempts[k], n), sur, n, k)
  {
    EndedRecord(p, sur.attempts[k], n);
  }

  /** From the end of the deciding attempt to the end of the run. */
  lemma DecisiveEnds(s: State, id: Id, sur: Surroundings, k: nat) returns (more: seq<Step>)
    requires k <= s.retries < |sur.attempts| && sur.start.Commits? && LeadsTo(sur, s.retries, k) && !Flagged(sur, k)
    requires Quiet(s, id) && AtEnd(s.procs[id], sur, s.retries, k) && NextOf(sur.attempts[k], k, s.retries) != Again
    ensures Ends(Run(s, more), id, Outcome(sur, s.retries))
  {
    DecidesAt(sur, s.retries, k);
    if s.procs[id].pc.Leaving? {
      more := [Leave(id)];
      LeaveEnds(s, id, Outcome(sur, s.retries));
    } else {
      more := [LastWrite(id, sur.last)] + [Leave(id)];
      ConcludeEnds(s, id, sur.last, Outcome(sur, s.retries));
    }
  }

  /** The invocation has passed check number `k`, or is in its route call. */
  ghost predicate OnAttempt(s: State, id: Id, sur: Surroundings, k: nat)
    requires k <= s.retries < |sur.attempts|
  {
    && sur.start.Commits? && LeadsTo(sur, s.retries, k) && !Flagged(sur, k) && !sur.attempts[0].CancelledBeforeRoute?
    && Quiet(s, id) && !s.registry[id] && s.procs[id].attempts == sur.attempts[..k]
  }

  lemma CheckPasses(s: State, id: Id, sur: Surroundings, k: nat)
    requires k <= s.retries < |sur.attempts| && AtCheck(s, id, sur, k) && !sur.attempts[0].CancelledBeforeRoute? && !Flagged(sur, k)
    ensures var r := Apply(s, CheckStep(id, k));
      r.retries == s.retries && OnAttempt(r, id, sur, k) && if k == 0 then r.procs[id].pc.Routing? else r.procs[id].pc.Announcing?
  {
    CheckMakes(s, id, k);
    QuietStep(s, CheckStep(id, k));
  }

  lemma RouteIsOver(s: State, id: Id, sur: Surroundings, k: nat)
    requires k <= s.retries < |sur.attempts| && OnAttempt(s, id, sur, k) && s.procs[id].pc.Routing? && !sur.attempts[k].CancelledBeforeRoute?
    ensures var r := Apply(s, RouteEnds(id, sur.attempts[k]));
      && r.retries == s.retries && Quiet(r, id) && !r.registry[id] && AtEnd(r.procs[id], sur, s.retries, k)
      && r.procs[id].attempts == sur.attempts[..k + 1]
  {
    var p, step := s.procs[id], RouteEnds(id, sur.attempts[k]);
    assert ProcOk(p, s.retries);
    QuietStep(s, step);
    assert Successor(s, step) == Ended(p, sur.attempts[k], s.retries);
    EndedMeets(p, sur, s.retries, k);
  }

  lemma EndedMeets(p: Proc, sur: Surroundings, n: nat, k: nat)
    requires k <= n < |sur.attempts| && ProcOk(p, n) && p.attempts == sur.attempts[..k]
    requires p.pc.Routing? && !sur.attempts[k].CancelledBeforeRoute?
    ensures var q := Ended(p, sur.attempts[k], n); AtEnd(q, sur, n, k) && q.attempts == sur.attempts[..k + 1]
  {
    EndedIsAtEnd(p, sur, n, k);
    EndedAttempts(p, sur.attempts[k], n);
    assert sur.attempts[..k + 1] == sur.attempts[..k] + [sur.attempts[k]];
  }

  lemma NextCheck(s: State, id: Id, sur: Surroundings, k: nat)
    requires k <= s.retries < |sur.attempts| && sur.start.Commits? && LeadsTo(sur, s.retries, k) && !Flagged(sur, k)
    requires NextOf(sur.attempts[k], k, s.retries) == Again && Quiet(s, id) && !s.registry[id]
    requires AtEnd(s.procs[id], sur, s.retries, k) && s.procs[id].attempts == sur.attempts[..k + 1]
    ensures k < s.retries && AtCheck(s, id, sur, k + 1)
  {}

  lemma EndedAttempts(p: Proc, a: Attempt, n: nat)
    ensures Ended(p, a, n).attempts == p.attempts + [a]
  {}

  lemma NoticeIsOut(s: State, id: Id, sur: Surroundings, k: nat)
    requires k <= s.retries < |sur.attempts| && OnAttempt(s, id, sur, k) && s.procs[id].pc.Announcing?
    ensures var r := Apply(s, Announced(id, sur.attempts[k].CancelledBeforeRoute?));
      && r.retries == s.retries && Quiet(r, id)
      && if sur.attempts[k].CancelledBeforeRoute? then AtEnd(r.procs[id], sur, s.retries, k) else OnAttempt(r, id, sur, k) && r.procs[id].pc.Routing?
  {
    assert ProcOk(s.procs[id], s.retries);
    QuietStep(s, Announced(id, sur.attempts[k].CancelledBeforeRoute?));
    if sur.attempts[k].CancelledBeforeRoute? { EndedIsAtEnd(s.procs[id], sur, s.retries, k); }
  }

  /** From a check on: the run does what the surroundings say. */
  lemma RunsFromCheck(s: State, id: Id, sur: Surroundings, k: nat) returns (more: seq<Step>)
    requires k <= s.retries < |sur.attempts| && AtCheck(s, id, sur, k) && !sur.attempts[0].CancelledBeforeRoute?
    ensures Ends(Run(s, more), id, Outcome(sur, s.retries))
    decreases s.retries - k, 2
  {
    var step := CheckStep(id, k);
    if Flagged(sur, k) {
      more := [Cancel(id)] + ([step] + ([LastWrite(id, sur.last)] + [Leave(id)]));
      FlaggedCheckEnds(s, id, sur, k);
    } else {
      CheckPasses(s, id, sur, k);
      if k == 0 { more := RunsFromRoute(Apply(s, step), id, sur, k); } else { more := RunsFromNotice(Apply(s, step), id, sur, k); }
      EndsAfter(s, step, more, id, Outcome(sur, s.retries));
      more := [step] + more;
    }
  }

  /** From the notice of a retry. */
  lemma RunsFromNotice(s: State, id: Id, sur: Surroundings, k: nat) returns (more: seq<Step>)
    requires k <= s.retries < |sur.attempts| && OnAttempt(s, id, sur, k) && s.procs[id].pc.Announcing?
    ensures Ends(Run(s, more), id, Outcome(sur, s.retries))
    decreases s.retries - k, 1
  {
    var a := sur.attempts[k];
    var step := Announced(id, a.CancelledBeforeRoute?);
    NoticeIsOut(s, id, sur, k);
    if a.CancelledBeforeRoute? { more := DecisiveEnds(Apply(s, step), id, sur, k); } else { more := RunsFromRoute(Apply(s, step), id, sur, k); }
    EndsAfter(s, step, more, id, Outcome(sur, s.retries));
    more := [step] + more;
  }

  /** From a route call. */
  lemma RunsFromRoute(s: State, id: Id, sur: Surroundings, k: nat) returns (more: seq<Step>)
    requires k <= s.retries < |sur.attempts| && OnAttempt(s, id, sur, k) && s.procs[id].pc.Routing? && !sur.attempts[k].CancelledBeforeRoute?
    ensures Ends(Run(s, more), id, Outcome(sur, s.retries))
    decreases s.retries - k, 0
  {
    var step := RouteEnds(id, sur.attempts[k]);
    RouteIsOver(s, id, sur, k);
    if NextOf(sur.attempts[k], k, s.retries) == Again {
      NextCheck(Apply(s, step), id, sur, k);
      more := RunsFromCheck(Apply(s, step), id, sur, k + 1);
    } else {
      more := DecisiveEnds(Apply(s, step), id, sur, k);
    }
    EndsAfter(s, step, more, id, Outcome(sur, s.retries));
    more := [step] + more;
  }

  /******* Every outcome happens *******/

  lemma StartFailsEnds(s: State, id: Id, sur: Surroundings)
    requires s.retries < |sur.attempts| && !sur.start.Commits? && Quiet(s, id) && s.procs[id].pc.Starting?
    ensures Ends(Run(s, [Started(id, sur.start)] + [Leave(id)]), id, Outcome(sur, s.retries))
  {
    var step, t := Started(id, sur.start), Outcome(sur, s.retries);
    assert ProcOk(s.procs[id], s.retries);
    QuietStep(s, step);
    LeaveEnds(Apply(s, step), id, t);
    EndsAfter(s, step, [Leave(id)], id, t);
  }

  lemma SubmitStarts(s: State, id: Id)
    requires Valid(s) && id !in s.procs && s.value > 0 && s.queue == [] && !SomeGranted(s)
    ensures var r := Apply(s, Submit(id));
      && r.retries == s.retries && Quiet(r, id) && !r.registry[id] && r.procs[id].pc.Starting? && r.procs[id].attempts == []
  {
    StepKeepsPermits(s, Submit(id));
    StepKeepsRuns(s, Submit(id));
  }

  /** In every valid state, so in every reachable one, with a free permit and nobody waiting, a new invocation can do exactly
      what the sequential loop does, for any surroundings: the gate adds nothing and loses nothing. A cancellation before the
      first route call is the one case that cannot occur, since nothing is awaited there. */
  lemma EverySequentialRunHappens(s: State, id: Id, sur: Surroundings)
    requires Valid(s) && id !in s.procs && s.value > 0 && s.queue == [] && !SomeGranted(s)
    requires s.retries < |sur.attempts| && !sur.attempts[0].CancelledBeforeRoute?
    ensures exists more :: Ends(Run(s, more), id, Outcome(sur, s.retries))
  {
    var r, more := Apply(s, Submit(id)), [];
    SubmitStarts(s, id);
    if sur.start.Commits? {
      more := RunsFromCheck(r, id, sur, 0);
    } else {
      more := [Started(id, sur.start)] + [Leave(id)];
      StartFailsEnds(r, id, sur);
    }
    EndsAfter(s, Submit(id), more, id, Outcome(sur, s.retries));
  }

  /******* The queue and the flags *******/

  /** A newcomer takes a permit only if there is one and nobody is ahead of it; otherwise it goes to the end of the queue. */
  lemma NobodyOvertakes(s: State, id: Id)
    requires id !in s.procs
    ensures var r := Apply(s, Submit(id));
      && id in r.procs && id in r.registry && !r.registry[id]
      && (if s.value > 0 && s.queue == [] && (forall j <- s.procs :: !s.procs[j].pc.Granted?) then
            r.procs[id].pc.Starting? && r.value == s.value - 1 && r.queue == []
          else
            r.procs[id].pc.Queued? && r.value == s.value && r.queue == s.queue + [id])
  {}

  /** The queue has lost its first `m` waiters, each to a permit. */
  ghost predicate Served(q: seq<Id>, r: State, m: nat) {
    m <= |q| && r.queue == q[m..] && forall i :: 0 <= i < m ==> q[i] in r.procs && r.procs[q[i]].pc.Granted?
  }

  ghost predicate ServedInOrder(q: seq<Id>, r: State) {
    exists m: nat :: Served(q, r, m)
  }

  lemma WakeNextServes(s: State)
    ensures ServedInOrder(s.queue, WakeNext(s))
  {
    if s.queue == [] || s.value == 0 || s.queue[0] !in s.procs {
      assert Served(s.queue, WakeNext(s), 0);
    } else {
      assert Served(s.queue, WakeNext(s), 1);
    }
  }

  /** One waiter is served, then more. */
  lemma OneMoreServed(q: seq<Id>, s: State, r: State)
    requires q != [] && s.queue == q[1..] && q[0] in s.procs && s.procs[q[0]].pc.Granted? && q[0] !in q[1..]
    requires ServedInOrder(s.queue, r) && OnlyGrants(s, r)
    ensures ServedInOrder(q, r)
  {
    var m: nat :| Served(s.queue, r, m);
    assert forall i :: 1 <= i <= m ==> q[i] == s.queue[i - 1];
    assert q[m + 1..] == s.queue[m..];
    assert Served(q, r, m + 1);
  }

  lemma {:induction false} WakeAllServes(s: State)
    requires QueueOk(s)
    ensures ServedInOrder(s.queue, WakeAll(s))
    decreases |s.queue|
  {
    if s.queue == [] || s.value == 0 || s.queue[0] !in s.procs {
      assert Served(s.queue, WakeAll(s), 0);
    } else {
      WakeNextKeeps(s, s.value + |Holders(s.procs)|);
      HeadIsFresh(s.queue);
      WakeAllServes(WakeNext(s));
      OneMoreServed(s.queue, WakeNext(s), WakeAll(s));
    }
  }

  /** The queue before anybody is woken: without the one whose wait is cancelled, with the newcomer who has to wait. */
  function QueueWith(s: State, step: Step): seq<Id> {
    if !Enabled(s, step) then s.queue
    else match step
      case CancelWait(id) => Without(s.queue, id)
      case Submit(id) => if Apply(s, step).procs[id].pc.Queued? then s.queue + [id] else s.queue
      case _ => s.queue
  }

  /** Permits go to the waiters in the order in which they came. */
  lemma PermitsGoInOrder(s: State, step: Step)
    requires Valid(s)
    ensures ServedInOrder(QueueWith(s, step), Apply(s, step))
  {
    if Enabled(s, step) && IsRunStep(step) {
      RunStepMoves(s, step);
      MovedServes(s, step.id, Successor(s, step));
    } else if Enabled(s, step) && step.Resume? {
      ResumeServes(s, step.id);
    } else if Enabled(s, step) && step.CancelWait? {
      WaiterOutServes(s, step.id);
    } else {
      NobodyIsWoken(s, step);
      assert Served(QueueWith(s, step), Apply(s, step), 0);
    }
  }

  lemma NobodyIsWoken(s: State, step: Step)
    requires !Enabled(s, step) || step.Submit? || step.Leave? || step.Cancel?
    ensures Apply(s, step).queue == QueueWith(s, step)
  {}

  lemma ResumeServes(s: State, id: Id)
    requires Valid(s) && Enabled(s, Resume(id))
    ensures ServedInOrder(s.queue, Apply(s, Resume(id)))
  {
    UpdateKeepsQueue(s, id, s.procs[id].(pc := Starting));
    WakeAllServes(SetPc(s, id, Starting));
  }

  lemma WaiterOutServes(s: State, id: Id)
    requires Valid(s) && Enabled(s, CancelWait(id))
    ensures ServedInOrder(Without(s.queue, id), Apply(s, CancelWait(id)))
  {
    WaiterOutKeepsAccounts(s, id);
    QueuedAre(s);
    if s.procs[id].pc.Granted? { WithoutAbsent(s.queue, id); }
    WakeAllServes(WaiterOut(s, id));
  }

  lemma MovedServes(s: State, id: Id, p: Proc)
    ensures ServedInOrder(s.queue, Moved(s, id, p))
  {
    if p.pc.Leaving? {
      WakeNextServes(Update(s, id, p).(value := s.value + 1));
    } else {
      assert Served(s.queue, Moved(s, id, p), 0);
    }
  }

  /** `cancel` succeeds, and sets the flag, exactly for an invocation that is registered and not yet cancelled; anything
      else changes nothing. */
  lemma CancelExactly(s: State, id: Id)
    requires Valid(s)
    ensures var r := Apply(s, Cancel(id));
      if id in s.procs && !s.procs[id].pc.Finished? && s.procs[id].cancels == 0 then
        && r.registry == s.registry[id := true] && r.procs == s.procs[id := s.procs[id].(cancels := 1)]
      else r == s
  {
    FlagExactly(s, id);
    if id in s.registry && !s.registry[id] {
      CancelSets(s, id);
      assert s.procs[id].cancels + 1 == 1;
    } else {
      CancelIsIgnored(s, id);
    }
  }

  lemma FlagExactly(s: State, id: Id)
    requires RunsOk(s)
    ensures id in s.registry <==> id in s.procs && !s.procs[id].pc.Finished?
    ensures id in s.registry ==> (s.registry[id] <==> s.procs[id].cancels > 0)
  {}

  lemma CancelIsIgnored(s: State, id: Id)
    requires id !in s.registry || s.registry[id]
    ensures Apply(s, Cancel(id)) == s
  {}

  /** The next check after a successful `cancel` ends the attempts: no further route call starts. */
  lemma CheckSeesTheFlag(s: State, step: Step)
    requires Valid(s) && Enabled(s, step) && (step == Started(step.id, Commits) || step.BackoffEnds?) && s.procs[step.id].cancels > 0
    ensures var p, q := s.procs[step.id], Successor(s, step); q.pc.MarkingCancelled? && q.routes == p.routes && q.late == p.late
  {
    FlagExactly(s, step.id);
    assert Flag(s, step.id);
    assert Successor(s, step) == if step.BackoffEnds? then Checked(s.procs[step.id], true) else Begun(s.procs[step.id], Commits, true);
  }

  /** The count of late route calls is what it says: it grows exactly when a route call starts after a successful `cancel`. */
  lemma LateIsCounted(s: State, step: Step, id: Id)
    requires id in s.procs
    ensures id in Apply(s, step).procs
    ensures var p, q := s.procs[id], Apply(s, step).procs[id];
      && p.routes <= q.routes <= p.routes + 1
      && q.late == p.late + (if q.routes > p.routes && p.cancels > 0 then 1 else 0)
  {
    OnlyHoldersAct(s, step, id);
    if Enabled(s, step) && IsRunStep(step) && step.id == id {
      RunStepMoves(s, step);
      MovedProc(s, id, Successor(s, step));
    } else {
      OthersKeepLate(s, step, id);
    }
  }

  lemma MovedProc(s: State, id: Id, p: Proc)
    requires !p.pc.Queued?
    ensures id in Moved(s, id, p).procs && SameRecord(Moved(s, id, p).procs[id], p) && Moved(s, id, p).procs[id].late == p.late
  {}

  lemma OthersKeepLate(s: State, step: Step, id: Id)
    requires id in s.procs && !(Enabled(s, step) && IsRunStep(step) && step.id == id)
    ensures id in Apply(s, step).procs && Apply(s, step).procs[id].late == s.procs[id].late
  {
    if Enabled(s, step) && IsRunStep(step) { RunStepMoves(s, step); }
  }
}

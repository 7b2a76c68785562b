/**
 Any number of concurrent invocations behind the semaphore, with the cancellation registry: a step
 relation in which each run moves from one `await` to the next.
 */
module InvocationGate {
  import opened Common
  import opened Invocation

  type Id = nat

  /** Where an invocation is suspended. The number of the current attempt is the number of ended ones. */
  datatype Pc =
    | Queued                       // waits in the semaphore
    | Granted                      // has been handed a permit, not yet running
    | Starting                     // the RUNNING write and the start notice
    | Announcing                   // the retry notice, after the cancellation check
    | Routing                      // the route call and the rest of the attempt
    | BackingOff
    | MarkingFailed(failure: Failure)
    | MarkingCancelled
    | Leaving(ending: Ending)      // outside the semaphore, still registered
    | Finished(ending: Ending)
  {
    /** The invocation holds one of the permits. */
    predicate Holds() {
      !Queued? && !Leaving? && !Finished?
    }
  }

  /** One invocation, with what it has committed and published, how its attempts ended, and at which check it
      saw the cancellation flag. `cancels` counts the calls of `cancel` that returned True, `late` the route
      calls started after one did. */
  datatype Proc = Proc(
    pc: Pc, start: Write, attempts: seq<Attempt>, flagged: Option<nat>, writes: seq<Status>, events: seq<Event>, routes: nat,
    cancels: nat, late: nat)

  /** `value` and `queue` are the counter of the semaphore and its waiters that have no permit yet;
      `registry` maps each registered invocation to its cancellation flag; `retries` is `MAX_RETRIES`. */
  datatype State = State(
    retries: nat, cap: nat, value: nat, queue: seq<Id>, procs: map<Id, Proc>, registry: map<Id, bool>)

  function Init(retries: nat, cap: nat): State {
    State(retries, cap, cap, [], map[], map[])
  }

  datatype Step =
    | Submit(id: Id)                       // register, then enter the semaphore
    | Resume(id: Id)                       // a granted waiter runs
    | CancelWait(id: Id)                   // task cancellation inside the semaphore
    | Started(id: Id, write: Write)
    | Announced(id: Id, cancelled: bool)
    | RouteEnds(id: Id, attempt: Attempt)
    | BackoffEnds(id: Id)
    | LastWrite(id: Id, write: Write)
    | Leave(id: Id)                        // unregister
    | Cancel(id: Id)                       // `cancel(id)` from anywhere

  /******* The semaphore *******/

  function SetPc(s: State, id: Id, pc: Pc): State
    requires id in s.procs
  {
    s.(procs := s.procs[id := s.procs[id].(pc := pc)])
  }

  /** Waking changes nothing but the counter, the queue, and queued invocations into granted ones. */
  ghost predicate OnlyGrants(s: State, r: State) {
    && r.retries == s.retries && r.cap == s.cap && r.registry == s.registry && r.procs.Keys == s.procs.Keys
    && forall id <- s.procs :: r.procs[id] == s.procs[id] || (id in s.queue && r.procs[id] == s.procs[id].(pc := Granted))
  }

  /** `_wake_next`: hand a permit to the first waiter without one. */
  function WakeNext(s: State): (r: State)
    ensures OnlyGrants(s, r)
    ensures forall id <- r.queue :: id in s.queue
  {
    if s.queue == [] || s.value == 0 || s.queue[0] !in s.procs then s
    else SetPc(s.(value := s.value - 1, queue := s.queue[1..]), s.queue[0], Granted)
  }

  /** The loop at the end of `acquire`: permits that came free while newcomers had to queue. */
  function WakeAll(s: State): (r: State)
    ensures OnlyGrants(s, r)
    decreases |s.queue|
  {
    if s.queue == [] || s.value == 0 || s.queue[0] !in s.procs then s else WakeAll(WakeNext(s))
  }

  /** `Semaphore.locked()`: no permit, or a waiter is ahead. */
  predicate Busy(s: State) {
    s.value == 0 || s.queue != [] || exists id <- s.procs :: s.procs[id].pc.Granted?
  }

  function Update(s: State, id: Id, p: Proc): State {
    s.(procs := s.procs[id := p])
  }

  /** The invocation becomes `p`. If `p` is on its way out, by return or by exception, the `async with` block
      gives its permit back. */
  function Moved(s: State, id: Id, p: Proc): State {
    if p.pc.Leaving? then WakeNext(Update(s, id, p).(value := s.value + 1)) else Update(s, id, p)
  }

  /******* One run *******/

  /** The route call of the current attempt starts. */
  function Routed(p: Proc): Proc {
    p.(pc := Routing, events := p.events + RetryNotice(|p.attempts|), routes := p.routes + 1,
       late := p.late + (if p.cancels > 0 then 1 else 0))
  }

  /** The top of the loop: the cancellation check, then the retry notice or the route call. */
  function Checked(p: Proc, flag: bool): Proc {
    if flag then p.(pc := MarkingCancelled, flagged := Some(|p.attempts|))
    else if |p.attempts| > 0 then p.(pc := Announcing)
    else Routed(p)
  }

  /** The RUNNING write and the start notice. */
  function Begun(p: Proc, w: Write, flag: bool): Proc {
    match w
    case Raises => p.(pc := Leaving(Escaped), start := w)
    case CommitsThenCancelled => p.(pc := Leaving(Escaped), start := w, writes := [RUNNING])
    case Commits => Checked(p.(start := w, writes := [RUNNING], events := [Log]), flag)
  }

  /** The current attempt ends as `a`. */
  function Ended(p: Proc, a: Attempt, n: nat): Proc {
    var q := p.(attempts := p.attempts + [a], writes := p.writes + WritesOf(a), events := p.events + EventsAfterRoute(a));
    match NextOf(a, |p.attempts|, n)
    case Again => q.(pc := BackingOff)
    case GiveUp(f) => q.(pc := MarkingFailed(f))
    case GiveWay => q.(pc := MarkingCancelled)
    case Answer(v) => q.(pc := Leaving(Returned(Result(v))))
    case Escape => q.(pc := Leaving(Escaped))
  }

  /** `_mark_failed` or `_mark_cancelled`, and the exit that follows. */
  function Concluded(p: Proc, w: Write): Proc {
    var t := if p.pc.MarkingFailed? then GivesUp(p.writes, p.events, p.routes, p.pc.failure, w)
             else GivesWay(p.writes, p.events, p.routes, w);
    p.(pc := Leaving(t.ending), writes := t.writes, events := t.events)
  }

  function Flag(s: State, id: Id): bool {
    id in s.registry && s.registry[id]
  }

  predicate Enabled(s: State, step: Step) {
    match step
    case Submit(id) => id !in s.procs
    case Cancel(_) => true
    case Resume(id) => id in s.procs && s.procs[id].pc.Granted?
    case CancelWait(id) => id in s.procs && (s.procs[id].pc.Queued? || s.procs[id].pc.Granted?)
    case Started(id, _) => id in s.procs && s.procs[id].pc.Starting?
    case Announced(id, _) => id in s.procs && s.procs[id].pc.Announcing?
    case RouteEnds(id, a) => id in s.procs && s.procs[id].pc.Routing? && !a.CancelledBeforeRoute?
    case BackoffEnds(id) => id in s.procs && s.procs[id].pc.BackingOff?
    case LastWrite(id, _) => id in s.procs && (s.procs[id].pc.MarkingFailed? || s.procs[id].pc.MarkingCancelled?)
    case Leave(id) => id in s.procs && s.procs[id].pc.Leaving?
  }

  /** The step is taken by the running invocation itself. */
  predicate IsRunStep(step: Step) {
    step.Started? || step.Announced? || step.RouteEnds? || step.BackoffEnds? || step.LastWrite?
  }

  /** What a run step makes of its invocation. */
  function Successor(s: State, step: Step): (p: Proc)
    requires Enabled(s, step) && IsRunStep(step)
    ensures p.cancels == s.procs[step.id].cancels && (p.pc.Holds() || p.pc.Leaving?) && !p.pc.Granted?
  {
    match step
    case Started(id, w) => Begun(s.procs[id], w, Flag(s, id))
    case Announced(id, cancelled) =>
      if cancelled then Ended(s.procs[id], CancelledBeforeRoute, s.retries) else Routed(s.procs[id])
    case RouteEnds(id, a) => Ended(s.procs[id], a, s.retries)
    case BackoffEnds(id) => Checked(s.procs[id], Flag(s, id))
    case LastWrite(id, w) => Concluded(s.procs[id], w)
  }

  /** `register`, then the semaphore. */
  function Submitted(s: State, id: Id): State {
    var p := Proc(if Busy(s) then Queued else Starting, Commits, [], None, [], [], 0, 0, 0);
    var r := Update(s, id, p).(registry := s.registry[id := false]);
    if Busy(s) then r.(queue := s.queue + [id]) else r.(value := s.value - 1)
  }

  /** Task cancellation in the semaphore: a permit already handed over goes back. */
  function WaiterOut(s: State, id: Id): State
    requires id in s.procs
  {
    var r := Update(s, id, s.procs[id].(pc := Leaving(Escaped), start := Raises));
    if s.procs[id].pc.Granted? then r.(value := s.value + 1) else r.(queue := Without(s.queue, id))
  }

  function WaitCancelled(s: State, id: Id): State
    requires id in s.procs
  {
    WakeAll(WaiterOut(s, id))
  }

  /** `unregister`. */
  function Left(s: State, id: Id): State
    requires id in s.procs && s.procs[id].pc.Leaving?
  {
    SetPc(s, id, Finished(s.procs[id].pc.ending)).(registry := s.registry - {id})
  }

  /** `cancel`: it returns True, and sets the flag, exactly for a registered id whose flag is not set. */
  function CancelRequested(s: State, id: Id): State {
    if id in s.registry && !s.registry[id] && id in s.procs then
      Update(s, id, s.procs[id].(cancels := s.procs[id].cancels + 1)).(registry := s.registry[id := true])
    else s
  }

  /** One step; a step that cannot happen changes nothing. */
  function Apply(s: State, step: Step): (r: State)
    ensures r.retries == s.retries && r.cap == s.cap
  {
    if !Enabled(s, step) then s else
    match step
    case Submit(id) => Submitted(s, id)
    case Resume(id) => WakeAll(SetPc(s, id, Starting))
    case CancelWait(id) => WaitCancelled(s, id)
    case Leave(id) => Left(s, id)
    case Cancel(id) => CancelRequested(s, id)
    case _ => Moved(s, step.id, Successor(s, step))
  }

  function After(retries: nat, cap: nat, steps: seq<Step>): State {
    if steps == [] then Init(retries, cap) else Apply(After(retries, cap, steps[..|steps| - 1]), steps[|steps| - 1])
  }

  /******* Permits *******/

  function Holders(procs: map<Id, Proc>): set<Id> {
    set id | id in procs && procs[id].pc.Holds()
  }

  /** The waiters without a permit are exactly the queued invocations, each once. */
  ghost predicate QueueOk(s: State) {
    && (forall i :: 0 <= i < |s.queue| ==> s.queue[i] in s.procs && s.procs[s.queue[i]].pc.Queued?)
    && (forall id <- s.procs :: s.procs[id].pc.Queued? ==> id in s.queue)
    && Distinct(s.queue)
  }

  /** `total` permits are free or held. */
  ghost predicate Accounts(s: State, total: int) {
    QueueOk(s) && s.value + |Holders(s.procs)| == total
  }

  predicate SomeGranted(s: State) {
    exists id <- s.procs :: s.procs[id].pc.Granted?
  }

  /** No permit is lost or made up, and none lies idle while a waiter has nobody ahead of it to wake it. */
  ghost predicate PermitsOk(s: State) {
    Accounts(s, s.cap) && (s.value > 0 && s.queue != [] ==> SomeGranted(s))
  }

  lemma HoldersUpdate(procs: map<Id, Proc>, id: Id, p: Proc)
    ensures var before := id in procs && procs[id].pc.Holds();
      |Holders(procs[id := p])| == |Holders(procs)| + (if p.pc.Holds() then 1 else 0) - (if before then 1 else 0)
  {
    var h := Holders(procs);
    assert Holders(procs[id := p]) == if p.pc.Holds() then h + {id} else h - {id};
  }

  lemma WakeNextKeeps(s: State, total: int)
    requires Accounts(s, total)
    ensures Accounts(WakeNext(s), total)
    ensures WakeNext(s).value > 0 && WakeNext(s).queue != [] && s.value <= 1 ==> SomeGranted(WakeNext(s))
    ensures s.value > 0 && s.queue != [] ==> SomeGranted(WakeNext(s))
  {
    if s.queue != [] && s.value > 0 {
      var r, id := WakeNext(s), s.queue[0];
      HoldersUpdate(s.procs, id, s.procs[id].(pc := Granted));
      assert r.procs == s.procs[id := s.procs[id].(pc := Granted)];
      forall j <- r.procs | r.procs[j].pc.Queued? ensures j in r.queue {
        var i :| 0 <= i < |s.queue| && s.queue[i] == j;
        assert r.queue[i - 1] == j;
      }
      assert r.procs[id].pc.Granted?;
    }
  }

  lemma {:induction false} WakeAllKeeps(s: State, total: int)
    requires Accounts(s, total)
    ensures Accounts(WakeAll(s), total) && (WakeAll(s).value == 0 || WakeAll(s).queue == [])
    decreases |s.queue|
  {
    if s.queue != [] && s.value > 0 {
      WakeNextKeeps(s, total);
      WakeAllKeeps(WakeNext(s), total);
    }
  }

  /** A proc that was not queued, updated to one that is not. */
  lemma UpdateKeepsQueue(s: State, id: Id, p: Proc)
    requires QueueOk(s) && (id in s.procs ==> !s.procs[id].pc.Queued?) && !p.pc.Queued?
    ensures QueueOk(Update(s, id, p))
  {}

  lemma OtherGranted(s: State, id: Id, p: Proc)
    requires SomeGranted(s) && (id in s.procs ==> !s.procs[id].pc.Granted?)
    ensures SomeGranted(Update(s, id, p))
  {
    var g :| g in s.procs && s.procs[g].pc.Granted?;
    assert Update(s, id, p).procs[g].pc.Granted?;
  }

  lemma MovedKeepsPermits(s: State, id: Id, p: Proc)
    requires PermitsOk(s) && id in s.procs && s.procs[id].pc.Holds() && !s.procs[id].pc.Granted?
    requires !p.pc.Queued? && !p.pc.Finished?
    ensures PermitsOk(Moved(s, id, p))
  {
    HoldersUpdate(s.procs, id, p);
    UpdateKeepsQueue(s, id, p);
    if s.value > 0 && s.queue != [] { OtherGranted(s, id, p); }
    if p.pc.Leaving? {
      var r := Update(s, id, p).(value := s.value + 1);
      WakeNextKeeps(r, s.cap);
      if s.value > 0 && s.queue != [] { assert r.value > 0; }
    }
  }

  lemma SubmitKeepsPermits(s: State, id: Id)
    requires PermitsOk(s) && id !in s.procs
    ensures PermitsOk(Submitted(s, id))
  {
    var r := Submitted(s, id);
    HoldersUpdate(s.procs, id, r.procs[id]);
    assert forall i :: 0 <= i < |s.queue| ==> s.queue[i] != id;
    assert r.procs == s.procs[id := r.procs[id]];
    if Busy(s) {
      assert r.queue[|s.queue|] == id;
      forall j <- r.procs | r.procs[j].pc.Queued? ensures j in r.queue {
        if j != id { assert j in s.queue; }
      }
      if s.value > 0 { OtherGranted(s, id, r.procs[id]); }
    }
  }

  lemma ResumeKeepsPermits(s: State, id: Id)
    requires PermitsOk(s) && id in s.procs && s.procs[id].pc.Granted?
    ensures PermitsOk(WakeAll(SetPc(s, id, Starting)))
  {
    var p := s.procs[id].(pc := Starting);
    HoldersUpdate(s.procs, id, p);
    UpdateKeepsQueue(s, id, p);
    WakeAllKeeps(SetPc(s, id, Starting), s.cap);
  }

  lemma DequeueKeepsAccounts(s: State, id: Id, p: Proc)
    requires Accounts(s, s.cap) && id in s.procs && s.procs[id].pc.Queued? && p.pc.Leaving?
    ensures Accounts(Update(s, id, p).(queue := Without(s.queue, id)), s.cap)
  {
    var r := Update(s, id, p).(queue := Without(s.queue, id));
    HoldersUpdate(s.procs, id, p);
    WithoutIsRemoval(s.queue, id);
    forall i | 0 <= i < |r.queue| ensures r.queue[i] in r.procs && r.procs[r.queue[i]].pc.Queued? {
      assert r.queue[i] in r.queue && r.queue[i] in s.queue;
    }
  }

  lemma ReturnKeepsAccounts(s: State, id: Id, p: Proc)
    requires Accounts(s, s.cap) && id in s.procs && s.procs[id].pc.Granted? && p.pc.Leaving?
    ensures Accounts(Update(s, id, p).(value := s.value + 1), s.cap)
  {
    HoldersUpdate(s.procs, id, p);
    UpdateKeepsQueue(s, id, p);
  }

  lemma WaiterOutKeepsAccounts(s: State, id: Id)
    requires Accounts(s, s.cap) && Enabled(s, CancelWait(id))
    ensures Accounts(WaiterOut(s, id), s.cap)
  {
    var p := s.procs[id].(pc := Leaving(Escaped), start := Raises);
    if s.procs[id].pc.Granted? { ReturnKeepsAccounts(s, id, p); } else { DequeueKeepsAccounts(s, id, p); }
  }

  lemma CancelWaitKeepsPermits(s: State, id: Id)
    requires PermitsOk(s) && Enabled(s, CancelWait(id))
    ensures PermitsOk(WaitCancelled(s, id))
  {
    WaiterOutKeepsAccounts(s, id);
    WokenAllOk(WaiterOut(s, id));
  }

  lemma WokenAllOk(s: State)
    requires Accounts(s, s.cap)
    ensures PermitsOk(WakeAll(s))
  {
    WakeAllKeeps(s, s.cap);
  }

  lemma LeaveKeepsPermits(s: State, id: Id)
    requires PermitsOk(s) && Enabled(s, Leave(id))
    ensures PermitsOk(Left(s, id))
  {
    var p := s.procs[id].(pc := Finished(s.procs[id].pc.ending));
    HoldersUpdate(s.procs, id, p);
    UpdateKeepsQueue(s, id, p);
    if SomeGranted(s) { OtherGranted(s, id, p); }
  }

  lemma CancelKeepsPermits(s: State, id: Id)
    requires PermitsOk(s)
    ensures PermitsOk(CancelRequested(s, id))
  {
    var r := CancelRequested(s, id);
    if id in s.procs {
      HoldersUpdate(s.procs, id, r.procs[id]);
      assert r.procs == s.procs[id := r.procs[id]];
      if SomeGranted(s) {
        var g :| g in s.procs && s.procs[g].pc.Granted?;
        assert r.procs[g].pc.Granted?;
      }
    }
  }

  lemma StepKeepsPermits(s: State, step: Step)
    requires PermitsOk(s)
    ensures PermitsOk(Apply(s, step))
  {
    if Enabled(s, step) {
      match step
      case Submit(id) => SubmitKeepsPermits(s, id);
      case Resume(id) => ResumeKeepsPermits(s, id);
      case CancelWait(id) => CancelWaitKeepsPermits(s, id);
      case Leave(id) => LeaveKeepsPermits(s, id);
      case Cancel(id) => CancelKeepsPermits(s, id);
      case _ => MovedKeepsPermits(s, step.id, Successor(s, step));
    }
  }
}

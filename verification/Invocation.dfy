/**
 One invocation, from the moment it holds a slot: the retry loop of `_run`, the status row it
 commits and the events it publishes, against a closed form of the outcomes of its attempts.
 */
module Invocation {
  import opened Common

  /** A tool result, by identity. */
  type Value = nat

  /** The exception classes that `_run` tells apart. */
  datatype Failure = TimeoutError | ConnectionError | OSError | RemoteCallError | RuntimeError | RoutingError | OtherException

  /** `_is_transient`. */
  predicate IsTransient(f: Failure) {
    f.TimeoutError? || f.ConnectionError? || f.OSError? || f.RemoteCallError?
  }

  /** Values committed to the status column. */
  datatype Status = RUNNING | DONE(value: Value) | FAILED(failure: Failure) | CANCELLED

  /** Events on the invocation's channel. */
  datatype Event = Log | ResultEvent(value: Value) | ErrorEvent(failure: Failure)

  predicate AllLogs(events: seq<Event>) {
    forall i :: 0 <= i < |events| ==> events[i] == Log
  }

  predicate IsFinal(e: Event) {
    !e.Log?
  }

  /** What the surroundings do to one attempt that passed the cancellation check. `interrupted` is a task
      cancellation while the failure is logged or during the backoff. */
  datatype Attempt =
    | Completes(value: Value)
    | RouteRaises(failure: Failure, interrupted: bool)
    | DoneWriteRaises(failure: Failure, interrupted: bool)
    | Unserialisable(value: Value, interrupted: bool)
    | CancelledBeforeRoute
    | CancelledBeforeDone
    | CancelledAfterDone(value: Value, published: bool)

  /** What a database write of `_run` itself does: commit, raise, or commit and then see the task cancelled. */
  datatype Write = Commits | Raises | CommitsThenCancelled

  datatype Reply = Result(value: Value) | ToolError(failure: Failure) | CancelledError

  /** `_run` returns, or an exception or a task cancellation leaves it. */
  datatype Ending = Returned(reply: Reply) | Escaped

  /** What an attempt leads to. */
  datatype Next = Again | GiveUp(failure: Failure) | Answer(value: Value) | GiveWay | Escape

  /** The exception the `except` clauses of an attempt see, if any. */
  function Caught(a: Attempt): Option<Failure> {
    match a
    case RouteRaises(f, _) => Some(f)
    case DoneWriteRaises(f, _) => Some(f)
    case Unserialisable(_, _) => Some(OtherException)
    case _ => None
  }

  /** How attempt number `k` of at most `n` retries ends. */
  function NextOf(a: Attempt, k: nat, n: nat): Next {
    match a
    case Completes(v) => Answer(v)
    case CancelledBeforeRoute => GiveWay
    case CancelledBeforeDone => GiveWay
    case CancelledAfterDone(_, _) => GiveWay
    case _ =>
      if a.interrupted then Escape
      else if k >= n || !IsTransient(Caught(a).value) then GiveUp(Caught(a).value)
      else Again
  }

  /** The statuses an attempt commits: a result that cannot be published has been committed all the same. */
  function WritesOf(a: Attempt): seq<Status> {
    match a
    case Completes(v) => [DONE(v)]
    case Unserialisable(v, _) => [DONE(v)]
    case CancelledAfterDone(v, _) => [DONE(v)]
    case _ => []
  }

  /** The events an attempt publishes: the retry notice, then the failure, or the result and the audit entry. */
  function EventsOf(a: Attempt, k: nat): seq<Event> {
    if a.CancelledBeforeRoute? then [] else RetryNotice(k) + EventsAfterRoute(a)
  }

  function RetryNotice(k: nat): seq<Event> {
    if k > 0 then [Log] else []
  }

  function EventsAfterRoute(a: Attempt): seq<Event> {
    match a
    case Completes(v) => [ResultEvent(v), Log]
    case CancelledAfterDone(v, published) => if published then [ResultEvent(v)] else []
    case CancelledBeforeRoute => []
    case CancelledBeforeDone => []
    case _ => if a.interrupted then [] else [Log]
  }

  function RoutesOf(a: Attempt): nat {
    if a.CancelledBeforeRoute? then 0 else 1
  }

  /** Everything a run leaves behind. */
  datatype Trace = Trace(writes: seq<Status>, events: seq<Event>, routes: nat, ending: Ending)

  /** What the surroundings do to a whole run: `flagged` is the number of the first cancellation check that
      finds the flag set. */
  datatype Surroundings = Surroundings(start: Write, attempts: seq<Attempt>, flagged: Option<nat>, last: Write)

  predicate Flagged(s: Surroundings, k: nat) {
    s.flagged.Some? && s.flagged.value <= k
  }

  /******* Closed form *******/

  /** The first attempt, from `k` on, that does not lead to another one. */
  function Decisive(s: Surroundings, n: nat, k: nat): (d: nat)
    requires k <= n < |s.attempts|
    ensures k <= d <= n
    ensures Flagged(s, d) || NextOf(s.attempts[d], d, n) != Again
    ensures forall j :: k <= j < d ==> !Flagged(s, j) && NextOf(s.attempts[j], j, n) == Again
    decreases n - k
  {
    if Flagged(s, k) || NextOf(s.attempts[k], k, n) != Again then k else Decisive(s, n, k + 1)
  }

  /** The log events of `k` failed attempts: a retry notice on all but the first, and the failure. */
  function LogsBefore(k: nat): (logs: seq<Event>)
    ensures AllLogs(logs)
  {
    if k == 0 then [Log] else LogsBefore(k - 1) + (if k > 1 then [Log, Log] else [Log])
  }

  /** The end of a run that gives way to a cancellation. */
  function GivesWay(writes: seq<Status>, events: seq<Event>, routes: nat, last: Write): Trace {
    match last
    case Commits => Trace(writes + [CANCELLED], events, routes, Returned(CancelledError))
    case Raises => Trace(writes, events, routes, Escaped)
    case CommitsThenCancelled => Trace(writes + [CANCELLED], events, routes, Escaped)
  }

  /** The end of a run that gives up on a failure. */
  function GivesUp(writes: seq<Status>, events: seq<Event>, routes: nat, f: Failure, last: Write): Trace {
    match last
    case Commits => Trace(writes + [FAILED(f)], events + [ErrorEvent(f)], routes, Returned(ToolError(f)))
    case Raises => Trace(writes, events, routes, Escaped)
    case CommitsThenCancelled => Trace(writes + [FAILED(f)], events, routes, Escaped)
  }

  /** The whole run, from its decisive attempt alone. */
  function Outcome(s: Surroundings, n: nat): Trace
    requires n < |s.attempts|
  {
    match s.start
    case Raises => Trace([], [], 0, Escaped)
    case CommitsThenCancelled => Trace([RUNNING], [], 0, Escaped)
    case Commits =>
      var d := Decisive(s, n, 0);
      if Flagged(s, d) then GivesWay([RUNNING], LogsBefore(d), d, s.last)
      else
        var a := s.attempts[d];
        var writes, events, routes := [RUNNING] + WritesOf(a), LogsBefore(d) + EventsOf(a, d), d + RoutesOf(a);
        match NextOf(a, d, n)
        case Answer(v) => Trace(writes, events, routes, Returned(Result(v)))
        case GiveWay => GivesWay(writes, events, routes, s.last)
        case GiveUp(f) => GivesUp(writes, events, routes, f, s.last)
        case Escape => Trace(writes, events, routes, Escaped)
  }

  /******* What the closed form promises *******/

  function Finals(events: seq<Event>): seq<Event> {
    if events == [] then [] else (if IsFinal(events[0]) then [events[0]] else []) + Finals(events[1..])
  }

  lemma {:induction false} FinalsConcat(a: seq<Event>, b: seq<Event>)
    ensures Finals(a + b) == Finals(a) + Finals(b)
  {
    if a == [] {
      assert a + b == b;
    } else {
      FinalsConcat(a[1..], b);
      assert (a + b)[0] == a[0] && (a + b)[1..] == a[1..] + b;
      var head := if IsFinal(a[0]) then [a[0]] else [];
      assert Finals(a + b) == head + Finals(a[1..] + b);
      assert head + (Finals(a[1..]) + Finals(b)) == (head + Finals(a[1..])) + Finals(b);
    }
  }

  lemma {:induction false} LogsAreNotFinal(logs: seq<Event>)
    requires AllLogs(logs)
    ensures Finals(logs) == []
  {
    if logs != [] { LogsAreNotFinal(logs[1..]); }
  }

  /** Whatever happens, a run that returns has last committed the status that its reply reports. */
  lemma ReplyMatchesStatus(s: Surroundings, n: nat)
    requires n < |s.attempts|
    ensures var t := Outcome(s, n); t.ending.Returned? ==>
      && t.writes != [] && t.writes[0] == RUNNING
      && t.writes[|t.writes| - 1] == match t.ending.reply
           case Result(v) => DONE(v)
           case ToolError(f) => FAILED(f)
           case CancelledError => CANCELLED
  {}

  /** A run makes one route call for each attempt up to the decisive one, so at most `n + 1`; it makes
      another one only after a transient failure of the route or of the DONE write. */
  lemma RetriesOnlyTransientFailures(s: Surroundings, n: nat)
    requires n < |s.attempts|
    ensures var t := Outcome(s, n); var d := Decisive(s, n, 0);
      && t.routes <= d + 1 <= n + 1
      && (forall j :: 0 <= j < d ==> Caught(s.attempts[j]).Some? && IsTransient(Caught(s.attempts[j]).value))
      && (t.ending.Returned? && t.ending.reply.ToolError? ==>
           Caught(s.attempts[d]) == Some(t.ending.reply.failure) && (d == n || !IsTransient(t.ending.reply.failure)))
  {}

  /** The attempt ends in an exception `f`, and no task cancellation comes while it is dealt with. */
  predicate FailsWith(a: Attempt, f: Failure) {
    || a == RouteRaises(f, false)
    || a == DoneWriteRaises(f, false)
    || (a.Unserialisable? && !a.interrupted && f == OtherException)
  }

  /** Failures that may go away by themselves. */
  predicate MayGoAway(f: Failure) {
    match f
    case TimeoutError => true
    case ConnectionError => true
    case OSError => true
    case RemoteCallError => true
    case RuntimeError => false
    case RoutingError => false
    case OtherException => false
  }

  /** A failed attempt with retries left leads to another route call, unless a cancellation comes first, if and only if the
      failure is a timeout, a connection error, an OS error or a remote call error. */
  lemma RetriesExactly(s: Surroundings, n: nat, k: nat, f: Failure)
    requires k < n < |s.attempts| && Outcome(s, n).routes > k && FailsWith(s.attempts[k], f)
    requires !Flagged(s, k + 1) && !s.attempts[k + 1].CancelledBeforeRoute?
    ensures Outcome(s, n).routes > k + 1 <==> MayGoAway(f)
  {
    var d := Decisive(s, n, 0);
    assert d >= k;
    assert NextOf(s.attempts[k], k, n) == if MayGoAway(f) then Again else GiveUp(f);
  }

  /** A first attempt that fails with anything else is the only one, and the run ends FAILED with it. */
  lemma FailsFast(s: Surroundings, n: nat, f: Failure)
    requires n < |s.attempts| && s.start.Commits? && !Flagged(s, 0) && FailsWith(s.attempts[0], f) && !MayGoAway(f)
    ensures var t := Outcome(s, n);
      && t.routes == 1
      && (s.last.Commits? ==> t.writes[|t.writes| - 1] == FAILED(f) && t.ending == Returned(ToolError(f)) && |Finals(t.events)| == 1)
  {
    assert Decisive(s, n, 0) == 0;
    OneFinalEvent(s, n);
  }

  /** A run that returns has published exactly one final event, of the kind of its reply; a cancelled run
      has published none, unless the cancellation came after the result. */
  lemma OneFinalEvent(s: Surroundings, n: nat)
    requires n < |s.attempts|
    ensures var t := Outcome(s, n); var a := s.attempts[Decisive(s, n, 0)];
      t.ending.Returned? ==>
        Finals(t.events) == match t.ending.reply
          case Result(v) => [ResultEvent(v)]
          case ToolError(f) => [ErrorEvent(f)]
          case CancelledError =>
            if !Flagged(s, Decisive(s, n, 0)) && a.CancelledAfterDone? && a.published then [ResultEvent(a.value)] else []
  {
    var t, d := Outcome(s, n), Decisive(s, n, 0);
    if t.ending.Returned? {
      if Flagged(s, d) { LogsAreNotFinal(LogsBefore(d)); } else { UnflaggedFinals(s, n); }
    }
  }

  lemma UnflaggedFinals(s: Surroundings, n: nat)
    requires n < |s.attempts| && !Flagged(s, Decisive(s, n, 0)) && Outcome(s, n).ending.Returned?
    ensures var t := Outcome(s, n); var a := s.attempts[Decisive(s, n, 0)];
      Finals(t.events) == if t.ending.reply.ToolError? then [ErrorEvent(t.ending.reply.failure)] else FinalOf(a)
  {
    var t, d := Outcome(s, n), Decisive(s, n, 0);
    var a := s.attempts[d];
    var events := LogsBefore(d) + EventsOf(a, d);
    FinalsUpTo(a, d);
    if t.ending.reply.ToolError? {
      assert t.events == events + [ErrorEvent(t.ending.reply.failure)];
      FinalsOfError(events, t.ending.reply.failure);
    } else {
      assert t.events == events;
    }
  }

  /** The final event that an attempt publishes. */
  function FinalOf(a: Attempt): seq<Event> {
    match a
    case Completes(v) => [ResultEvent(v)]
    case CancelledAfterDone(v, published) => if published then [ResultEvent(v)] else []
    case _ => []
  }

  lemma FinalsOfError(events: seq<Event>, f: Failure)
    requires Finals(events) == []
    ensures Finals(events + [ErrorEvent(f)]) == [ErrorEvent(f)]
  {
    FinalsConcat(events, [ErrorEvent(f)]);
    assert [ErrorEvent(f)][1..] == [];
  }

  lemma FinalsUpTo(a: Attempt, d: nat)
    ensures Finals(LogsBefore(d) + EventsOf(a, d)) == FinalOf(a)
  {
    FinalsConcat(LogsBefore(d), EventsOf(a, d));
    LogsAreNotFinal(LogsBefore(d));
    FinalsConcat(RetryNotice(d), EventsAfterRoute(a));
    LogsAreNotFinal(RetryNotice(d));
    FinalsOfAttempt(a);
  }

  lemma FinalsOfAttempt(a: Attempt)
    ensures Finals(EventsAfterRoute(a)) == FinalOf(a)
  {
    if a.Completes? { FinalsConcat([ResultEvent(a.value)], [Log]); assert [ResultEvent(a.value)] + [Log] == [ResultEvent(a.value), Log]; }
  }

  /** The events up to and including the first final one. */
  function Cut(events: seq<Event>): seq<Event> {
    if events == [] then [] else if IsFinal(events[0]) then [events[0]] else [events[0]] + Cut(events[1..])
  }

  lemma {:induction false} CutAfterLogs(logs: seq<Event>, rest: seq<Event>)
    requires AllLogs(logs)
    ensures Cut(logs + rest) == logs + Cut(rest)
  {
    if logs == [] {
      assert logs + rest == rest;
    } else {
      assert (logs + rest)[1..] == logs[1..] + rest;
      CutAfterLogs(logs[1..], rest);
    }
  }

  /** On success the audit entry is the only event after the final one, so a stream that stops at the final
      event delivers everything else and never the audit entry. */
  lemma StreamEndsBeforeAudit(s: Surroundings, n: nat)
    requires n < |s.attempts| && Outcome(s, n).ending.Returned? && Outcome(s, n).ending.reply.Result?
    ensures var t := Outcome(s, n); t.events == Cut(t.events) + [Log] && Cut(t.events)[|Cut(t.events)| - 1] == ResultEvent(t.ending.reply.value)
  {
    var t, d := Outcome(s, n), Decisive(s, n, 0);
    var logs, v := LogsBefore(d) + RetryNotice(d), t.ending.reply.value;
    assert t.events == logs + [ResultEvent(v), Log];
    CutAfterLogs(logs, [ResultEvent(v), Log]);
  }

  /** A task cancellation during the backoff, or while a failure is logged, leaves the row at RUNNING;
      one that arrives after the DONE commit overwrites it. */
  lemma CancellationEdges(s: Surroundings, n: nat)
    requires n < |s.attempts| && s.start.Commits? && !Flagged(s, Decisive(s, n, 0))
    ensures var t := Outcome(s, n); var a := s.attempts[Decisive(s, n, 0)];
      && ((a.RouteRaises? || a.DoneWriteRaises?) && a.interrupted ==> t.writes == [RUNNING] && t.ending == Escaped)
      && (a.CancelledAfterDone? && s.last.Commits? ==> t.writes == [RUNNING, DONE(a.value), CANCELLED])
      && (a.Unserialisable? && !a.interrupted && s.last.Commits? ==>
           t.writes == [RUNNING, DONE(a.value), FAILED(OtherException)] && t.ending == Returned(ToolError(OtherException)))
  {}

  /******* The loop of the source *******/

  class Run {
    var writes: seq<Status>
    var events: seq<Event>
    var routes: nat

    constructor ()
      ensures writes == [] && events == [] && routes == 0
    {
      writes, events, routes := [], [], 0;
    }

    /** `_mark_cancelled` and what follows it. */
    method MarkCancelled(last: Write) returns (ending: Ending)
      modifies this`writes
      ensures Trace(writes, events, routes, ending) == GivesWay(old(writes), events, routes, last)
    {
      if last.Raises? { return Escaped; }
      writes := writes + [CANCELLED];
      return if last.Commits? then Returned(CancelledError) else Escaped;
    }

    /** `_mark_failed`, the error event and the error reply. */
    method MarkFailed(f: Failure, last: Write) returns (ending: Ending)
      modifies this`writes, this`events
      ensures Trace(writes, events, routes, ending) == GivesUp(old(writes), old(events), routes, f, last)
    {
      if last.Raises? { return Escaped; }
      writes := writes + [FAILED(f)];
      if last.CommitsThenCancelled? { return Escaped; }
      events := events + [ErrorEvent(f)];
      return Returned(ToolError(f));
    }

    /** The body of the `try` and its `except` clauses, for attempt number `k`. */
    method TryOnce(a: Attempt, k: nat, n: nat) returns (next: Next)
      modifies this
      ensures writes == old(writes) + WritesOf(a) && events == old(events) + EventsOf(a, k)
      ensures routes == old(routes) + RoutesOf(a) && next == NextOf(a, k, n)
    {
      if a.CancelledBeforeRoute? { return GiveWay; }
      if k > 0 { events := events + [Log]; }
      assert events == old(events) + RetryNotice(k);
      routes := routes + 1;
      var lastError: Failure;
      match a {
        case Completes(v) =>
          writes := writes + [DONE(v)];
          events := events + [ResultEvent(v)];
          events := events + [Log];
          assert events == old(events) + (RetryNotice(k) + EventsAfterRoute(a));
          return Answer(v);
        case CancelledBeforeDone =>
          return GiveWay;
        case CancelledAfterDone(v, published) =>
          writes := writes + [DONE(v)];
          if published { events := events + [ResultEvent(v)]; }
          assert events == old(events) + (RetryNotice(k) + EventsAfterRoute(a));
          return GiveWay;
        case RouteRaises(f, _) => lastError := f;
        case DoneWriteRaises(f, _) => lastError := f;
        case Unserialisable(v, _) =>
          writes := writes + [DONE(v)];
          lastError := OtherException;
      }
      if a.interrupted { return Escape; }
      events := events + [Log];
      assert events == old(events) + (RetryNotice(k) + EventsAfterRoute(a));
      if k >= n || !IsTransient(lastError) { return GiveUp(lastError); }
      return Again;
    }

    /** `_run`, inside the semaphore, with `MAX_RETRIES` equal to `n`. */
    method Execute(s: Surroundings, n: nat) returns (ending: Ending)
      requires writes == [] && events == [] && routes == 0 && n < |s.attempts|
      modifies this
      ensures Trace(writes, events, routes, ending) == Outcome(s, n)
    {
      if s.start.Raises? { return Escaped; }
      writes := [RUNNING];
      if s.start.CommitsThenCancelled? { return Escaped; }
      events := [Log];
      for k := 0 to n + 1
        invariant k <= n ==> Decisive(s, n, 0) == Decisive(s, n, k)
        invariant k <= n && writes == [RUNNING] && events == LogsBefore(k) && routes == k
      {
        if Flagged(s, k) {
          ending := MarkCancelled(s.last);
          return;
        }
        var next := TryOnce(s.attempts[k], k, n);
        match next
        case Answer(v) => return Returned(Result(v));
        case GiveWay => ending := MarkCancelled(s.last); return;
        case GiveUp(f) => ending := MarkFailed(f, s.last); return;
        case Escape => return Escaped;
        case Again =>
          assert LogsBefore(k + 1) == LogsBefore(k) + EventsOf(s.attempts[k], k);
      }
    }
  }
}

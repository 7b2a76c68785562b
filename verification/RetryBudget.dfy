/**
 How much one remote invocation can cost: retries of the service, one reconnect of the pool and the fall back
 from the SDK session to plain HTTP, multiplied out, and the time spent backing off.
 */
module RetryBudget {
  import opened Common
  import opened Invocation

  /** What the backend does with one call. */
  datatype Backend = Answers(value: Value) | Fails(failure: Failure)

  /** What `connect` does: a session, no SDK installed, or a refusal, which it raises as ConnectionError. */
  datatype Dial = WithSession | WithoutSdk | Refused

  /** One use of a wrapper, as far as it gets: whether it is connected on another loop, dialling if needed, the session
      call, the HTTP call. */
  datatype Wire = Wire(elsewhere: bool, dial: Dial, sdk: Backend, http: Backend)

  /** The flag of the pool entry, and whether its wrapper has a session. */
  datatype Link = Link(connected: bool, session: bool)

  /** The errors that are worth one reconnect; a timeout is an OSError. */
  predicate Reconnectable(f: Failure) {
    f.ConnectionError? || f.OSError? || f.TimeoutError? || f.RuntimeError?
  }

  datatype Spent = Spent(link: Link, calls: nat, result: Backend)

  /** One `acquire` and `call_tool`. */
  function Use(link: Link, w: Wire): (u: Spent)
    ensures u.calls <= 2
    ensures u.result.Fails? ==> u.result == w.http || (u.result == Fails(ConnectionError) && u.calls == 0)
  {
    var here := if link.connected && w.elsewhere then Closed(link) else link;
    if !here.connected && w.dial.Refused? then Spent(here, 0, Fails(ConnectionError))
    else
      var open := if here.connected then here else Link(true, w.dial.WithSession? || here.session);
      if open.session && w.sdk.Answers? then Spent(open, 1, w.sdk)
      else Spent(open, if open.session then 2 else 1, w.http)
  }

  /** `call_tool` of the pool: a reconnectable failure closes the link and has one more use; `other` is the link of the
      entry that is pooled by then, if it is no longer the same one. */
  function PoolCall(link: Link, first: Wire, second: Wire, other: Option<Link>): (u: Spent)
    ensures u.calls <= 4
  {
    var u := Use(link, first);
    if u.result.Fails? && Reconnectable(u.result.failure) then
      var v := Use(if other.Some? then other.value else Closed(u.link), second);
      v.(calls := u.calls + v.calls)
    else u
  }

  /** `_hard_close`. */
  function Closed(link: Link): Link {
    if link.connected then Link(false, false) else link
  }

  /** One route call; `wait_for` may cut it short after some backend calls, leaving the link as it is then. */
  datatype Trip = Trip(first: Wire, second: Wire, other: Option<Link>, cut: Option<(nat, Link)>)

  function Route(link: Link, trip: Trip): (u: Spent)
    ensures u.calls <= 4
  {
    var u := PoolCall(link, trip.first, trip.second, trip.other);
    if trip.cut.None? then u
    else Spent(trip.cut.value.1, if trip.cut.value.0 < u.calls then trip.cut.value.0 else u.calls, Fails(TimeoutError))
  }

  /** The pool entry and its wrapper, changed in place. */
  class Pooled {
    var connected: bool
    var session: bool
    var calls: nat

    ghost function View(): Link
      reads this
    {
      Link(connected, session)
    }

    constructor ()
      ensures View() == Link(false, false) && calls == 0
    {
      connected, session, calls := false, false, 0;
    }

    method Connect(dial: Dial) returns (ok: bool)
      modifies this`session
      ensures ok == !dial.Refused? && session == (old(session) || dial.WithSession?)
    {
      if dial.WithSession? { session := true; }
      return !dial.Refused?;
    }

    /** `call_tool` of the wrapper: any failure of the session falls back to HTTP. */
    method CallTool(sdk: Backend, http: Backend) returns (result: Backend)
      modifies this`calls
      ensures if session && sdk.Answers? then result == sdk && calls == old(calls) + 1
              else result == http && calls == old(calls) + (if session then 2 else 1)
    {
      if session {
        calls := calls + 1;
        if sdk.Answers? { return sdk; }
      }
      calls := calls + 1;
      return http;
    }

    /** `acquire` around one call. */
    method AcquireAndCall(w: Wire) returns (result: Backend)
      modifies this
      ensures calls >= old(calls) && Spent(View(), calls - old(calls), result) == Use(old(View()), w)
    {
      if connected && w.elsewhere { HardClose(); }
      if !connected {
        var ok := Connect(w.dial);
        if !ok { return Fails(ConnectionError); }
        connected := true;
      }
      result := CallTool(w.sdk, w.http);
    }

    method HardClose()
      modifies this`connected, this`session
      ensures View() == Closed(old(View()))
    {
      if connected { session := false; }
      connected := false;
    }

    /** `call_tool` of the pool. */
    method PoolCallTool(first: Wire, second: Wire, other: Option<Link>) returns (result: Backend)
      modifies this
      ensures calls >= old(calls) && Spent(View(), calls - old(calls), result) == PoolCall(old(View()), first, second, other)
    {
      result := AcquireAndCall(first);
      if result.Fails? && Reconnectable(result.failure) {
        HardClose();
        if other.Some? { connected, session := other.value.connected, other.value.session; }
        result := AcquireAndCall(second);
      }
    }
  }

  /******* One invocation *******/

  /** The link before route call number `m`. */
  function LinkAt(link: Link, trips: seq<Trip>, m: nat): Link
    requires m <= |trips|
  {
    if m == 0 then link else Route(LinkAt(link, trips, m - 1), trips[m - 1]).link
  }

  /** The backend calls of the first `m` route calls. */
  function TotalCalls(link: Link, trips: seq<Trip>, m: nat): nat
    requires m <= |trips|
  {
    if m == 0 then 0 else TotalCalls(link, trips, m - 1) + Route(LinkAt(link, trips, m - 1), trips[m - 1]).calls
  }

  /** The attempt saw what its route call brought, unless the task was cancelled. */
  predicate Agrees(a: Attempt, result: Backend) {
    match a
    case RouteRaises(f, _) => result == Fails(f)
    case Completes(v) => result == Answers(v)
    case Unserialisable(v, _) => result == Answers(v)
    case CancelledAfterDone(v, _) => result == Answers(v)
    case DoneWriteRaises(_, _) => result.Answers?
    case _ => true
  }

  ghost predicate RemoteRun(s: Surroundings, n: nat, link: Link, trips: seq<Trip>) {
    && n < |s.attempts| && n < |trips|
    && forall j :: 0 <= j <= n ==> Agrees(s.attempts[j], Route(LinkAt(link, trips, j), trips[j]).result)
  }

  lemma {:induction false} FourPerRoute(link: Link, trips: seq<Trip>, m: nat)
    requires m <= |trips|
    ensures TotalCalls(link, trips, m) <= 4 * m
  {
    if m > 0 { FourPerRoute(link, trips, m - 1); }
  }

  /** A remote invocation makes at most `(n + 1) * 2 * 2` backend calls, whatever fails and whenever it is cut. */
  lemma BackendCallsAreBounded(s: Surroundings, n: nat, link: Link, trips: seq<Trip>)
    requires RemoteRun(s, n, link, trips)
    ensures Outcome(s, n).routes <= n + 1
    ensures TotalCalls(link, trips, Outcome(s, n).routes) <= (n + 1) * 2 * 2
  {
    RetriesOnlyTransientFailures(s, n);
    FourPerRoute(link, trips, Outcome(s, n).routes);
  }

  /** A route that fails and was not cut short has used its reconnect if the first failure allowed one, and the
      failure it reports is that of the last use. */
  lemma UncutFailure(link: Link, trip: Trip)
    requires trip.cut.None? && Route(link, trip).result.Fails?
    ensures var first := Use(link, trip.first);
      && first.result.Fails?
      && (if Reconnectable(first.result.failure) then Route(link, trip).result == Use(if trip.other.Some? then trip.other.value else Closed(first.link), trip.second).result
          else Route(link, trip).result == first.result)
  {}

  /** A pooled call has its second use exactly after a connection error, an OS error, a timeout or a runtime error. */
  lemma ReconnectsExactly(link: Link, first: Wire, second: Wire, other: Option<Link>)
    requires Use(link, first).result.Fails?
    ensures var u := Use(link, first); var v := Use(if other.Some? then other.value else Closed(u.link), second);
      PoolCall(link, first, second, other) == match u.result.failure
        case ConnectionError => v.(calls := u.calls + v.calls)
        case OSError => v.(calls := u.calls + v.calls)
        case TimeoutError => v.(calls := u.calls + v.calls)
        case RuntimeError => v.(calls := u.calls + v.calls)
        case RemoteCallError => u
        case RoutingError => u
        case OtherException => u
  {}

  /** A RuntimeError that survives the reconnect ends the invocation: the route call that raised it is the last. */
  lemma RuntimeErrorEndsTheRun(s: Surroundings, n: nat, link: Link, trips: seq<Trip>, j: nat)
    requires RemoteRun(s, n, link, trips) && j < Outcome(s, n).routes && j <= n
    requires Route(LinkAt(link, trips, j), trips[j]).result == Fails(RuntimeError)
    ensures Outcome(s, n).routes == j + 1
    ensures Use(LinkAt(link, trips, j), trips[j].first).result.Fails? && trips[j].second.http == Fails(RuntimeError)
  {
    var d := Decisive(s, n, 0);
    UncutFailure(LinkAt(link, trips, j), trips[j]);
    RetriesOnlyTransientFailures(s, n);
    var a := s.attempts[j];
    var next := NextOf(a, j, n);
    assert Agrees(a, Fails(RuntimeError));
    assert j < d ==> next == Again;
  }

  /** Every stage fails: the bound is reached. */
  const DEAD_WIRE := Wire(false, WithSession, Fails(ConnectionError), Fails(ConnectionError))

  function DeadTrips(n: nat): (trips: seq<Trip>)
    ensures |trips| == n + 1 && forall j :: 0 <= j <= n ==> trips[j] == Trip(DEAD_WIRE, DEAD_WIRE, None, None)
  {
    seq(n + 1, _ => Trip(DEAD_WIRE, DEAD_WIRE, None, None))
  }

  function DeadRun(n: nat): (s: Surroundings)
    ensures |s.attempts| == n + 1 && forall j :: 0 <= j <= n ==> s.attempts[j] == RouteRaises(ConnectionError, false)
    ensures s.start == Commits && s.flagged == None
  {
    Surroundings(Commits, seq(n + 1, _ => RouteRaises(ConnectionError, false)), None, Commits)
  }

  lemma {:induction false} DeadTripsCostFour(n: nat, m: nat)
    requires m <= n + 1
    ensures TotalCalls(Link(false, false), DeadTrips(n), m) == 4 * m
    ensures LinkAt(Link(false, false), DeadTrips(n), m) == Link(m > 0, m > 0)
  {
    if m > 0 { DeadTripsCostFour(n, m - 1); }
  }

  lemma BoundIsReached(n: nat)
    ensures var s, trips := DeadRun(n), DeadTrips(n);
      && RemoteRun(s, n, Link(false, false), trips) && Outcome(s, n).routes == n + 1
      && TotalCalls(Link(false, false), trips, n + 1) == (n + 1) * 2 * 2
  {
    var s, trips := DeadRun(n), DeadTrips(n);
    DeadTripsCostFour(n, n + 1);
    forall j | 0 <= j <= n ensures Agrees(s.attempts[j], Route(LinkAt(Link(false, false), trips, j), trips[j]).result) {
      DeadTripsCostFour(n, j);
    }
    var d := Decisive(s, n, 0);
    var next := NextOf(s.attempts[d], d, n);
    assert d < n ==> next == Again;
  }

  /******* Backing off *******/

  function Pow2(k: nat): nat {
    if k == 0 then 1 else 2 * Pow2(k - 1)
  }

  /** `_backoff_seconds`, for a jitter drawn from [0, 0.5]. */
  function Backoff(k: nat, jitter: real): real {
    Pow2(k) as real + jitter
  }

  /** The pauses after the first `m` attempts. */
  function TotalBackoff(jitter: seq<real>, m: nat): real
    requires m <= |jitter|
  {
    if m == 0 then 0.0 else TotalBackoff(jitter, m - 1) + Backoff(m - 1, jitter[m - 1])
  }

  lemma {:induction false} BackoffIsBounded(jitter: seq<real>, m: nat)
    requires m <= |jitter| && forall k :: 0 <= k < |jitter| ==> 0.0 <= jitter[k] <= 0.5
    ensures Pow2(m) as real - 1.0 <= TotalBackoff(jitter, m) <= Pow2(m) as real - 1.0 + m as real / 2.0
  {
    if m > 0 { BackoffIsBounded(jitter, m - 1); }
  }

  lemma {:induction false} Pow2Monotone(a: nat, b: nat)
    requires a <= b
    ensures Pow2(a) <= Pow2(b)
  {
    if a < b { Pow2Monotone(a, b - 1); }
  }

  /** A run pauses after each of its attempts but the decisive one: never longer in all than `2^n - 1 + n/2`
      seconds, and exactly within those bounds for the number of retries it made. */
  lemma RunBacksOffWithinBudget(s: Surroundings, n: nat, jitter: seq<real>)
    requires n < |s.attempts| && n <= |jitter| && forall k :: 0 <= k < |jitter| ==> 0.0 <= jitter[k] <= 0.5
    ensures var d := Decisive(s, n, 0); var t := TotalBackoff(jitter, d);
      && Pow2(d) as real - 1.0 <= t <= Pow2(d) as real - 1.0 + d as real / 2.0
      && t <= Pow2(n) as real - 1.0 + n as real / 2.0
  {
    var d := Decisive(s, n, 0);
    BackoffIsBounded(jitter, d);
    Pow2Monotone(d, n);
  }
}

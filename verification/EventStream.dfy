/**
 In-process pub/sub and the streaming generator of the event bus: queues behind channels, publishers
 and any number of subscribers in any interleaving.
 */
module EventStream {
  import opened Invocation

  type Channel = string
  type QueueId = nat

  /** What travels on a channel: an encoded event, or text that `json.loads` refuses. */
  datatype Payload = Json(event: Event) | Garbage

  /** `_channels` of the in-process Redis, and the queues of its subscribers. */
  datatype Hub = Hub(channels: map<Channel, set<QueueId>>, queues: map<QueueId, seq<Payload>>)

  function SubscribersOf(h: Hub, ch: Channel): set<QueueId> {
    if ch in h.channels then h.channels[ch] else {}
  }

  function Subscribed(h: Hub, q: QueueId, ch: Channel): Hub {
    Hub(h.channels[ch := SubscribersOf(h, ch) + {q}], h.queues[q := []])
  }

  /** An emptied set of subscribers is dropped. */
  function Unsubscribed(h: Hub, q: QueueId, ch: Channel): Hub {
    var rest := SubscribersOf(h, ch) - {q};
    h.(channels := if rest == {} then h.channels - {ch} else h.channels[ch := rest])
  }

  function Published(h: Hub, ch: Channel, m: Payload): Hub {
    h.(queues := map q | q in h.queues :: if q in SubscribersOf(h, ch) then h.queues[q] + [m] else h.queues[q])
  }

  /** The tables of the in-process Redis, changed in place. */
  class Broker {
    var channels: map<Channel, set<QueueId>>
    var queues: map<QueueId, seq<Payload>>

    ghost function View(): Hub
      reads this
    {
      Hub(channels, queues)
    }

    constructor ()
      ensures View() == Hub(map[], map[])
    {
      channels, queues := map[], map[];
    }

    /** `pubsub()` and `subscribe`: a new queue joins the channel. */
    method Subscribe(q: QueueId, ch: Channel)
      modifies this
      ensures View() == Subscribed(old(View()), q, ch)
    {
      queues := queues[q := []];
      if ch !in channels { channels := channels[ch := {}]; }
      channels := channels[ch := channels[ch] + {q}];
    }

    method Unsubscribe(q: QueueId, ch: Channel)
      modifies this
      ensures View() == Unsubscribed(old(View()), q, ch)
    {
      if ch in channels {
        var subs := channels[ch] - {q};
        channels := channels[ch := subs];
        if subs == {} { channels := channels - {ch}; }
      }
      assert View().channels == Unsubscribed(old(View()), q, ch).channels;
    }

    /** `publish`: every subscriber's queue gets the message; the result is their number. */
    method Publish(ch: Channel, m: Payload) returns (n: nat)
      requires forall q <- SubscribersOf(View(), ch) :: q in queues
      modifies this`queues
      ensures View() == Published(old(View()), ch, m) && n == |SubscribersOf(View(), ch)|
    {
      if ch !in channels || channels[ch] == {} {
        assert View().queues == Published(old(View()), ch, m).queues;
        return 0;
      }
      var rest := channels[ch];
      while rest != {}
        invariant rest <= channels[ch] && queues.Keys == old(queues).Keys
        invariant forall q <- queues :: queues[q] == if q in channels[ch] - rest then old(queues)[q] + [m] else old(queues)[q]
        decreases |rest|
      {
        var q :| q in rest;
        queues := queues[q := queues[q] + [m]];
        rest := rest - {q};
      }
      assert View().queues == Published(old(View()), ch, m).queues;
      return |channels[ch]|;
    }
  }

  /******* Streams *******/

  /** Where a generator is: between events, suspended on the final event it yielded, or finished. */
  datatype Phase = Open | Ending | Closed

  /** One `subscribe` generator. `sent` is what its channel has carried since it subscribed, `taken` how much
      of it has been taken from the queue. */
  datatype Stream = Stream(channel: Channel, phase: Phase, yielded: seq<Event>, sent: seq<Payload>, taken: nat)

  datatype State = State(hub: Hub, streams: map<QueueId, Stream>)

  const INIT := State(Hub(map[], map[]), map[])

  datatype Step =
    | Start(q: QueueId, ch: Channel)         // the generator subscribes
    | Send(ch: Channel, m: Payload)          // `publish`
    | Take(q: QueueId)                       // `get_message` returns the next message
    | Stop(q: QueueId)                       // deadline, `aclose`, or resumption after the final event

  function Recorded(s: Stream, m: Payload): Stream {
    if s.phase.Closed? then s else s.(sent := s.sent + [m])
  }

  function Taken(s: Stream, m: Payload): Stream {
    match m
    case Garbage => s.(taken := s.taken + 1)
    case Json(e) => s.(taken := s.taken + 1, yielded := s.yielded + [e], phase := if IsFinal(e) then Ending else Open)
  }

  function Apply(s: State, step: Step): State {
    match step
    case Start(q, ch) =>
      if q in s.streams then s
      else State(Subscribed(s.hub, q, ch), s.streams[q := Stream(ch, Open, [], [], 0)])
    case Send(ch, m) =>
      State(Published(s.hub, ch, m), map q | q in s.streams :: if s.streams[q].channel == ch then Recorded(s.streams[q], m) else s.streams[q])
    case Take(q) =>
      if q !in s.streams || !s.streams[q].phase.Open? || q !in s.hub.queues || s.hub.queues[q] == [] then s
      else State(s.hub.(queues := s.hub.queues[q := s.hub.queues[q][1..]]), s.streams[q := Taken(s.streams[q], s.hub.queues[q][0])])
    case Stop(q) =>
      if q !in s.streams || s.streams[q].phase.Closed? then s
      else State(Unsubscribed(s.hub, q, s.streams[q].channel), s.streams[q := s.streams[q].(phase := Closed)])
  }

  function After(steps: seq<Step>): State {
    if steps == [] then INIT else Apply(After(steps[..|steps| - 1]), steps[|steps| - 1])
  }

  /** The events among some payloads, in order. */
  function Decoded(ms: seq<Payload>): seq<Event> {
    if ms == [] then [] else (if ms[0].Json? then [ms[0].event] else []) + Decoded(ms[1..])
  }

  lemma {:induction false} DecodedConcat(a: seq<Payload>, b: seq<Payload>)
    ensures Decoded(a + b) == Decoded(a) + Decoded(b)
  {
    if a == [] {
      assert a + b == b;
    } else {
      var head := if a[0].Json? then [a[0].event] else [];
      calc {
        Decoded(a + b);
        { assert (a + b)[0] == a[0] && (a + b)[1..] == a[1..] + b; }
        head + Decoded(a[1..] + b);
        { DecodedConcat(a[1..], b); }
        head + (Decoded(a[1..]) + Decoded(b));
        (head + Decoded(a[1..])) + Decoded(b);
      }
    }
  }

  /** Nothing final, or the only final event is the last one. */
  ghost predicate EndsAtFinal(events: seq<Event>) {
    forall i :: 0 <= i < |events| - 1 ==> !IsFinal(events[i])
  }

  ghost predicate LastIsFinal(events: seq<Event>) {
    events != [] && IsFinal(events[|events| - 1])
  }

  /** The queue of a stream holds exactly what has been sent and not taken; what was taken was yielded. */
  ghost predicate StreamOk(s: Stream, queue: seq<Payload>) {
    && s.taken <= |s.sent| && s.yielded == Decoded(s.sent[..s.taken]) && EndsAtFinal(s.yielded)
    && (s.phase.Open? ==> !LastIsFinal(s.yielded))
    && (s.phase.Ending? ==> LastIsFinal(s.yielded))
    && (!s.phase.Closed? ==> queue == s.sent[s.taken..])
  }

  /** A queue is in the set of its own channel while its stream is not closed, and in no other. */
  ghost predicate HubOk(s: State) {
    && (forall q <- s.streams :: q in s.hub.queues)
    && (forall ch <- s.hub.channels :: s.hub.channels[ch] != {})
    && (forall ch, q :: q in SubscribersOf(s.hub, ch) <==> q in s.streams && s.streams[q].channel == ch && !s.streams[q].phase.Closed?)
  }

  ghost predicate Valid(s: State) {
    HubOk(s) && forall q <- s.streams :: StreamOk(s.streams[q], s.hub.queues[q])
  }

  lemma TakenOk(s: Stream, queue: seq<Payload>)
    requires StreamOk(s, queue) && s.phase.Open? && queue != []
    ensures StreamOk(Taken(s, queue[0]), queue[1..])
  {
    assert s.sent[..s.taken + 1] == s.sent[..s.taken] + [queue[0]];
    DecodedConcat(s.sent[..s.taken], [queue[0]]);
  }

  lemma RecordedOk(s: Stream, queue: seq<Payload>, m: Payload)
    requires StreamOk(s, queue)
    ensures StreamOk(Recorded(s, m), if s.phase.Closed? then queue else queue + [m])
  {
    assert (s.sent + [m])[..s.taken] == s.sent[..s.taken];
  }

  /** Streams that keep their channel and stay open or closed keep the channel sets right. */
  lemma SameMembers(s: State, r: State)
    requires HubOk(s) && r.hub.channels == s.hub.channels && r.hub.queues.Keys == s.hub.queues.Keys
    requires r.streams.Keys == s.streams.Keys
    requires forall q <- s.streams :: r.streams[q].channel == s.streams[q].channel && r.streams[q].phase.Closed? == s.streams[q].phase.Closed?
    ensures HubOk(r)
  {
    forall c, p ensures p in SubscribersOf(r.hub, c) <==> p in r.streams && r.streams[p].channel == c && !r.streams[p].phase.Closed? {
      assert SubscribersOf(r.hub, c) == SubscribersOf(s.hub, c);
    }
  }

  lemma SendKeeps(s: State, ch: Channel, m: Payload)
    requires Valid(s)
    ensures Valid(Apply(s, Send(ch, m)))
  {
    var r := Apply(s, Send(ch, m));
    SameMembers(s, r);
    forall q <- r.streams ensures StreamOk(r.streams[q], r.hub.queues[q]) {
      RecordedOk(s.streams[q], s.hub.queues[q], m);
    }
  }

  lemma StartKeeps(s: State, q: QueueId, ch: Channel)
    requires Valid(s)
    ensures Valid(Apply(s, Start(q, ch)))
  {
    var r := Apply(s, Start(q, ch));
    if q !in s.streams {
      forall c, p ensures p in SubscribersOf(r.hub, c) <==> p in r.streams && r.streams[p].channel == c && !r.streams[p].phase.Closed? {
        assert SubscribersOf(r.hub, c) == if c == ch then SubscribersOf(s.hub, c) + {q} else SubscribersOf(s.hub, c);
      }
    }
  }

  lemma StopKeeps(s: State, q: QueueId)
    requires Valid(s)
    ensures Valid(Apply(s, Stop(q)))
  {
    var r := Apply(s, Stop(q));
    if q in s.streams && !s.streams[q].phase.Closed? {
      var own := s.streams[q].channel;
      forall ch, p ensures p in SubscribersOf(r.hub, ch) <==> p in r.streams && r.streams[p].channel == ch && !r.streams[p].phase.Closed? {
        assert SubscribersOf(r.hub, ch) == if ch == own then SubscribersOf(s.hub, ch) - {q} else SubscribersOf(s.hub, ch);
      }
    }
  }

  lemma TakeKeeps(s: State, q: QueueId)
    requires Valid(s)
    ensures Valid(Apply(s, Take(q)))
  {
    var r := Apply(s, Take(q));
    if r != s {
      TakenOk(s.streams[q], s.hub.queues[q]);
      SameMembers(s, r);
    }
  }

  lemma StepKeeps(s: State, step: Step)
    requires Valid(s)
    ensures Valid(Apply(s, step))
  {
    match step
    case Start(q, ch) => StartKeeps(s, q, ch);
    case Send(ch, m) => SendKeeps(s, ch, m);
    case Stop(q) => StopKeeps(s, q);
    case Take(q) => TakeKeeps(s, q);
  }

  lemma {:induction false} ReachableIsValid(steps: seq<Step>)
    ensures Valid(After(steps))
  {
    if steps != [] {
      ReachableIsValid(steps[..|steps| - 1]);
      StepKeeps(After(steps[..|steps| - 1]), steps[|steps| - 1]);
    }
  }

  /******* What a subscriber sees *******/

  /** What the steps say that a queue's channel has carried since the queue first subscribed, whatever became
      of its stream. */
  datatype Traffic = NotYet | Since(channel: Channel, carried: seq<Payload>)

  function TrafficOf(steps: seq<Step>, q: QueueId): Traffic {
    if steps == [] then NotYet else TrafficAfter(TrafficOf(steps[..|steps| - 1], q), steps[|steps| - 1], q)
  }

  function TrafficAfter(t: Traffic, step: Step, q: QueueId): Traffic {
    match step
    case Start(p, ch) => if p == q && t.NotYet? then Since(ch, []) else t
    case Send(ch, m) => if t.Since? && t.channel == ch then Since(ch, t.carried + [m]) else t
    case _ => t
  }

  /** The record that a stream keeps agrees with the traffic, up to the moment it closes. */
  lemma {:induction false} SentIsTraffic(steps: seq<Step>, q: QueueId)
    ensures q in After(steps).streams <==> TrafficOf(steps, q).Since?
    ensures q in After(steps).streams ==> var s, t := After(steps).streams[q], TrafficOf(steps, q);
      s.channel == t.channel && s.sent <= t.carried && (!s.phase.Closed? ==> s.sent == t.carried)
  {
    if steps != [] { SentIsTraffic(steps[..|steps| - 1], q); }
  }

  lemma {:induction false} CutOfConcat(a: seq<Event>, b: seq<Event>)
    requires EndsAtFinal(a)
    ensures Cut(a + b) == if LastIsFinal(a) then a else a + Cut(b)
  {
    if a == [] {
      assert a + b == b;
    } else {
      assert (a + b)[1..] == a[1..] + b && a == [a[0]] + a[1..];
      if |a| == 1 {
        assert a[1..] + b == b;
      } else {
        CutOfConcat(a[1..], b);
      }
    }
  }

  /** In every interleaving, what a stream has yielded is a prefix of the events that its channel carried after
      it subscribed, in order, cut after the first final one; and it is the whole cut as soon as the final event
      has been yielded, or the stream is open and has taken everything. */
  lemma StreamYieldsTheCut(steps: seq<Step>, q: QueueId)
    requires q in After(steps).streams
    ensures TrafficOf(steps, q).Since?
    ensures var s, cut := After(steps).streams[q], Cut(Decoded(TrafficOf(steps, q).carried));
      && s.yielded <= cut
      && (LastIsFinal(s.yielded) ==> s.yielded == cut)
      && (s.phase.Open? && s.taken == |TrafficOf(steps, q).carried| ==> s.yielded == cut)
  {
    ReachableIsValid(steps);
    SentIsTraffic(steps, q);
    var s, all := After(steps).streams[q], TrafficOf(steps, q).carried;
    assert all == s.sent[..s.taken] + all[s.taken..];
    DecodedConcat(s.sent[..s.taken], all[s.taken..]);
    CutOfConcat(s.yielded, Decoded(all[s.taken..]));
  }

  /** A stream that has ended has left every channel, and no channel is kept without a subscriber. */
  lemma ClosedStreamsLeaveNothing(steps: seq<Step>)
    ensures var s := After(steps);
      && (forall q, ch :: q in s.streams && s.streams[q].phase.Closed? ==> q !in SubscribersOf(s.hub, ch))
      && (forall ch <- s.hub.channels :: s.hub.channels[ch] != {})
      && (forall ch <- s.hub.channels, q <- s.hub.channels[ch] :: q in s.streams && s.streams[q].channel == ch)
  {
    ReachableIsValid(steps);
    var s := After(steps);
    forall ch <- s.hub.channels, q <- s.hub.channels[ch] ensures q in s.streams && s.streams[q].channel == ch {
      assert q in SubscribersOf(s.hub, ch);
    }
  }

  lemma CutIsMonotone(a: seq<Event>, b: seq<Event>)
    requires a <= b
    ensures Cut(a) <= Cut(b)
  {
    if a != [] && !IsFinal(a[0]) { CutIsMonotone(a[1..], b[1..]); }
  }

  lemma CutLeavesAudit(yielded: seq<Event>, heard: seq<Event>, events: seq<Event>)
    requires heard <= events && events == Cut(events) + [Log]
    requires yielded <= Cut(heard) && EndsAtFinal(yielded)
    ensures yielded <= events[..|events| - 1] && (LastIsFinal(yielded) ==> yielded == events[..|events| - 1])
  {
    CutIsMonotone(heard, events);
    assert Cut(events) == events[..|events| - 1];
    if LastIsFinal(yielded) {
      assert events == yielded + events[|yielded|..];
      CutOfConcat(yielded, events[|yielded|..]);
    }
  }

  /******* A stream that is read gets everything *******/

  lemma AfterOneMore(steps: seq<Step>, step: Step)
    ensures After(steps + [step]) == Apply(After(steps), step)
  {
    assert (steps + [step])[..|steps|] == steps;
  }

  lemma TrafficAfterTake(steps: seq<Step>, q: QueueId, p: QueueId)
    ensures TrafficOf(steps + [Take(p)], q) == TrafficOf(steps, q)
  {
    assert (steps + [Take(p)])[..|steps|] == steps;
  }

  /** The next message of an open stream, if there is one, is taken in order; an event is yielded, and a final one ends the
      stream. */
  lemma TakeExactly(steps: seq<Step>, q: QueueId)
    requires q in After(steps).streams && After(steps).streams[q].phase.Open? && TrafficOf(steps, q).Since?
    requires After(steps).streams[q].taken < |TrafficOf(steps, q).carried|
    ensures var s, r := After(steps).streams[q], After(steps + [Take(q)]).streams; var m := TrafficOf(steps, q).carried[s.taken];
      q in r && r[q] == s.(
        taken := s.taken + 1,
        yielded := if m.Json? then s.yielded + [m.event] else s.yielded,
        phase := if m.Json? && !m.event.Log? then Ending else Open)
  {
    ReachableIsValid(steps);
    SentIsTraffic(steps, q);
    AfterOneMore(steps, Take(q));
  }

  /** Stopping an open or ending stream closes it and yields nothing more. */
  lemma StopExactly(steps: seq<Step>, q: QueueId)
    requires q in After(steps).streams
    ensures var s, r := After(steps).streams[q], After(steps + [Stop(q)]).streams; q in r && r[q] == s.(phase := Closed)
  {
    AfterOneMore(steps, Stop(q));
  }

  ghost predicate OnlyTakes(steps: seq<Step>, q: QueueId) {
    forall i :: 0 <= i < |steps| ==> steps[i] == Take(q)
  }

  /** Reading on leads to the whole cut. */
  ghost predicate ReadsAll(steps: seq<Step>, more: seq<Step>, q: QueueId) {
    && OnlyTakes(more, q) && q in After(steps + more).streams && TrafficOf(steps, q).Since?
    && After(steps + more).streams[q].yielded == Cut(Decoded(TrafficOf(steps, q).carried))
  }

  lemma ReadsAllLater(steps: seq<Step>, more: seq<Step>, q: QueueId)
    requires ReadsAll(steps + [Take(q)], more, q)
    ensures ReadsAll(steps, [Take(q)] + more, q)
  {
    assert steps + [Take(q)] + more == steps + ([Take(q)] + more);
    TrafficAfterTake(steps, q, q);
  }

  /** However it got there, an open stream that is read on yields the whole cut of what its channel has carried. */
  lemma {:induction false} ReadingYieldsTheCut(steps: seq<Step>, q: QueueId)
    requires q in After(steps).streams && After(steps).streams[q].phase.Open?
    ensures exists more :: ReadsAll(steps, more, q)
    decreases |After(steps).streams[q].sent| - After(steps).streams[q].taken
  {
    ReachableIsValid(steps);
    SentIsTraffic(steps, q);
    StreamYieldsTheCut(steps, q);
    var s, all := After(steps).streams[q], TrafficOf(steps, q).carried;
    if s.taken == |all| {
      assert steps + [] == steps;
      assert ReadsAll(steps, [], q);
    } else {
      TakeExactly(steps, q);
      TrafficAfterTake(steps, q, q);
      var next := steps + [Take(q)];
      if After(next).streams[q].phase.Open? {
        ReadingYieldsTheCut(next, q);
        var more :| ReadsAll(next, more, q);
        ReadsAllLater(steps, more, q);
      } else {
        StreamYieldsTheCut(next, q);
        assert next + [] == next;
        assert ReadsAll(next, [], q);
        ReadsAllLater(steps, [], q);
      }
    }
  }
}

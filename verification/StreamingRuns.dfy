/**
 The invocations and the event bus together: what the subscribers of an invocation receive, in every interleaving of
 the runs, their publishing and the streams.
 */
module StreamingRuns {
  import opened Common
  import opened Invocation
  import Gate = InvocationGate
  import Theorems = InvocationTheorems
  import Bus = EventStream

  type Id = Gate.Id
  type QueueId = Bus.QueueId

  /** A step of some run, a run's next event reaching the bus, or a step of some stream. */
  datatype Move = Run(step: Gate.Step) | Publish(id: Id) | Listen(act: Bus.Step)

  /** The retry limit, the number of slots, and the channel of each invocation. */
  datatype Setting = Setting(retries: nat, cap: nat, channel: Id -> Bus.Channel)

  ghost predicate OwnChannels(g: Setting) {
    forall i, j :: g.channel(i) == g.channel(j) ==> i == j
  }

  /******* The two histories in one *******/

  function GateSteps(moves: seq<Move>): seq<Gate.Step> {
    if moves == [] then []
    else
      var m := moves[|moves| - 1];
      GateSteps(moves[..|moves| - 1]) + (if m.Run? then [m.step] else [])
  }

  /** What an invocation has published so far, on its way to the bus or on the bus. */
  function EventsOf(moves: seq<Move>, g: Setting, id: Id): seq<Event> {
    var s := Gate.After(g.retries, g.cap, GateSteps(moves));
    if id in s.procs then s.procs[id].events else []
  }

  /** How many of its events have reached the bus. */
  function SentOf(moves: seq<Move>, g: Setting, id: Id): nat {
    if moves == [] then 0
    else
      var before, m := moves[..|moves| - 1], moves[|moves| - 1];
      var n := SentOf(before, g, id);
      if m == Publish(id) && n < |EventsOf(before, g, id)| then n + 1 else n
  }

  /** The steps of the bus. Nobody else sends on it. */
  function BusSteps(moves: seq<Move>, g: Setting): seq<Bus.Step> {
    if moves == [] then []
    else
      var before, m := moves[..|moves| - 1], moves[|moves| - 1];
      BusSteps(before, g) + BusStep(before, m, g)
  }

  function BusStep(before: seq<Move>, m: Move, g: Setting): seq<Bus.Step> {
    match m
    case Run(_) => []
    case Publish(id) =>
      var n := SentOf(before, g, id);
      if n < |EventsOf(before, g, id)| then [Bus.Send(g.channel(id), Bus.Json(EventsOf(before, g, id)[n]))] else []
    case Listen(act) => if act.Send? then [] else [act]
  }

  /** How many events of an invocation had reached the bus when the queue first subscribed. */
  function MissedBy(moves: seq<Move>, g: Setting, q: QueueId, id: Id): nat {
    if moves == [] then 0
    else
      var before := moves[..|moves| - 1];
      if Bus.TrafficOf(BusSteps(before, g), q).NotYet? then SentOf(before, g, id) else MissedBy(before, g, q, id)
  }

  /******* What reaches a queue *******/

  lemma GateSnoc(moves: seq<Move>, g: Setting)
    requires moves != []
    ensures var before, m := moves[..|moves| - 1], moves[|moves| - 1]; var s := Gate.After(g.retries, g.cap, GateSteps(before));
      Gate.After(g.retries, g.cap, GateSteps(moves)) == if m.Run? then Gate.Apply(s, m.step) else s
  {
    var before, m := GateSteps(moves[..|moves| - 1]), moves[|moves| - 1];
    if m.Run? {
      assert GateSteps(moves)[..|before|] == before;
    } else {
      assert GateSteps(moves) == before;
    }
  }

  lemma EventsOnlyGrow(moves: seq<Move>, g: Setting, id: Id)
    requires moves != []
    ensures EventsOf(moves[..|moves| - 1], g, id) <= EventsOf(moves, g, id)
  {
    var before, m := moves[..|moves| - 1], moves[|moves| - 1];
    GateSnoc(moves, g);
    var s := Gate.After(g.retries, g.cap, GateSteps(before));
    if m.Run? && id in s.procs {
      Theorems.ReachableIsValid(g.retries, g.cap, GateSteps(before));
      Theorems.EventsGrow(s, m.step, id);
    }
  }

  lemma {:induction false} SentAreEvents(moves: seq<Move>, g: Setting, id: Id)
    ensures SentOf(moves, g, id) <= |EventsOf(moves, g, id)|
  {
    if moves != [] {
      SentAreEvents(moves[..|moves| - 1], g, id);
      EventsOnlyGrow(moves, g, id);
    }
  }

  lemma TrafficSnoc(moves: seq<Move>, g: Setting, q: QueueId)
    requires moves != []
    ensures var before, m := moves[..|moves| - 1], moves[|moves| - 1]; var t := Bus.TrafficOf(BusSteps(before, g), q);
      Bus.TrafficOf(BusSteps(moves, g), q) == if BusStep(before, m, g) == [] then t else Bus.TrafficAfter(t, BusStep(before, m, g)[0], q)
  {
    var before, m := moves[..|moves| - 1], moves[|moves| - 1];
    var steps := BusSteps(before, g);
    if BusStep(before, m, g) == [] {
      assert steps + [] == steps;
    } else {
      assert BusSteps(moves, g)[..|steps|] == steps;
    }
  }

  /** A subscriber of the channel has been sent the events from the first it did not miss to the last on the bus. */
  ghost predicate Heard(t: Bus.Traffic, channel: Bus.Channel, missed: nat, sent: nat, events: seq<Event>) {
    t.Since? && t.channel == channel ==> missed <= sent <= |events| && Bus.Decoded(t.carried) == events[missed..sent]
  }

  ghost predicate Hears(moves: seq<Move>, g: Setting, q: QueueId, id: Id) {
    Heard(Bus.TrafficOf(BusSteps(moves, g), q), g.channel(id), MissedBy(moves, g, q, id), SentOf(moves, g, id), EventsOf(moves, g, id))
  }

  lemma CountsSnoc(moves: seq<Move>, g: Setting, q: QueueId, id: Id)
    requires moves != []
    ensures var before, m := moves[..|moves| - 1], moves[|moves| - 1]; var n := SentOf(before, g, id);
      && SentOf(moves, g, id) == (if m == Publish(id) && n < |EventsOf(before, g, id)| then n + 1 else n)
      && MissedBy(moves, g, q, id) == (if Bus.TrafficOf(BusSteps(before, g), q).NotYet? then n else MissedBy(before, g, q, id))
  {}

  /** One more event on the wire. */
  lemma OneMoreHeard(carried: seq<Bus.Payload>, events: seq<Event>, m: nat, n: nat)
    requires m <= n < |events| && Bus.Decoded(carried) == events[m..n]
    ensures Bus.Decoded(carried + [Bus.Json(events[n])]) == events[m..n + 1]
  {
    Bus.DecodedConcat(carried, [Bus.Json(events[n])]);
    assert Bus.Decoded([Bus.Json(events[n])]) == [events[n]];
  }

  /** Sending happens on the channel of the run only, and changes none of its events. */
  lemma PublishChanges(moves: seq<Move>, g: Setting, q: QueueId, id: Id)
    requires OwnChannels(g) && moves != [] && moves[|moves| - 1].Publish?
    ensures var before, m := moves[..|moves| - 1], moves[|moves| - 1];
      var t, n, events := Bus.TrafficOf(BusSteps(before, g), q), SentOf(before, g, id), EventsOf(before, g, id);
      && EventsOf(moves, g, id) == events
      && (t.Since? && t.channel == g.channel(id) ==>
           if m.id == id && n < |events| then
             Bus.TrafficOf(BusSteps(moves, g), q) == Bus.Since(t.channel, t.carried + [Bus.Json(events[n])])
           else
             Bus.TrafficOf(BusSteps(moves, g), q) == t)
  {
    TrafficSnoc(moves, g, q);
    GateSnoc(moves, g);
  }

  lemma PublishIsHeard(moves: seq<Move>, g: Setting, q: QueueId, id: Id)
    requires OwnChannels(g) && moves != [] && Hears(moves[..|moves| - 1], g, q, id) && moves[|moves| - 1].Publish?
    ensures Hears(moves, g, q, id)
  {
    var before, m := moves[..|moves| - 1], moves[|moves| - 1];
    var t, n, events, missed := Bus.TrafficOf(BusSteps(before, g), q), SentOf(before, g, id), EventsOf(before, g, id), MissedBy(before, g, q, id);
    PublishChanges(moves, g, q, id);
    CountsSnoc(moves, g, q, id);
    SentStays(moves, g, q);
    assert Heard(t, g.channel(id), missed, n, events);
    if t.Since? && t.channel == g.channel(id) && m.id == id && n < |events| { OneMoreHeard(t.carried, events, missed, n); }
  }

  /** Sending does not subscribe anybody. */
  lemma SentStays(moves: seq<Move>, g: Setting, q: QueueId)
    requires moves != [] && moves[|moves| - 1].Publish?
    ensures var t, r := Bus.TrafficOf(BusSteps(moves[..|moves| - 1], g), q), Bus.TrafficOf(BusSteps(moves, g), q);
      (t.NotYet? <==> r.NotYet?) && (t.Since? ==> r.Since? && r.channel == t.channel)
  {
    TrafficSnoc(moves, g, q);
  }

  /** Other moves send nothing; a stream that starts has heard nothing yet. */
  lemma OtherIsHeard(moves: seq<Move>, g: Setting, q: QueueId, id: Id)
    requires moves != [] && Hears(moves[..|moves| - 1], g, q, id) && !moves[|moves| - 1].Publish?
    ensures Hears(moves, g, q, id)
  {
    var before := moves[..|moves| - 1];
    var t, n, events, missed := Bus.TrafficOf(BusSteps(before, g), q), SentOf(before, g, id), EventsOf(before, g, id), MissedBy(before, g, q, id);
    CountsSnoc(moves, g, q, id);
    EventsOnlyGrow(moves, g, id);
    SentAreEvents(before, g, id);
    OtherTraffic(moves, g, q);
    HeardStays(t, Bus.TrafficOf(BusSteps(moves, g), q), g.channel(id), missed, MissedBy(moves, g, q, id), n, events, EventsOf(moves, g, id));
  }

  lemma HeardStays(t: Bus.Traffic, r: Bus.Traffic, channel: Bus.Channel, before: nat, missed: nat, sent: nat, events: seq<Event>, more: seq<Event>)
    requires Heard(t, channel, before, sent, events) && sent <= |events| && events <= more
    requires if t.Since? then r == t && missed == before else (r.Since? ==> r.carried == []) && missed == sent
    ensures Heard(r, channel, missed, sent, more)
  {
    if t.Since? && t.channel == channel { assert more[missed..sent] == events[missed..sent]; }
  }

  lemma OtherTraffic(moves: seq<Move>, g: Setting, q: QueueId)
    requires moves != [] && !moves[|moves| - 1].Publish?
    ensures var t, r := Bus.TrafficOf(BusSteps(moves[..|moves| - 1], g), q), Bus.TrafficOf(BusSteps(moves, g), q);
      if t.Since? then r == t else r.Since? ==> r.carried == []
  {
    TrafficSnoc(moves, g, q);
  }

  /** In every interleaving, the channel carries to each subscriber the events of its run, in order, from the ones it
      missed to the ones that have reached the bus. */
  lemma {:induction false} ChannelCarriesTheRun(moves: seq<Move>, g: Setting, q: QueueId, id: Id)
    requires OwnChannels(g)
    ensures Hears(moves, g, q, id)
  {
    if moves != [] {
      ChannelCarriesTheRun(moves[..|moves| - 1], g, q, id);
      if moves[|moves| - 1].Publish? { PublishIsHeard(moves, g, q, id); } else { OtherIsHeard(moves, g, q, id); }
    }
  }

  /******* What a subscriber sees *******/

  /** The queue has subscribed to the invocation's channel, before any of its events reached the bus. */
  ghost predicate PresentFromTheStart(moves: seq<Move>, g: Setting, q: QueueId, id: Id) {
    var t := Bus.TrafficOf(BusSteps(moves, g), q);
    t.Since? && t.channel == g.channel(id) && MissedBy(moves, g, q, id) == 0
  }

  function YieldedTo(moves: seq<Move>, g: Setting, q: QueueId): seq<Event> {
    var streams := Bus.After(BusSteps(moves, g)).streams;
    if q in streams then streams[q].yielded else []
  }

  /** Whatever the interleaving, a subscriber that is present from the start sees a prefix of the events of its run, cut
      after the first final one. */
  lemma SubscriberSeesItsRun(moves: seq<Move>, g: Setting, q: QueueId, id: Id)
    requires OwnChannels(g) && PresentFromTheStart(moves, g, q, id)
    ensures YieldedTo(moves, g, q) <= Cut(EventsOf(moves, g, id))
  {
    var steps := BusSteps(moves, g);
    ChannelCarriesTheRun(moves, g, q, id);
    Bus.SentIsTraffic(steps, q);
    Bus.StreamYieldsTheCut(steps, q);
    Bus.CutIsMonotone(Bus.Decoded(Bus.TrafficOf(steps, q).carried), EventsOf(moves, g, id));
  }

  ghost predicate FinishedWith(moves: seq<Move>, g: Setting, id: Id, reply: Reply) {
    var s := Gate.After(g.retries, g.cap, GateSteps(moves));
    id in s.procs && s.procs[id].pc == Gate.Finished(Returned(reply))
  }

  /** Of a successful run it never receives the audit entry published after the result: it sees a prefix of the other
      events, and all of them once it has seen the result. */
  lemma SubscriberNeverSeesAudit(moves: seq<Move>, g: Setting, q: QueueId, id: Id, v: Value)
    requires OwnChannels(g) && PresentFromTheStart(moves, g, q, id) && FinishedWith(moves, g, id, Result(v))
    ensures var yielded, events := YieldedTo(moves, g, q), EventsOf(moves, g, id);
      && events != [] && events[|events| - 1] == Log && Finals(events) == [ResultEvent(v)]
      && yielded <= events[..|events| - 1]
      && (Bus.LastIsFinal(yielded) ==> yielded == events[..|events| - 1])
  {
    var events := EventsOf(moves, g, id);
    Theorems.FinishedRunsEndWithAudit(g.retries, g.cap, GateSteps(moves), id);
    Theorems.FinishedRunsPublishOneFinal(g.retries, g.cap, GateSteps(moves), id);
    SubscriberSeesItsRun(moves, g, q, id);
    Bus.SentIsTraffic(BusSteps(moves, g), q);
    Bus.ReachableIsValid(BusSteps(moves, g));
    Bus.CutLeavesAudit(YieldedTo(moves, g, q), events, events);
  }

  /******* Everything can arrive *******/

  /** The next event of a run that has some left reaches the bus, in order. */
  lemma PublishExactly(moves: seq<Move>, g: Setting, id: Id)
    requires SentOf(moves, g, id) < |EventsOf(moves, g, id)|
    ensures var next, n := moves + [Publish(id)], SentOf(moves, g, id);
      && SentOf(next, g, id) == n + 1
      && BusSteps(next, g) == BusSteps(moves, g) + [Bus.Send(g.channel(id), Bus.Json(EventsOf(moves, g, id)[n]))]
      && EventsOf(next, g, id) == EventsOf(moves, g, id)
  {
    assert (moves + [Publish(id)])[..|moves|] == moves;
    GateSnoc(moves + [Publish(id)], g);
  }

  /** The stream of a subscriber is open. */
  ghost predicate Listening(moves: seq<Move>, g: Setting, q: QueueId, id: Id) {
    && PresentFromTheStart(moves, g, q, id)
    && var streams := Bus.After(BusSteps(moves, g)).streams; q in streams && streams[q].phase.Open?
  }

  lemma PublishKeepsListening(moves: seq<Move>, g: Setting, q: QueueId, id: Id)
    requires OwnChannels(g) && Listening(moves, g, q, id) && SentOf(moves, g, id) < |EventsOf(moves, g, id)|
    ensures Listening(moves + [Publish(id)], g, q, id)
  {
    var next := moves + [Publish(id)];
    assert next[..|moves|] == moves;
    PublishExactly(moves, g, id);
    SentStays(next, g, q);
    CountsSnoc(next, g, q, id);
    Bus.AfterOneMore(BusSteps(moves, g), Bus.Send(g.channel(id), Bus.Json(EventsOf(moves, g, id)[SentOf(moves, g, id)])));
  }

  /** A continuation in which no run moves, and the subscriber has then seen the whole cut of its run's events. */
  ghost predicate Delivers(moves: seq<Move>, more: seq<Move>, g: Setting, q: QueueId, id: Id) {
    YieldedTo(moves + more, g, q) == Cut(EventsOf(moves, g, id)) && forall i :: 0 <= i < |more| ==> !more[i].Run?
  }

  lemma DeliversLater(moves: seq<Move>, more: seq<Move>, g: Setting, q: QueueId, id: Id)
    requires Delivers(moves + [Publish(id)], more, g, q, id) && EventsOf(moves + [Publish(id)], g, id) == EventsOf(moves, g, id)
    ensures Delivers(moves, [Publish(id)] + more, g, q, id)
  {
    assert moves + [Publish(id)] + more == moves + ([Publish(id)] + more);
  }

  /** Whatever has happened, a subscriber that was there from the start and is still listening can be brought everything
      that its run has published, up to the final event. */
  lemma {:induction false} EverythingCanArrive(moves: seq<Move>, g: Setting, q: QueueId, id: Id)
    requires OwnChannels(g) && Listening(moves, g, q, id)
    ensures exists more :: Delivers(moves, more, g, q, id)
    decreases |EventsOf(moves, g, id)| - SentOf(moves, g, id)
  {
    SentAreEvents(moves, g, id);
    if SentOf(moves, g, id) < |EventsOf(moves, g, id)| {
      var next := moves + [Publish(id)];
      PublishExactly(moves, g, id);
      PublishKeepsListening(moves, g, q, id);
      EverythingCanArrive(next, g, q, id);
      var more :| Delivers(next, more, g, q, id);
      DeliversLater(moves, more, g, q, id);
    } else {
      AllSentArrives(moves, g, q, id);
    }
  }

  lemma AllSentArrives(moves: seq<Move>, g: Setting, q: QueueId, id: Id)
    requires OwnChannels(g) && Listening(moves, g, q, id) && SentOf(moves, g, id) == |EventsOf(moves, g, id)|
    ensures exists more :: Delivers(moves, more, g, q, id)
  {
    var steps, events := BusSteps(moves, g), EventsOf(moves, g, id);
    ChannelCarriesTheRun(moves, g, q, id);
    assert events[0..|events|] == events;
    Bus.ReadingYieldsTheCut(steps, q);
    var takes :| Bus.ReadsAll(steps, takes, q);
    ReadsArePossible(moves, g, q, takes);
    ReadingIsQuiet(takes);
    assert Delivers(moves, Reading(takes), g, q, id);
  }

  /** The streams' own moves. */
  function Reading(takes: seq<Bus.Step>): seq<Move> {
    if takes == [] then [] else Reading(takes[..|takes| - 1]) + [Listen(takes[|takes| - 1])]
  }

  lemma {:induction false} ReadingIsQuiet(takes: seq<Bus.Step>)
    ensures forall i :: 0 <= i < |Reading(takes)| ==> !Reading(takes)[i].Run?
  {
    if takes != [] { ReadingIsQuiet(takes[..|takes| - 1]); }
  }

  lemma {:induction false} ReadsArePossible(moves: seq<Move>, g: Setting, q: QueueId, takes: seq<Bus.Step>)
    requires Bus.OnlyTakes(takes, q)
    ensures BusSteps(moves + Reading(takes), g) == BusSteps(moves, g) + takes
    decreases |takes|
  {
    if takes == [] {
      assert moves + Reading(takes) == moves;
    } else {
      var front, last := takes[..|takes| - 1], takes[|takes| - 1];
      calc {
        BusSteps(moves + Reading(takes), g);
        { assert moves + Reading(takes) == moves + Reading(front) + [Listen(last)]; }
        BusSteps(moves + Reading(front) + [Listen(last)], g);
        { OneMoreStep(moves + Reading(front), g, last); }
        BusSteps(moves + Reading(front), g) + [last];
        { ReadsArePossible(moves, g, q, front); }
        BusSteps(moves, g) + front + [last];
        { assert takes == front + [last]; }
        BusSteps(moves, g) + takes;
      }
    }
  }

  lemma OneMoreStep(moves: seq<Move>, g: Setting, act: Bus.Step)
    requires !act.Send?
    ensures BusSteps(moves + [Listen(act)], g) == BusSteps(moves, g) + [act]
  {
    assert (moves + [Listen(act)])[..|moves|] == moves;
  }
}

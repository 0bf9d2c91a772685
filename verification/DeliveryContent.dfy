/** What a cw or conn message says, at the far end of the path from the session that published it:
    internal/rig/event.go, internal/rig/manager.go, internal/ws/client.go. */
module DeliveryContent {
  import opened Basics
  import opened RadioState
  import opened Events
  import opened WsClient
  import opened Delivery

  /** The message is the event's: its radio, number and time, and the keyer's status or whether the
      radio is connected and why not. */
  ghost predicate Says(d: Discrete, e: Event) {
    && d.kind == e.kind && d.radio == e.radio && d.num == e.num && d.at == e.at
    && match e.kind
       case CwKind => d.cw == e.state(CW)
       case ConnKind => (d.up <==> e.state(Connected) == Flag(true)) && d.err == e.err
       case StateKind => false
  }

  /** An event on its way is one that was published, but for the count of drops it has picked up. */
  ghost predicate Genuine(pubs: seq<Event>, e: Event) { e.(dropped := 0) in pubs }

  ghost predicate AllGenuine(pubs: seq<Event>, es: seq<Event>) { forall i :: 0 <= i < |es| ==> Genuine(pubs, es[i]) }

  ghost predicate Rendered(pubs: seq<Event>, d: Discrete) { exists i :: 0 <= i < |pubs| && Says(d, pubs[i]) }

  ghost predicate AllRendered(pubs: seq<Event>, ds: seq<Discrete>) { forall i :: 0 <= i < |ds| ==> Rendered(pubs, ds[i]) }

  ghost predicate True(n: Net, pubs: seq<Event>) {
    && (forall r :: r in n.subq ==> AllGenuine(pubs, n.subq[r].ch))
    && (forall r :: r in n.hand && n.hand[r].Some? ==> Genuine(pubs, n.hand[r].value))
    && AllGenuine(pubs, n.agg.ch)
    && (n.hub.Some? ==> Genuine(pubs, n.hub.value))
    && AllRendered(pubs, n.lanes.discrete) && AllRendered(pubs, n.written)
  }

  lemma GenuineMore(pubs: seq<Event>, ev: Event)
    ensures forall e :: Genuine(pubs, e) ==> Genuine(pubs + [ev], e)
    ensures forall d :: Rendered(pubs, d) ==> Rendered(pubs + [ev], d)
  {
    forall d | Rendered(pubs, d) ensures Rendered(pubs + [ev], d) {
      var i :| 0 <= i < |pubs| && Says(d, pubs[i]);
      assert Says(d, (pubs + [ev])[i]);
    }
  }

  lemma TrueMore(n: Net, pubs: seq<Event>, ev: Event)
    requires True(n, pubs)
    ensures True(n, pubs + [ev])
  {
    GenuineMore(pubs, ev);
    hide Genuine, Rendered;
  }

  lemma DiscreteSays(pubs: seq<Event>, ev: Event)
    requires Genuine(pubs, ev) && ev.kind != StateKind
    ensures Rendered(pubs, DiscreteOf(ev))
  {
    var i :| 0 <= i < |pubs| && pubs[i] == ev.(dropped := 0);
    assert Says(DiscreteOf(ev), pubs[i]);
  }

  lemma PublishTrue(n: Net, pubs: seq<Event>, ev: Event)
    requires True(n, pubs) && Enabled(n, Publish(ev))
    ensures True(DoPublish(n, ev), pubs + [ev])
  {
    TrueMore(n, pubs, ev);
    var q := n.subq[ev.radio];
    assert ev.(dropped := q.dropped).(dropped := 0) == ev && (pubs + [ev])[|pubs|] == ev;
    assert Genuine(pubs + [ev], ev.(dropped := q.dropped));
    hide Genuine, Rendered;
  }

  lemma DeliverTrue(n: Net, pubs: seq<Event>, cap: nat)
    requires True(n, pubs) && Enabled(n, Deliver)
    ensures True(DoDeliver(n, cap), pubs)
  {
    var ev := n.hub.value;
    EnqueueLanes(n.lanes, ev, cap);
    if ev.kind != StateKind { DiscreteSays(pubs, ev); }
    hide Genuine, Rendered, Enqueue, DiscreteOf, Overflows;
  }

  lemma JoinTrue(n: Net, pubs: seq<Event>, r: Id)
    requires True(n, pubs) && Enabled(n, Join(r))
    ensures True(DoJoin(n, r), pubs)
  {
    var ev := n.hand[r].value;
    var sent := ev.(dropped := ev.dropped + n.agg.dropped);
    assert sent.(dropped := 0) == ev.(dropped := 0);
    assert Genuine(pubs, sent);
    hide Genuine, Rendered;
  }

  lemma WriteTrue(n: Net, pubs: seq<Event>, now: int, cache: map<Id, Cached>, interval: int)
    requires True(n, pubs)
    ensures True(DoWrite(n, now, cache, interval), pubs)
  {
    DrainWrites(n.lanes, now, interval, cache);
    hide Genuine, Rendered, Drain, Discretes, Resyncs;
  }

  lemma ResubscribeTrue(n: Net, pubs: seq<Event>, ids: seq<Id>)
    requires True(n, pubs)
    ensures True(DoResubscribe(n, ids), pubs)
  {
    var m := DoResubscribe(n, ids);
    KeepDiscreteGood(n.lanes.discrete, SetOf(ids));
    hide Genuine, Rendered, KeepDiscrete, Keep;
    forall i | 0 <= i < |m.lanes.discrete| ensures Rendered(pubs, m.lanes.discrete[i]) {
      assert m.lanes.discrete[i] in n.lanes.discrete;
    }
  }

  /** What a step publishes. */
  function Publishes(s: Step): seq<Event> { if s.Publish? then [s.ev] else [] }

  lemma StepTrue(n: Net, s: Step, pubs: seq<Event>, cap: nat, interval: int)
    requires True(n, pubs) && Enabled(n, s)
    ensures True(Next(n, s, cap, interval), pubs + Publishes(s))
  {
    assert pubs + [] == pubs;
    match s
    case Publish(ev) => PublishTrue(n, pubs, ev);
    case Join(r) => JoinTrue(n, pubs, r);
    case Deliver => DeliverTrue(n, pubs, cap);
    case Write(now, cache) => WriteTrue(n, pubs, now, cache, interval);
    case Resubscribe(ids) => ResubscribeTrue(n, pubs, ids);
    case _ => hide Genuine, Rendered;
  }

  function Published(steps: seq<Step>): seq<Event> {
    if steps == [] then [] else Publishes(steps[0]) + Published(steps[1..])
  }

  lemma {:induction false} RunTrue(n: Net, steps: seq<Step>, pubs: seq<Event>, cap: nat, interval: int)
    requires True(n, pubs) && AllEnabled(n, steps, cap, interval)
    ensures True(Outcome(n, steps, cap, interval), pubs + Published(steps))
    decreases |steps|
  {
    hide True, Next, Enabled, Publishes;
    if steps == [] {
      assert pubs + [] == pubs;
    } else {
      StepTrue(n, steps[0], pubs, cap, interval);
      RunTrue(Next(n, steps[0], cap, interval), steps[1..], pubs + Publishes(steps[0]), cap, interval);
      assert pubs + (Publishes(steps[0]) + Published(steps[1..])) == pubs + Publishes(steps[0]) + Published(steps[1..]);
    }
  }

  /** Over every interleaving, each cw or conn message written says what one event that was
      published says; and with the events of a radio numbered apart, there is one of its number. */
  lemma WrittenIsTrue(radios: seq<Id>, all: set<Id>, perRadio: nat, joined: nat, steps: seq<Step>, cap: nat, interval: int)
    requires AllEnabled(Start(radios, all, perRadio, joined), steps, cap, interval)
    ensures forall d :: d in Outcome(Start(radios, all, perRadio, joined), steps, cap, interval).written ==>
      exists i :: 0 <= i < |Published(steps)| && Says(d, Published(steps)[i])
  {
    var n := Start(radios, all, perRadio, joined);
    assert True(n, []);
    hide *;
    RunTrue(n, steps, [], cap, interval);
    assert [] + Published(steps) == Published(steps);
    TrueWritten(Outcome(n, steps, cap, interval), Published(steps));
  }

  lemma TrueWritten(n: Net, pubs: seq<Event>)
    requires True(n, pubs)
    ensures forall d :: d in n.written ==> exists i :: 0 <= i < |pubs| && Says(d, pubs[i])
  {
    hide AllGenuine, Genuine, Says;
    forall d | d in n.written ensures Rendered(pubs, d) {
      var k :| 0 <= k < |n.written| && n.written[k] == d;
    }
  }
}

/** The whole path of a cw or conn event, from a session's publish to the client's socket:
    internal/rig/event.go, internal/rig/manager.go, internal/ws/hub.go, internal/ws/client.go.
    Every step is one critical section or one hand-over, and the steps interleave freely. */
module Delivery {
  import opened Basics
  import opened RadioState
  import opened Events
  import opened WsClient

  datatype Key = Key(radio: Id, num: nat)

  // What has become of a published event, as far as this client is concerned. since is how many
  // resyncs had been written when the event was lost.
  datatype Fate =
    | InFlight
    | Written
    | Lost(since: nat)  // discarded, and no resync for its radio has been written from then on
    | Told(since: nat)  // discarded, and a resync for its radio has been written after that
    | Excused  // the client was not subscribed when it was published, or left later

  datatype Net = Net(
    subq: map<Id, Queue>,          // one session subscription per radio
    hand: map<Id, Option<Event>>,  // what each forwarding goroutine is carrying
    agg: Queue,                    // the join
    hub: Option<Event>,            // what the hub has received and not yet dispatched
    lanes: Lanes,
    last: map<Id, nat>,            // newest number published, per radio
    fate: map<Key, Fate>,
    written: seq<Discrete>,
    told: seq<Id>)                 // the radios of the resyncs written, in order

  datatype Step =
    | Publish(ev: Event)
    | Carry(r: Id)
    | Join(r: Id)
    | Receive
    | Deliver
    | Write(now: int, cache: map<Id, Cached>)
    | Resubscribe(ids: seq<Id>)

  function KeyOf(ev: Event): Key { Key(ev.radio, ev.num) }

  predicate HasEvent(evs: seq<Event>, k: Key) { exists i :: 0 <= i < |evs| && KeyOf(evs[i]) == k }

  predicate IsEvent(o: Option<Event>, k: Key) { o.Some? && KeyOf(o.value) == k }

  predicate HasDiscrete(ds: seq<Discrete>, k: Key) {
    exists i :: 0 <= i < |ds| && ds[i].radio == k.radio && ds[i].num == k.num
  }

  function Discretes(out: seq<Message>): seq<Discrete> {
    if out == [] then [] else
      var front := Discretes(out[..|out| - 1]);
      if out[|out| - 1].DiscreteMsg? then front + [out[|out| - 1].event] else front
  }

  /** The radios of the resyncs in a batch. */
  function Resyncs(out: seq<Message>): seq<Id> {
    if out == [] then [] else
      var front := Resyncs(out[..|out| - 1]);
      if out[|out| - 1].ResyncMsg? then front + [out[|out| - 1].radio] else front
  }

  predicate Resynced(out: seq<Message>, r: Id) {
    exists i :: 0 <= i < |out| && out[i].ResyncMsg? && out[i].radio == r
  }

  // ---- the steps ----

  predicate Enabled(n: Net, s: Step) {
    match s
    case Publish(ev) => ev.radio in n.subq && ev.radio in n.last && ev.num > n.last[ev.radio] && ev.dropped == 0
    case Carry(r) => r in n.subq && r in n.hand && n.hand[r].None? && n.subq[r].ch != []
    case Join(r) => r in n.hand && n.hand[r].Some?
    case Receive => n.hub.None? && n.agg.ch != []
    case Deliver => n.hub.Some?
    case Write(_, _) => true
    case Resubscribe(ids) => SetOf(ids) <= n.subq.Keys
  }

  function Full(q: Queue): bool { |q.ch| >= q.cap }

  predicate Overflows(c: Lanes, ev: Event, cap: nat) {
    ev.radio in c.subs && ev.kind != StateKind && |c.discrete| >= cap
  }

  function PublishFate(n: Net, ev: Event): Fate
    requires ev.radio in n.subq
  {
    if ev.radio !in n.lanes.subs then Excused else if Full(n.subq[ev.radio]) then Lost(|n.told|) else InFlight
  }

  function DoPublish(n: Net, ev: Event): Net
    requires ev.radio in n.subq
  {
    n.(subq := n.subq[ev.radio := Offer(n.subq[ev.radio], ev)],
       last := n.last[ev.radio := ev.num],
       fate := if ev.kind == StateKind then n.fate else n.fate[KeyOf(ev) := PublishFate(n, ev)])
  }

  function DoCarry(n: Net, r: Id): Net
    requires r in n.subq && n.subq[r].ch != []
  {
    n.(hand := n.hand[r := Some(n.subq[r].ch[0])], subq := n.subq[r := n.subq[r].(ch := n.subq[r].ch[1..])])
  }

  function DoJoin(n: Net, r: Id): Net
    requires r in n.hand && n.hand[r].Some?
  {
    var ev := n.hand[r].value;
    n.(hand := n.hand[r := None],
       agg := Send(n.agg, ev),
       fate := map k | k in n.fate :: if Full(n.agg) && k == KeyOf(ev) && n.fate[k].InFlight? then Lost(|n.told|) else n.fate[k])
  }

  function DoReceive(n: Net): Net
    requires n.agg.ch != []
  {
    n.(hub := Some(n.agg.ch[0]), agg := n.agg.(ch := n.agg.ch[1..]))
  }

  function DoDeliver(n: Net, cap: nat): Net
    requires n.hub.Some?
  {
    var ev := n.hub.value;
    n.(hub := None,
       lanes := Enqueue(n.lanes, ev, cap),
       fate := map k | k in n.fate ::
         if Overflows(n.lanes, ev, cap) && n.fate[k].InFlight? && (HasDiscrete(n.lanes.discrete, k) || k == KeyOf(ev))
         then Lost(|n.told|) else n.fate[k])
  }

  function DoWrite(n: Net, now: int, cache: map<Id, Cached>, interval: int): Net {
    var d := Drain(n.lanes, now, interval, cache);
    n.(lanes := d.c,
       written := n.written + Discretes(d.out),
       told := n.told + Resyncs(d.out),
       fate := map k | k in n.fate ::
         if n.fate[k].InFlight? && HasDiscrete(Discretes(d.out), k) then Written
         else if n.fate[k].Lost? && k.radio in Resyncs(d.out) then Told(n.fate[k].since)
         else n.fate[k])
  }

  function DoResubscribe(n: Net, ids: seq<Id>): Net {
    n.(lanes := SetRadios(n.lanes, ids),
       fate := map k | k in n.fate ::
         if (n.fate[k].InFlight? || n.fate[k].Lost?) && k.radio !in ids then Excused else n.fate[k])
  }

  function Next(n: Net, s: Step, cap: nat, interval: int): Net
    requires Enabled(n, s)
  {
    match s
    case Publish(ev) => DoPublish(n, ev)
    case Carry(r) => DoCarry(n, r)
    case Join(r) => DoJoin(n, r)
    case Receive => DoReceive(n)
    case Deliver => DoDeliver(n, cap)
    case Write(now, cache) => DoWrite(n, now, cache, interval)
    case Resubscribe(ids) => DoResubscribe(n, ids)
  }

  // ---- the invariant ----

  predicate Queued(n: Net, k: Key) {
    || (k.radio in n.subq && HasEvent(n.subq[k.radio].ch, k))
    || (k.radio in n.hand && IsEvent(n.hand[k.radio], k))
    || HasEvent(n.agg.ch, k)
    || IsEvent(n.hub, k)
    || HasDiscrete(n.lanes.discrete, k)
  }

  predicate Flagged(evs: seq<Event>) { exists i :: 0 <= i < |evs| && evs[i].dropped > 0 }

  predicate Carries(o: Option<Event>) { o.Some? && o.value.dropped > 0 }

  /** Something on the way, or already here, will make the client refetch radio r. */
  predicate Alarm(n: Net, r: Id) {
    || (r in n.subq && (n.subq[r].dropped > 0 || Flagged(n.subq[r].ch)))
    || (r in n.hand && Carries(n.hand[r]))
    || n.agg.dropped > 0 || Flagged(n.agg.ch)
    || Carries(n.hub)
    || r in n.lanes.resync
  }

  ghost predicate Accounted(n: Net) {
    forall k :: k in n.fate ==>
      && (n.fate[k].InFlight? ==> k.radio in n.lanes.subs && Queued(n, k))
      && (n.fate[k].Lost? ==> k.radio in n.lanes.subs && Alarm(n, k.radio))
      && (n.fate[k].Written? ==> HasDiscrete(n.written, k))
      && (n.fate[k].Lost? ==> n.fate[k].since <= |n.told|)
      && (n.fate[k].Told? ==> ToldSince(n.told, n.fate[k].since, k.radio))
  }

  predicate ToldSince(told: seq<Id>, since: nat, r: Id) { exists i :: since <= i < |told| && told[i] == r }

  ghost predicate Wired(n: Net, cap: nat) {
    && Good(n.lanes, cap)
    && n.subq.Keys == n.hand.Keys == n.last.Keys
    && SetOf(n.lanes.subs) <= n.subq.Keys
    && !n.agg.closed && (forall r :: r in n.subq ==> !n.subq[r].closed)
    && (forall k :: k in n.fate ==> k.radio in n.last && k.num <= n.last[k.radio])
  }

  // ---- accounting, step by step ----

  lemma HasEventPush(evs: seq<Event>, e: Event, k: Key)
    ensures HasEvent(evs + [e], k) <==> HasEvent(evs, k) || KeyOf(e) == k
    ensures Flagged(evs + [e]) <==> Flagged(evs) || e.dropped > 0
  {
    assert (evs + [e])[|evs|] == e;
    assert forall i :: 0 <= i < |evs| ==> (evs + [e])[i] == evs[i];
  }

  lemma HasEventPop(evs: seq<Event>, k: Key)
    requires evs != []
    ensures HasEvent(evs, k) <==> HasEvent(evs[1..], k) || KeyOf(evs[0]) == k
    ensures Flagged(evs) <==> Flagged(evs[1..]) || evs[0].dropped > 0
  {
    assert forall i :: 0 < i < |evs| ==> evs[1..][i - 1] == evs[i];
  }

  lemma PublishAccounted(n: Net, ev: Event, cap: nat)
    requires Wired(n, cap) && Accounted(n) && Enabled(n, Publish(ev))
    ensures Wired(DoPublish(n, ev), cap) && Accounted(DoPublish(n, ev))
  {
    hide Good, HasEvent, Flagged, HasDiscrete, ToldSince;
    var m, q := DoPublish(n, ev), n.subq[ev.radio];
    forall k | k in m.fate
      ensures m.fate[k].InFlight? ==> k.radio in m.lanes.subs && Queued(m, k)
      ensures m.fate[k].Lost? ==> k.radio in m.lanes.subs && Alarm(m, k.radio)
      ensures m.fate[k].Written? ==> HasDiscrete(m.written, k)
      ensures m.fate[k].Lost? ==> m.fate[k].since <= |m.told|
      ensures m.fate[k].Told? ==> ToldSince(m.told, m.fate[k].since, k.radio)
    {
      HasEventPush(q.ch, ev.(dropped := q.dropped), k);
    }
  }

  lemma CarryAccounted(n: Net, r: Id, cap: nat)
    requires Wired(n, cap) && Accounted(n) && Enabled(n, Carry(r))
    ensures Wired(DoCarry(n, r), cap) && Accounted(DoCarry(n, r))
  {
    hide Good, HasEvent, Flagged, HasDiscrete, ToldSince;
    var m := DoCarry(n, r);
    forall k | k in m.fate
      ensures m.fate[k].InFlight? ==> k.radio in m.lanes.subs && Queued(m, k)
      ensures m.fate[k].Lost? ==> k.radio in m.lanes.subs && Alarm(m, k.radio)
      ensures m.fate[k].Written? ==> HasDiscrete(m.written, k)
      ensures m.fate[k].Lost? ==> m.fate[k].since <= |m.told|
      ensures m.fate[k].Told? ==> ToldSince(m.told, m.fate[k].since, k.radio)
    {
      HasEventPop(n.subq[r].ch, k);
      if KeyOf(n.subq[r].ch[0]) == k && n.fate[k].InFlight? { assert k.radio == n.subq[r].ch[0].radio; }
    }
  }

  lemma JoinAccounted(n: Net, r: Id, cap: nat)
    requires Wired(n, cap) && Accounted(n) && Enabled(n, Join(r))
    ensures Wired(DoJoin(n, r), cap) && Accounted(DoJoin(n, r))
  {
    hide Good, HasEvent, Flagged, HasDiscrete, ToldSince;
    var m, ev := DoJoin(n, r), n.hand[r].value;
    forall k | k in m.fate
      ensures m.fate[k].InFlight? ==> k.radio in m.lanes.subs && Queued(m, k)
      ensures m.fate[k].Lost? ==> k.radio in m.lanes.subs && Alarm(m, k.radio)
      ensures m.fate[k].Written? ==> HasDiscrete(m.written, k)
      ensures m.fate[k].Lost? ==> m.fate[k].since <= |m.told|
      ensures m.fate[k].Told? ==> ToldSince(m.told, m.fate[k].since, k.radio)
    {
      HasEventPush(n.agg.ch, ev.(dropped := ev.dropped + n.agg.dropped), k);
    }
  }

  lemma ReceiveAccounted(n: Net, cap: nat)
    requires Wired(n, cap) && Accounted(n) && Enabled(n, Receive)
    ensures Wired(DoReceive(n), cap) && Accounted(DoReceive(n))
  {
    hide Good, HasEvent, Flagged, HasDiscrete, ToldSince;
    var m := DoReceive(n);
    forall k | k in m.fate
      ensures m.fate[k].InFlight? ==> k.radio in m.lanes.subs && Queued(m, k)
      ensures m.fate[k].Lost? ==> k.radio in m.lanes.subs && Alarm(m, k.radio)
      ensures m.fate[k].Written? ==> HasDiscrete(m.written, k)
      ensures m.fate[k].Lost? ==> m.fate[k].since <= |m.told|
      ensures m.fate[k].Told? ==> ToldSince(m.told, m.fate[k].since, k.radio)
    {
      HasEventPop(n.agg.ch, k);
    }
  }

  /** What taking an event in does to the event lane and the resync flags. */
  lemma EnqueueLanes(c: Lanes, ev: Event, cap: nat)
    ensures var e := Enqueue(c, ev, cap);
      && e.subs == c.subs
      && c.resync <= e.resync
      && (ev.dropped > 0 || Overflows(c, ev, cap) ==> SetOf(c.subs) <= e.resync)
      && e.discrete == (if Overflows(c, ev, cap) then []
                        else if ev.radio in c.subs && ev.kind != StateKind then c.discrete + [DiscreteOf(ev)]
                        else c.discrete)
  {
    AdmitLanes(c, ev);
    TellLanes(Admit(c, ev), ev, cap);
    hide Admit, Tell, DiscreteOf;
  }

  lemma AdmitLanes(c: Lanes, ev: Event)
    ensures var e := Admit(c, ev);
      && e.subs == c.subs && e.discrete == c.discrete && c.resync <= e.resync
      && (ev.dropped > 0 ==> SetOf(c.subs) <= e.resync)
  {}

  lemma TellLanes(c: Lanes, ev: Event, cap: nat)
    ensures var e := Tell(c, ev, cap);
      && e.subs == c.subs && c.resync <= e.resync
      && (ev.kind != StateKind && |c.discrete| >= cap ==> SetOf(c.subs) <= e.resync)
      && e.discrete == (if ev.kind == StateKind then c.discrete else if |c.discrete| >= cap then [] else c.discrete + [DiscreteOf(ev)])
  {
    hide DiscreteOf;
  }

  lemma HasDiscretePush(ds: seq<Discrete>, ev: Event, k: Key)
    ensures HasDiscrete(ds + [DiscreteOf(ev)], k) <==> HasDiscrete(ds, k) || KeyOf(ev) == k
  {
    DiscreteRadio(ev);
    var e := ds + [DiscreteOf(ev)];
    assert e[|ds|] == DiscreteOf(ev);
    assert forall i :: 0 <= i < |ds| ==> e[i] == ds[i];
  }

  /** An event on its way has a number its session has published, and if its fate is followed
      it is a cw or conn event. */
  ghost predicate Proper(n: Net, e: Event) {
    e.radio in n.last && e.num <= n.last[e.radio] && (KeyOf(e) in n.fate ==> e.kind != StateKind)
  }

  ghost predicate AllProper(n: Net, evs: seq<Event>) { forall i :: 0 <= i < |evs| ==> Proper(n, evs[i]) }

  ghost predicate Followed(n: Net) {
    && (forall r :: r in n.subq ==> AllProper(n, n.subq[r].ch) && forall i :: 0 <= i < |n.subq[r].ch| ==> n.subq[r].ch[i].radio == r)
    && (forall r :: r in n.hand && n.hand[r].Some? ==> Proper(n, n.hand[r].value) && n.hand[r].value.radio == r)
    && AllProper(n, n.agg.ch)
    && (n.hub.Some? ==> Proper(n, n.hub.value))
  }

  lemma DeliverAccounted(n: Net, cap: nat)
    requires Wired(n, cap) && Accounted(n) && Followed(n) && Enabled(n, Deliver)
    ensures Wired(DoDeliver(n, cap), cap) && Accounted(DoDeliver(n, cap))
  {
    hide Good, HasEvent, Flagged, HasDiscrete, Enqueue, DiscreteOf, ToldSince, Overflows;
    var m, ev := DoDeliver(n, cap), n.hub.value;
    EnqueueGood(n.lanes, ev, cap);
    EnqueueLanes(n.lanes, ev, cap);
    forall k | k in m.fate
      ensures m.fate[k].InFlight? ==> k.radio in m.lanes.subs && Queued(m, k)
      ensures m.fate[k].Lost? ==> k.radio in m.lanes.subs && Alarm(m, k.radio)
      ensures m.fate[k].Written? ==> HasDiscrete(m.written, k)
      ensures m.fate[k].Lost? ==> m.fate[k].since <= |m.told|
      ensures m.fate[k].Told? ==> ToldSince(m.told, m.fate[k].since, k.radio)
    {
      HasDiscretePush(n.lanes.discrete, ev, k);
      if k.radio in n.lanes.subs { assert k.radio in SetOf(n.lanes.subs); }
    }
  }

  // ---- what a drain writes ----

  lemma {:induction false} DiscretesConcat(a: seq<Message>, b: seq<Message>)
    ensures Discretes(a + b) == Discretes(a) + Discretes(b)
  {
    if b == [] {
      assert a + b == a;
    } else {
      assert (a + b)[..|a + b| - 1] == a + b[..|b| - 1];
      DiscretesConcat(a, b[..|b| - 1]);
    }
  }

  lemma {:induction false} MessagesAreDiscretes(ds: seq<Discrete>)
    ensures Discretes(Messages(ds)) == ds
  {
    if ds != [] { MessagesAreDiscretes(ds[..|ds| - 1]); }
  }

  lemma {:induction false} ResyncWrites(d: Drained, ids: seq<Id>, now: int, interval: int)
    requires Discretes(d.out) == []
    ensures var e := ResyncPass(d, ids, now, interval);
      && Discretes(e.out) == []
      && (forall id :: id in d.c.resync ==> id in e.c.resync || Resynced(e.out, id))
  {
    if ids != [] {
      var front, last := ids[..|ids| - 1], ids[|ids| - 1];
      ResyncWrites(d, front, now, interval);
      var f, e := ResyncPass(d, front, now, interval), ResyncPass(d, ids, now, interval);
      if e.out != f.out {
        assert e.out[..|f.out|] == f.out;
        assert e.out[|f.out|].ResyncMsg? && e.out[|f.out|].radio == last;
        forall id | Resynced(f.out, id) ensures Resynced(e.out, id) {
          var i :| 0 <= i < |f.out| && f.out[i].ResyncMsg? && f.out[i].radio == id;
          assert e.out[i] == f.out[i];
        }
      }
    }
  }

  lemma {:induction false} SnapshotWrites(d: Drained, ids: seq<Id>, now: int, interval: int, cache: map<Id, Cached>)
    ensures var e := SnapshotPass(d, ids, now, interval, cache);
      d.out <= e.out && Discretes(e.out) == Discretes(d.out)
  {
    if ids != [] {
      SnapshotWrites(d, ids[..|ids| - 1], now, interval, cache);
      var f := SnapshotPass(d, ids[..|ids| - 1], now, interval, cache);
      var e := SnapshotPass(d, ids, now, interval, cache);
      if e.out != f.out { assert e.out[..|e.out| - 1] == f.out; }
    }
  }

  lemma {:induction false} PendingWrites(d: Drained, ids: seq<Id>, now: int, interval: int)
    ensures var e := PendingPass(d, ids, now, interval);
      d.out <= e.out && Discretes(e.out) == Discretes(d.out)
  {
    if ids != [] {
      PendingWrites(d, ids[..|ids| - 1], now, interval);
      var f := PendingPass(d, ids[..|ids| - 1], now, interval);
      var e := PendingPass(d, ids, now, interval);
      if e.out != f.out { assert e.out[..|e.out| - 1] == f.out; }
    }
  }

  lemma ResyncedGrows(a: seq<Message>, b: seq<Message>)
    requires a <= b
    ensures forall r :: Resynced(a, r) ==> Resynced(b, r)
  {
    forall r | Resynced(a, r) ensures Resynced(b, r) {
      var i :| 0 <= i < |a| && a[i].ResyncMsg? && a[i].radio == r;
      assert b[i] == a[i];
    }
  }

  /** A drain writes exactly the event lane, in its order, and clears no flag it does not act on. */
  lemma DrainWrites(c: Lanes, now: int, interval: int, cache: map<Id, Cached>)
    ensures var d := Drain(c, now, interval, cache);
      && Discretes(d.out) == c.discrete && d.c.discrete == [] && d.c.subs == c.subs
      && (forall id :: id in c.resync ==> id in d.c.resync || Resynced(d.out, id))
  {
    var d0 := Drained(c, [], None, []);
    var d1 := ResyncPass(d0, c.subs, now, interval);
    ResyncKeeps(d0, c.subs, now, interval);
    ResyncWrites(d0, c.subs, now, interval);
    var d2 := DiscretePass(d1);
    DiscretesConcat(d1.out, Messages(c.discrete));
    MessagesAreDiscretes(c.discrete);
    assert [] + c.discrete == c.discrete;
    var d3 := SnapshotPass(d2, c.subs, now, interval, cache);
    SnapshotKeeps(d2, c.subs, now, interval, cache);
    SnapshotWrites(d2, c.subs, now, interval, cache);
    var d4 := PendingPass(d3, c.order, now, interval);
    PendingFrame(d3, c.order, now, interval);
    PendingWrites(d3, c.order, now, interval);
    hide ResyncPass, SnapshotPass, PendingPass, Discretes, Messages;
    assert d1.out <= d2.out <= d3.out <= d4.out;
    ResyncedGrows(d1.out, d4.out);
  }

  lemma HasDiscreteConcat(a: seq<Discrete>, b: seq<Discrete>, k: Key)
    ensures HasDiscrete(a + b, k) <==> HasDiscrete(a, k) || HasDiscrete(b, k)
  {
    assert forall i :: 0 <= i < |a| ==> (a + b)[i] == a[i];
    assert forall i :: 0 <= i < |b| ==> (a + b)[|a| + i] == b[i];
  }

  lemma ToldMore(told: seq<Id>, more: seq<Id>, since: nat, r: Id)
    ensures ToldSince(told, since, r) ==> ToldSince(told + more, since, r)
    ensures since <= |told| && r in more ==> ToldSince(told + more, since, r)
  {
    var all := told + more;
    if ToldSince(told, since, r) {
      var i :| since <= i < |told| && told[i] == r;
      assert all[i] == r;
    }
    if since <= |told| && r in more {
      var i :| 0 <= i < |more| && more[i] == r;
      assert all[|told| + i] == r;
    }
  }

  lemma {:induction false} ResyncedIs(out: seq<Message>, r: Id)
    ensures Resynced(out, r) <==> r in Resyncs(out)
  {
    if out != [] {
      var front, last := out[..|out| - 1], out[|out| - 1];
      ResyncedIs(front, r);
      assert forall i :: 0 <= i < |front| ==> front[i] == out[i];
      if r in Resyncs(front) {
        var i :| 0 <= i < |front| && front[i].ResyncMsg? && front[i].radio == r;
        assert out[i].ResyncMsg? && out[i].radio == r;
      }
      if last.ResyncMsg? {
        var rs := Resyncs(front) + [last.radio];
        assert r in rs <==> r in Resyncs(front) || r == last.radio;
        assert out[|out| - 1] == last;
      }
    }
  }

  lemma WriteAccounted(n: Net, now: int, cache: map<Id, Cached>, cap: nat, interval: int)
    requires Wired(n, cap) && Accounted(n)
    ensures Wired(DoWrite(n, now, cache, interval), cap) && Accounted(DoWrite(n, now, cache, interval))
  {
    var m := DoWrite(n, now, cache, interval);
    DrainGood(n.lanes, now, interval, cache, cap);
    DrainWrites(n.lanes, now, interval, cache);
    hide Good, HasEvent, Flagged, HasDiscrete, Drain, Discretes, Resyncs, ToldSince;
    forall k | k in m.fate
      ensures m.fate[k].InFlight? ==> k.radio in m.lanes.subs && Queued(m, k)
      ensures m.fate[k].Lost? ==> k.radio in m.lanes.subs && Alarm(m, k.radio)
      ensures m.fate[k].Written? ==> HasDiscrete(m.written, k)
      ensures m.fate[k].Lost? ==> m.fate[k].since <= |m.told|
      ensures m.fate[k].Told? ==> ToldSince(m.told, m.fate[k].since, k.radio)
    {
      HasDiscreteConcat(n.written, n.lanes.discrete, k);
      ToldMore(n.told, Resyncs(Drain(n.lanes, now, interval, cache).out), if n.fate[k].Told? || n.fate[k].Lost? then n.fate[k].since else 0, k.radio);
      ResyncedIs(Drain(n.lanes, now, interval, cache).out, k.radio);
    }
  }

  lemma ResubscribeAccounted(n: Net, ids: seq<Id>, cap: nat)
    requires Wired(n, cap) && Accounted(n) && Enabled(n, Resubscribe(ids))
    ensures Wired(DoResubscribe(n, ids), cap) && Accounted(DoResubscribe(n, ids))
  {
    var m := DoResubscribe(n, ids);
    SetRadiosGood(n.lanes, ids, cap);
    KeepDiscreteGood(n.lanes.discrete, SetOf(ids));
    hide Good, HasEvent, Flagged, Keep, KeepDiscrete, ToldSince;
    forall k | k in m.fate
      ensures m.fate[k].InFlight? ==> k.radio in m.lanes.subs && Queued(m, k)
      ensures m.fate[k].Lost? ==> k.radio in m.lanes.subs && Alarm(m, k.radio)
      ensures m.fate[k].Written? ==> HasDiscrete(m.written, k)
      ensures m.fate[k].Lost? ==> m.fate[k].since <= |m.told|
      ensures m.fate[k].Told? ==> ToldSince(m.told, m.fate[k].since, k.radio)
    {
      if HasDiscrete(n.lanes.discrete, k) && k.radio in ids {
        var i :| 0 <= i < |n.lanes.discrete| && n.lanes.discrete[i].radio == k.radio && n.lanes.discrete[i].num == k.num;
        assert n.lanes.discrete[i] in m.lanes.discrete;
      }
      if k.radio in ids { assert k.radio in SetOf(ids); }
    }
  }

  // ---- order ----

  function NumsD(r: Id, ds: seq<Discrete>): seq<nat> {
    if ds == [] then [] else NumsD(r, ds[..|ds| - 1]) + (if ds[|ds| - 1].radio == r then [ds[|ds| - 1].num] else [])
  }

  function NumsO(r: Id, o: Option<Event>): seq<nat> {
    if o.Some? && o.value.radio == r && o.value.kind != StateKind then [o.value.num] else []
  }

  function NumsE(r: Id, evs: seq<Event>): seq<nat> {
    if evs == [] then [] else NumsE(r, evs[..|evs| - 1]) + NumsO(r, Some(evs[|evs| - 1]))
  }

  lemma NumsEPush(r: Id, evs: seq<Event>, e: Event)
    ensures NumsE(r, evs + [e]) == NumsE(r, evs) + NumsO(r, Some(e))
  {
    assert (evs + [e])[..|evs|] == evs;
  }

  lemma {:induction false} NumsEPop(r: Id, evs: seq<Event>)
    requires evs != []
    ensures NumsE(r, evs) == NumsO(r, Some(evs[0])) + NumsE(r, evs[1..])
  {
    hide NumsO;
    if |evs| == 1 {
      assert evs == [] + [evs[0]];
      NumsEPush(r, [], evs[0]);
    } else {
      var front, last := evs[..|evs| - 1], evs[|evs| - 1];
      NumsEPop(r, front);
      assert front[1..] + [last] == evs[1..];
      NumsEPush(r, front[1..], last);
    }
  }

  lemma {:induction false} NumsDConcat(r: Id, a: seq<Discrete>, b: seq<Discrete>)
    ensures NumsD(r, a + b) == NumsD(r, a) + NumsD(r, b)
  {
    if b == [] {
      assert a + b == a;
    } else {
      assert (a + b)[..|a + b| - 1] == a + b[..|b| - 1];
      NumsDConcat(r, a, b[..|b| - 1]);
    }
  }

  lemma {:induction false} NumsDKeep(r: Id, ds: seq<Discrete>, wanted: set<Id>)
    ensures NumsD(r, KeepDiscrete(ds, wanted)) == if r in wanted then NumsD(r, ds) else []
  {
    if ds != [] {
      var front, last := ds[..|ds| - 1], ds[|ds| - 1];
      NumsDKeep(r, front, wanted);
      if last.radio in wanted {
        var k := KeepDiscrete(front, wanted);
        assert (k + [last])[..|k|] == k;
      }
    }
  }

  // Radio r's events from the socket back to the session, the ones written first.
  function Here(n: Net, r: Id): seq<nat> { NumsD(r, n.lanes.discrete) }

  function Upstream(n: Net, r: Id): seq<nat>
    requires r in n.subq && r in n.hand
  {
    NumsO(r, n.hub) + NumsE(r, n.agg.ch) + NumsO(r, n.hand[r]) + NumsE(r, n.subq[r].ch)
  }

  function Line(n: Net, r: Id): seq<nat>
    requires r in n.subq && r in n.hand
  {
    NumsD(r, n.written) + Here(n, r) + Upstream(n, r)
  }

  predicate Increasing(s: seq<nat>) { forall i, j :: 0 <= i < j < |s| ==> s[i] < s[j] }

  predicate AtMost(s: seq<nat>, top: nat) { forall i :: 0 <= i < |s| ==> s[i] <= top }

  ghost predicate OneLine(n: Net, r: Id)
    requires r in n.subq && r in n.hand && r in n.last
  {
    Increasing(Line(n, r)) && AtMost(Line(n, r), n.last[r])
  }

  ghost predicate Ordered(n: Net) {
    n.subq.Keys == n.hand.Keys == n.last.Keys && forall r :: r in n.subq ==> OneLine(n, r)
  }

  lemma RemoveBlock(x: seq<nat>, y: seq<nat>, z: seq<nat>, top: nat)
    requires Increasing(x + y + z) && AtMost(x + y + z, top)
    ensures Increasing(x + z) && AtMost(x + z, top)
  {
    var s, t := x + y + z, x + z;
    assert forall i :: 0 <= i < |t| ==> t[i] == s[if i < |x| then i else i + |y|];
  }

  lemma AppendOne(x: seq<nat>, num: nat, top: nat)
    requires Increasing(x) && AtMost(x, top) && num > top
    ensures Increasing(x + [num]) && AtMost(x + [num], num)
  {}

  lemma PublishOrdered(n: Net, ev: Event)
    requires Ordered(n) && Enabled(n, Publish(ev)) && (forall r :: r in n.subq ==> !n.subq[r].closed)
    ensures Ordered(DoPublish(n, ev))
  {
    hide NumsD, NumsE, Increasing, AtMost;
    var m, q := DoPublish(n, ev), n.subq[ev.radio];
    var e := ev.(dropped := q.dropped);
    forall r | r in m.subq ensures OneLine(m, r) {
      assert OneLine(n, r);
      if r == ev.radio {
        NumsEPush(r, q.ch, e);
        if !Full(q) && ev.kind != StateKind {
          AppendOne(Line(n, r), ev.num, n.last[r]);
          assert Line(m, r) == Line(n, r) + [ev.num];
        } else {
          assert Line(m, r) == Line(n, r);
          Looser(Line(n, r), n.last[r], ev.num);
        }
      } else {
        assert Line(m, r) == Line(n, r);
      }
    }
  }

  lemma Looser(s: seq<nat>, a: nat, b: nat)
    requires AtMost(s, a) && a <= b
    ensures AtMost(s, b)
  {}

  lemma CarryOrdered(n: Net, r0: Id)
    requires Ordered(n) && Enabled(n, Carry(r0))
    ensures Ordered(DoCarry(n, r0))
  {
    hide NumsD, NumsE, Increasing, AtMost;
    var m := DoCarry(n, r0);
    forall r | r in m.subq ensures OneLine(m, r) {
      assert OneLine(n, r);
      NumsEPop(r, n.subq[r0].ch);
      assert Line(m, r) == Line(n, r);
    }
  }

  lemma JoinKeepsLine(n: Net, r0: Id, r: Id)
    requires Enabled(n, Join(r0)) && r in n.subq && r in n.hand && !n.agg.closed
    requires r == r0 || n.hand[r0].value.radio != r
    requires r == r0 ==> !Full(n.agg)
    ensures Line(DoJoin(n, r0), r) == Line(n, r)
  {
    hide NumsD, NumsE;
    var e := n.hand[r0].value.(dropped := n.hand[r0].value.dropped + n.agg.dropped);
    NumsEPush(r, n.agg.ch, e);
    var m := DoJoin(n, r0);
    assert NumsE(r, m.agg.ch) + NumsO(r, m.hand[r]) == NumsE(r, n.agg.ch) + NumsO(r, n.hand[r]);
    assert Upstream(m, r) == NumsO(r, n.hub) + (NumsE(r, m.agg.ch) + NumsO(r, m.hand[r])) + NumsE(r, n.subq[r].ch);
    assert Upstream(n, r) == NumsO(r, n.hub) + (NumsE(r, n.agg.ch) + NumsO(r, n.hand[r])) + NumsE(r, n.subq[r].ch);
  }

  lemma JoinDrops(n: Net, r: Id)
    requires Enabled(n, Join(r)) && r in n.subq && r in n.last && OneLine(n, r) && Full(n.agg) && !n.agg.closed
    ensures OneLine(DoJoin(n, r), r)
  {
    hide NumsD, NumsE, Increasing, AtMost;
    var x := NumsD(r, n.written) + Here(n, r) + NumsO(r, n.hub) + NumsE(r, n.agg.ch);
    var y, z := NumsO(r, n.hand[r]), NumsE(r, n.subq[r].ch);
    assert Line(n, r) == x + y + z;
    RemoveBlock(x, y, z, n.last[r]);
    assert Line(DoJoin(n, r), r) == x + [] + z == x + z;
  }

  lemma JoinOrdered(n: Net, r0: Id)
    requires Ordered(n) && Followed(n) && Enabled(n, Join(r0)) && !n.agg.closed
    ensures Ordered(DoJoin(n, r0))
  {
    hide Line, Increasing, AtMost;
    forall r | r in n.subq ensures OneLine(DoJoin(n, r0), r) {
      assert OneLine(n, r);
      if r == r0 && Full(n.agg) { JoinDrops(n, r); } else { JoinKeepsLine(n, r0, r); }
    }
  }

  lemma ReceiveOrdered(n: Net)
    requires Ordered(n) && Enabled(n, Receive)
    ensures Ordered(DoReceive(n))
  {
    hide NumsD, NumsE, Increasing, AtMost;
    var m := DoReceive(n);
    forall r | r in m.subq ensures OneLine(m, r) {
      assert OneLine(n, r);
      NumsEPop(r, n.agg.ch);
      assert Line(m, r) == Line(n, r);
    }
  }

  lemma DeliverHere(n: Net, cap: nat, r: Id)
    requires Enabled(n, Deliver)
    ensures Here(DoDeliver(n, cap), r)
         == (if Overflows(n.lanes, n.hub.value, cap) then []
             else if n.hub.value.radio in n.lanes.subs then Here(n, r) + NumsO(r, n.hub)
             else Here(n, r))
  {
    var ev := n.hub.value;
    EnqueueLanes(n.lanes, ev, cap);
    DiscreteRadio(ev);
    hide Enqueue, DiscreteOf, Overflows;
    NumsDConcat(r, n.lanes.discrete, [DiscreteOf(ev)]);
    NumsDOne(r, DiscreteOf(ev));
    hide NumsD;
    assert Here(n, r) + [] == Here(n, r);
  }

  lemma NumsDOne(r: Id, d: Discrete)
    ensures NumsD(r, [d]) == if d.radio == r then [d.num] else []
  {
    assert [d][..0] == [];
  }

  // Where radio r's line goes when the hub hands its event on.
  lemma DeliverLine(n: Net, cap: nat, r: Id)
    requires Enabled(n, Deliver) && r in n.subq && r in n.hand
    ensures var m := DoDeliver(n, cap);
      var w, mine := NumsD(r, n.written), NumsO(r, n.hub);
      var tail := NumsE(r, n.agg.ch) + NumsO(r, n.hand[r]) + NumsE(r, n.subq[r].ch);
      && Line(n, r) == w + (Here(n, r) + mine) + tail == w + Here(n, r) + mine + tail
      && Line(m, r) == w + Here(m, r) + tail
  {
    hide NumsD, NumsE, Enqueue;
    var m := DoDeliver(n, cap);
    assert NumsO(r, m.hub) == [];
    Regroup([], NumsE(r, n.agg.ch), NumsO(r, n.hand[r]), NumsE(r, n.subq[r].ch));
    Regroup(NumsO(r, n.hub), NumsE(r, n.agg.ch), NumsO(r, n.hand[r]), NumsE(r, n.subq[r].ch));
    var tail := NumsE(r, n.agg.ch) + NumsO(r, n.hand[r]) + NumsE(r, n.subq[r].ch);
    assert [] + tail == tail;
    Regroup(NumsD(r, n.written), Here(n, r), NumsO(r, n.hub), tail);
  }

  lemma Regroup(a: seq<nat>, b: seq<nat>, c: seq<nat>, d: seq<nat>)
    ensures a + b + c + d == a + (b + c + d) == a + (b + c) + d == a + b + (c + d)
  {}

  lemma DeliverOrdered(n: Net, cap: nat)
    requires Ordered(n) && Enabled(n, Deliver)
    ensures Ordered(DoDeliver(n, cap))
  {
    hide NumsD, NumsE, NumsO, Increasing, AtMost, Enqueue, Line, Here, Overflows;
    var m, ev := DoDeliver(n, cap), n.hub.value;
    forall r | r in m.subq ensures OneLine(m, r) {
      assert OneLine(n, r);
      DeliverLine(n, cap, r);
      DeliverHere(n, cap, r);
      var w, mine := NumsD(r, n.written), NumsO(r, n.hub);
      var tail := NumsE(r, n.agg.ch) + NumsO(r, n.hand[r]) + NumsE(r, n.subq[r].ch);
      if Overflows(n.lanes, ev, cap) {
        RemoveBlock(w, Here(n, r) + mine, tail, n.last[r]);
        assert w + [] == w;
      } else if ev.radio !in n.lanes.subs {
        RemoveBlock(w + Here(n, r), mine, tail, n.last[r]);
      }
    }
  }

  lemma WriteOrdered(n: Net, now: int, cache: map<Id, Cached>, interval: int)
    requires Ordered(n)
    ensures Ordered(DoWrite(n, now, cache, interval))
  {
    hide Increasing, AtMost, Line;
    forall r | r in n.subq ensures OneLine(DoWrite(n, now, cache, interval), r) {
      assert OneLine(n, r);
      WriteLine(n, now, cache, interval, r);
    }
  }

  lemma WriteLine(n: Net, now: int, cache: map<Id, Cached>, interval: int, r: Id)
    requires r in n.subq && r in n.hand
    ensures Line(DoWrite(n, now, cache, interval), r) == Line(n, r)
  {
    DrainWrites(n.lanes, now, interval, cache);
    hide NumsE, NumsO, Drain, Discretes, Resyncs;
    NumsDConcat(r, n.written, n.lanes.discrete);
  }

  lemma ResubscribeOrdered(n: Net, ids: seq<Id>)
    requires Ordered(n)
    ensures Ordered(DoResubscribe(n, ids))
  {
    hide NumsD, NumsE, Increasing, AtMost, Keep, KeepDiscrete;
    var m := DoResubscribe(n, ids);
    forall r | r in m.subq ensures OneLine(m, r) {
      assert OneLine(n, r);
      NumsDKeep(r, n.lanes.discrete, SetOf(ids));
      if r in SetOf(ids) {
        assert Line(m, r) == Line(n, r);
      } else {
        RemoveBlock(NumsD(r, n.written), Here(n, r), Upstream(n, r), n.last[r]);
        assert Line(m, r) == NumsD(r, n.written) + Upstream(n, r);
      }
    }
  }

  // ---- whole runs ----

  ghost predicate Inv(n: Net, cap: nat) { Wired(n, cap) && Accounted(n) && Followed(n) && Ordered(n) }

  lemma ProperFrame(n: Net, m: Net)
    requires m.last == n.last && m.fate.Keys == n.fate.Keys
    ensures forall e: Event :: Proper(n, e) ==> Proper(m, e)
    ensures forall evs: seq<Event> :: AllProper(n, evs) ==> AllProper(m, evs)
  {}

  lemma ProperAdded(n: Net, evs: seq<Event>, e: Event, dropped: nat)
    requires AllProper(n, evs) && Proper(n, e)
    ensures AllProper(n, evs + [e.(dropped := dropped)])
  {}

  lemma CarryFollowed(n: Net, r: Id)
    requires Followed(n) && Enabled(n, Carry(r))
    ensures Followed(DoCarry(n, r))
  {
    hide Proper;
    ProperFrame(n, DoCarry(n, r));
  }

  lemma JoinFollowed(n: Net, r: Id)
    requires Followed(n) && Enabled(n, Join(r)) && !n.agg.closed
    ensures Followed(DoJoin(n, r))
  {
    ProperFrame(n, DoJoin(n, r));
    ProperAdded(DoJoin(n, r), n.agg.ch, n.hand[r].value, n.hand[r].value.dropped + n.agg.dropped);
    hide Proper, AllProper;
  }

  lemma ReceiveFollowed(n: Net)
    requires Followed(n) && Enabled(n, Receive)
    ensures Followed(DoReceive(n))
  {
    hide Proper;
    ProperFrame(n, DoReceive(n));
  }

  // Steps at the client's end leave the queues behind it as they were.
  lemma DownstreamFollowed(n: Net, m: Net)
    requires Followed(n) && m.last == n.last && m.fate.Keys == n.fate.Keys
    requires m.subq == n.subq && m.hand == n.hand && m.agg == n.agg && (m.hub == n.hub || m.hub.None?)
    ensures Followed(m)
  {
    ProperFrame(n, m);
    hide Proper, AllProper;
  }

  lemma StepFollowed(n: Net, s: Step, cap: nat, interval: int)
    requires Wired(n, cap) && Followed(n) && Enabled(n, s)
    ensures Followed(Next(n, s, cap, interval))
  {
    hide Followed, Good, Enqueue, Drain, SetRadios, Discretes, Resyncs, HasDiscrete;
    match s
    case Publish(ev) => PublishFollowed(n, ev, cap);
    case Carry(r) => CarryFollowed(n, r);
    case Join(r) => JoinFollowed(n, r);
    case Receive => ReceiveFollowed(n);
    case Deliver => DownstreamFollowed(n, DoDeliver(n, cap));
    case Write(now, cache) => DownstreamFollowed(n, DoWrite(n, now, cache, interval));
    case Resubscribe(ids) => DownstreamFollowed(n, DoResubscribe(n, ids));
  }

  lemma PublishFollowed(n: Net, ev: Event, cap: nat)
    requires Wired(n, cap) && Followed(n) && Enabled(n, Publish(ev))
    ensures Followed(DoPublish(n, ev))
  {
    hide Good;
    var m := DoPublish(n, ev);
    assert KeyOf(ev) !in n.fate;
    forall e: Event | Proper(n, e) ensures Proper(m, e) {}
  }

  lemma StepInv(n: Net, s: Step, cap: nat, interval: int)
    requires Inv(n, cap) && Enabled(n, s)
    ensures Inv(Next(n, s, cap, interval), cap)
  {
    StepFollowed(n, s, cap, interval);
    match s
    case Publish(ev) => PublishAccounted(n, ev, cap); PublishOrdered(n, ev);
    case Carry(r) => CarryAccounted(n, r, cap); CarryOrdered(n, r);
    case Join(r) => JoinAccounted(n, r, cap); JoinOrdered(n, r);
    case Receive => ReceiveAccounted(n, cap); ReceiveOrdered(n);
    case Deliver => DeliverAccounted(n, cap); DeliverOrdered(n, cap);
    case Write(now, cache) => WriteAccounted(n, now, cache, cap, interval); WriteOrdered(n, now, cache, interval);
    case Resubscribe(ids) => ResubscribeAccounted(n, ids, cap); ResubscribeOrdered(n, ids);
  }

  predicate AllEnabled(n: Net, steps: seq<Step>, cap: nat, interval: int)
    decreases |steps|
  {
    steps == [] || (Enabled(n, steps[0]) && AllEnabled(Next(n, steps[0], cap, interval), steps[1..], cap, interval))
  }

  function Outcome(n: Net, steps: seq<Step>, cap: nat, interval: int): Net
    requires AllEnabled(n, steps, cap, interval)
    decreases |steps|
  {
    if steps == [] then n else Outcome(Next(n, steps[0], cap, interval), steps[1..], cap, interval)
  }

  /** A fresh connection to radios, every queue empty. */
  function Start(radios: seq<Id>, all: set<Id>, perRadio: nat, joined: nat): Net {
    Net(map r | r in all :: Queue([], perRadio, 0, false), map r | r in all :: None, Queue([], joined, 0, false), None,
        Lanes(radios, map[], [], [], {}, SetOf(radios), map[], map[], map[]),
        map r | r in all :: 0, map[], [], [])
  }

  lemma StartInv(radios: seq<Id>, all: set<Id>, perRadio: nat, joined: nat, cap: nat)
    requires SetOf(radios) <= all
    ensures Inv(Start(radios, all, perRadio, joined), cap) && Start(radios, all, perRadio, joined).subq.Keys == all
  {
    assert SetOf([]) == {};
  }

  /** Whatever has been published as a cw or conn event is followed. */
  predicate Recorded(n: Net, steps: seq<Step>) {
    forall i :: 0 <= i < |steps| && steps[i].Publish? && steps[i].ev.kind != StateKind ==> KeyOf(steps[i].ev) in n.fate
  }

  lemma {:induction false} RunInv(n: Net, steps: seq<Step>, cap: nat, interval: int)
    requires Inv(n, cap) && AllEnabled(n, steps, cap, interval)
    ensures Inv(Outcome(n, steps, cap, interval), cap)
    ensures n.fate.Keys <= Outcome(n, steps, cap, interval).fate.Keys
    ensures Recorded(Outcome(n, steps, cap, interval), steps)
    decreases |steps|
  {
    if steps != [] {
      hide Inv;
      StepInv(n, steps[0], cap, interval);
      var m := Next(n, steps[0], cap, interval);
      RunInv(m, steps[1..], cap, interval);
      var end := Outcome(n, steps, cap, interval);
      FateGrows(n, steps[0], cap, interval);
      forall i | 0 <= i < |steps| && steps[i].Publish? && steps[i].ev.kind != StateKind ensures KeyOf(steps[i].ev) in end.fate {
        if i > 0 { assert steps[i] == steps[1..][i - 1]; }
      }
    }
  }

  lemma FateGrows(n: Net, s: Step, cap: nat, interval: int)
    requires Enabled(n, s)
    ensures n.fate.Keys <= Next(n, s, cap, interval).fate.Keys
    ensures s.Publish? && s.ev.kind != StateKind ==> KeyOf(s.ev) in Next(n, s, cap, interval).fate
  {
    hide Drain, Enqueue, SetRadios, Discretes, Resyncs;
  }

  /** What one step may do to a fate. An event is written when it leaves the event lane, lost at a
      full queue or a full lane, told of when a resync for its radio is written, and excused only
      where the client gives up its radio; whatever is written, told of or excused stays so. */
  lemma FateMoves(n: Net, s: Step, cap: nat, interval: int, k: Key)
    requires Enabled(n, s) && k in n.fate && k.radio in n.last && k.num <= n.last[k.radio]
    ensures var m := Next(n, s, cap, interval);
      && k in m.fate && n.told <= m.told
      && (m.fate[k] == n.fate[k]
          || (n.fate[k].InFlight? && m.fate[k].Written? && s.Write?)
          || (n.fate[k].InFlight? && m.fate[k] == Lost(|n.told|) && (s.Join? || s.Deliver?))
          || (n.fate[k].Lost? && m.fate[k] == Told(n.fate[k].since) && s.Write?)
          || ((n.fate[k].InFlight? || n.fate[k].Lost?) && m.fate[k].Excused? && s.Resubscribe? && k.radio !in s.ids))
  {
    hide Drain, Enqueue, SetRadios, Discretes, Resyncs, HasDiscrete, Overflows;
  }

  /** No resubscription among the steps gives up radio r. */
  predicate Kept(steps: seq<Step>, r: Id) {
    steps == [] || ((steps[0].Resubscribe? ==> r in steps[0].ids) && Kept(steps[1..], r))
  }

  lemma StepSubs(n: Net, s: Step, cap: nat, interval: int)
    requires Enabled(n, s)
    ensures Next(n, s, cap, interval).lanes.subs == if s.Resubscribe? then s.ids else n.lanes.subs
  {
    match s
    case Deliver =>
      EnqueueLanes(n.lanes, n.hub.value, cap);
      hide *;
    case Write(now, cache) =>
      DrainWrites(n.lanes, now, interval, cache);
      hide *;
    case _ => hide Drain, Enqueue, Discretes, Resyncs;
  }

  /** While the client stays subscribed, nothing becomes excused. */
  lemma {:induction false} KeptIsNotExcused(n: Net, steps: seq<Step>, cap: nat, interval: int, k: Key)
    requires Inv(n, cap) && AllEnabled(n, steps, cap, interval)
    requires k in n.fate && !n.fate[k].Excused? && Kept(steps, k.radio)
    ensures k in Outcome(n, steps, cap, interval).fate && !Outcome(n, steps, cap, interval).fate[k].Excused?
    decreases |steps|
  {
    if steps != [] {
      assert k.radio in n.last && k.num <= n.last[k.radio] by { hide Good, Accounted, Followed, Ordered; }
      FateMoves(n, steps[0], cap, interval, k);
      StepInv(n, steps[0], cap, interval);
      hide Inv, Next, Enabled;
      KeptIsNotExcused(Next(n, steps[0], cap, interval), steps[1..], cap, interval, k);
    }
  }

  // Where a step that publishes leaves the event it publishes.
  lemma PublishedFate(n: Net, ev: Event, cap: nat, interval: int)
    requires Enabled(n, Publish(ev)) && ev.kind != StateKind
    ensures var m := Next(n, Publish(ev), cap, interval);
      KeyOf(ev) in m.fate && (m.fate[KeyOf(ev)].Excused? <==> ev.radio !in n.lanes.subs)
  {}

  /** No silent loss. Take any run of any interleaving from a fresh connection, a cw or conn event
      it publishes, and any continuation. At the end the event has been written, or waits in some
      queue, or was discarded and an alarm for its radio is pending or a resync has been written
      after the loss. Only an event the client was not subscribed to, or whose radio it gave up
      afterwards, may be none of these. */
  lemma NoSilentLoss(radios: seq<Id>, all: set<Id>, perRadio: nat, joined: nat, before: seq<Step>, ev: Event, after: seq<Step>, cap: nat, interval: int)
    requires SetOf(radios) <= all && ev.kind != StateKind
    requires AllEnabled(Start(radios, all, perRadio, joined), before, cap, interval)
    requires Enabled(Outcome(Start(radios, all, perRadio, joined), before, cap, interval), Publish(ev))
    requires AllEnabled(Next(Outcome(Start(radios, all, perRadio, joined), before, cap, interval), Publish(ev), cap, interval), after, cap, interval)
    ensures var was := Outcome(Start(radios, all, perRadio, joined), before, cap, interval);
      var n := Outcome(Next(was, Publish(ev), cap, interval), after, cap, interval);
      var k := KeyOf(ev);
      && k in n.fate
      && match n.fate[k] {
           case Written => HasDiscrete(n.written, k)
           case InFlight => Queued(n, k)
           case Lost(since) => since <= |n.told| && Alarm(n, k.radio)
           case Told(since) => ToldSince(n.told, since, k.radio)
           case Excused => ev.radio !in was.lanes.subs || !Kept(after, ev.radio)
         }
  {
    StartInv(radios, all, perRadio, joined, cap);
    hide *;
    var was := Outcome(Start(radios, all, perRadio, joined), before, cap, interval);
    RunInv(Start(radios, all, perRadio, joined), before, cap, interval);
    var m := Next(was, Publish(ev), cap, interval);
    StepInv(was, Publish(ev), cap, interval);
    PublishedFate(was, ev, cap, interval);
    RunInv(m, after, cap, interval);
    var n := Outcome(m, after, cap, interval);
    if ev.radio in was.lanes.subs && Kept(after, ev.radio) {
      KeyRadio(ev);
      KeptIsNotExcused(m, after, cap, interval, KeyOf(ev));
    }
    Explained(n, KeyOf(ev), cap);
  }

  /** Whether the client is subscribed to a radio can be read off the steps so far. */
  lemma {:induction false} StaysSubscribed(n: Net, steps: seq<Step>, cap: nat, interval: int, r: Id)
    requires AllEnabled(n, steps, cap, interval) && r in n.lanes.subs && Kept(steps, r)
    ensures r in Outcome(n, steps, cap, interval).lanes.subs
    decreases |steps|
  {
    hide Next, Enabled;
    if steps != [] {
      StepSubs(n, steps[0], cap, interval);
      StaysSubscribed(Next(n, steps[0], cap, interval), steps[1..], cap, interval, r);
    }
  }

  lemma KeyRadio(ev: Event)
    ensures KeyOf(ev).radio == ev.radio
  {}

  lemma Explained(n: Net, k: Key, cap: nat)
    requires Inv(n, cap) && k in n.fate
    ensures match n.fate[k]
      case Written => HasDiscrete(n.written, k)
      case InFlight => Queued(n, k)
      case Lost(since) => since <= |n.told| && Alarm(n, k.radio)
      case Told(since) => ToldSince(n.told, since, k.radio)
      case Excused => true
  {
    hide HasDiscrete, Queued, Alarm, Ordered, Followed, ToldSince, Wired;
  }

  /** And what has been written of one radio is in publication order. */
  lemma WrittenInOrder(radios: seq<Id>, all: set<Id>, perRadio: nat, joined: nat, steps: seq<Step>, cap: nat, interval: int, r: Id)
    requires SetOf(radios) <= all && r in all
    requires AllEnabled(Start(radios, all, perRadio, joined), steps, cap, interval)
    ensures Increasing(NumsD(r, Outcome(Start(radios, all, perRadio, joined), steps, cap, interval).written))
  {
    hide *;
    var n0 := Start(radios, all, perRadio, joined);
    StartInv(radios, all, perRadio, joined, cap);
    RunInv(n0, steps, cap, interval);
    SubqKeys(n0, steps, cap, interval);
    InvOrders(Outcome(n0, steps, cap, interval), cap, r);
  }

  lemma InvOrders(n: Net, cap: nat, r: Id)
    requires Inv(n, cap) && r in n.subq
    ensures Increasing(NumsD(r, n.written))
  {
    hide Wired, Accounted, Followed, NumsD, NumsE, NumsO, Increasing, AtMost;
    assert OneLine(n, r);
    assert NumsD(r, n.written) + (Here(n, r) + Upstream(n, r)) == Line(n, r);
    Prefix(NumsD(r, n.written), Here(n, r) + Upstream(n, r));
  }

  lemma Prefix(a: seq<nat>, b: seq<nat>)
    requires Increasing(a + b)
    ensures Increasing(a)
  {
    assert forall i :: 0 <= i < |a| ==> (a + b)[i] == a[i];
  }

  lemma {:induction false} SubqKeys(n: Net, steps: seq<Step>, cap: nat, interval: int)
    requires AllEnabled(n, steps, cap, interval)
    ensures Outcome(n, steps, cap, interval).subq.Keys == n.subq.Keys
    decreases |steps|
  {
    hide Drain, Enqueue, SetRadios, Discretes, Resyncs;
    if steps != [] { SubqKeys(Next(n, steps[0], cap, interval), steps[1..], cap, interval); }
  }
}

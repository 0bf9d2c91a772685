/** One WebSocket client's two lanes (internal/ws/client.go): cw and conn events in order, the
    newest state event per radio, resyncs and snapshots owed, and the rate limits. */
module WsClient {
  import opened Basics
  import opened RadioState
  import opened Events

  datatype Discrete = Discrete(kind: Kind, radio: Id, num: nat, at: int, cw: Value, up: bool, err: string)

  // What goes on the wire. A snapshot and a state event are the same kind of message; owed
  // tells them apart here.
  datatype Message =
    | ResyncMsg(radio: Id, num: nat, at: int)
    | DiscreteMsg(event: Discrete)
    | StateMsg(radio: Id, num: nat, at: int, state: State, owed: bool)
    | DeltaMsg(radio: Id, num: nat, at: int, changed: Patch)

  // A session's cached state, as the hub reads it for a snapshot.
  datatype Cached = Cached(num: nat, at: int, state: State)

  datatype Lanes = Lanes(
    subs: seq<Id>,
    pending: map<Id, Event>, order: seq<Id>,
    discrete: seq<Discrete>,
    resync: set<Id>, snapshot: set<Id>,
    lastNum: map<Id, nat>, nextAt: map<Id, int>, nextResync: map<Id, int>)

  function SetOf(ids: seq<Id>): set<Id> { set id | id in ids }

  predicate Distinct(ids: seq<Id>) { forall i, j :: 0 <= i < j < |ids| ==> ids[i] != ids[j] }

  /** What every operation keeps. */
  ghost predicate Good(c: Lanes, cap: nat) {
    && Distinct(c.order) && SetOf(c.order) == c.pending.Keys
    && c.pending.Keys <= SetOf(c.subs)
    && (forall id :: id in c.pending ==> c.pending[id].radio == id)
    && (forall k :: 0 <= k < |c.discrete| ==> c.discrete[k].radio in c.subs)
    && |c.discrete| <= cap
    && c.resync <= SetOf(c.subs) && c.snapshot <= SetOf(c.subs)
  }

  // ---- taking events in ----

  function DiscreteOf(ev: Event): Discrete {
    if ev.kind == CwKind then Discrete(CwKind, ev.radio, ev.num, ev.at, ev.state(CW), false, "")
    else Discrete(ConnKind, ev.radio, ev.num, ev.at, Absent, ev.state(Connected) == Flag(true), ev.err)
  }

  function MarkResync(c: Lanes): Lanes { c.(resync := c.resync + SetOf(c.subs)) }

  /** A full event lane is dropped whole, and every subscribed radio flagged. */
  function Push(c: Lanes, d: Discrete, cap: nat): Lanes {
    if |c.discrete| >= cap then MarkResync(c.(discrete := [])) else c.(discrete := c.discrete + [d])
  }

  /** A count the event carries is a hole somewhere in what this client watches. */
  function Admit(c: Lanes, ev: Event): Lanes { if ev.dropped > 0 then MarkResync(c) else c }

  function Tell(c: Lanes, ev: Event, cap: nat): Lanes {
    if ev.kind == StateKind then c else Push(c, DiscreteOf(ev), cap)
  }

  /** Every kind of event is also its radio's newest state. */
  function Newest(c: Lanes, ev: Event): Lanes {
    c.(order := if ev.radio in c.pending then c.order else c.order + [ev.radio], pending := c.pending[ev.radio := ev])
  }

  function Enqueue(c: Lanes, ev: Event, cap: nat): Lanes {
    if ev.radio !in c.subs then Admit(c, ev) else Newest(Tell(Admit(c, ev), ev, cap), ev)
  }

  // ---- changing the subscription ----

  function Keep(ids: seq<Id>, wanted: set<Id>): seq<Id> {
    if ids == [] then [] else
      var front := Keep(ids[..|ids| - 1], wanted);
      if ids[|ids| - 1] in wanted then front + [ids[|ids| - 1]] else front
  }

  function KeepDiscrete(ds: seq<Discrete>, wanted: set<Id>): seq<Discrete> {
    if ds == [] then [] else
      var front := KeepDiscrete(ds[..|ds| - 1], wanted);
      if ds[|ds| - 1].radio in wanted then front + [ds[|ds| - 1]] else front
  }

  /** ids are the radios the new subscription resolves to. */
  function SetRadios(c: Lanes, ids: seq<Id>): Lanes {
    var wanted := SetOf(ids);
    var pending := map id | id in c.pending && id in wanted :: c.pending[id];
    c.(subs := ids,
       pending := pending,
       order := Keep(c.order, pending.Keys),
       discrete := KeepDiscrete(c.discrete, wanted),
       resync := c.resync * wanted,
       snapshot := (c.snapshot + (wanted - SetOf(c.subs))) * wanted)
  }

  // ---- draining ----

  function Sooner(next: Option<int>, at: int): Option<int> {
    if next.None? || at < next.value then Some(at) else next
  }

  predicate Limited(due: map<Id, int>, id: Id, now: int) { id in due && now < due[id] }

  // A drain under way: the lanes, the output and the next due time so far, and the radios
  // whose state event was held back.
  datatype Drained = Drained(c: Lanes, out: seq<Message>, next: Option<int>, held: seq<Id>)

  function ResyncStep(d: Drained, id: Id, now: int, interval: int): Drained {
    var c := d.c;
    if id !in c.resync then d
    else if Limited(c.nextResync, id, now) then d.(next := Sooner(d.next, c.nextResync[id]))
    else d.(out := d.out + [ResyncMsg(id, if id in c.lastNum then c.lastNum[id] else 0, now)],
            c := c.(resync := c.resync - {id}, nextResync := c.nextResync[id := now + interval]))
  }

  function ResyncPass(d: Drained, ids: seq<Id>, now: int, interval: int): Drained {
    if ids == [] then d else ResyncStep(ResyncPass(d, ids[..|ids| - 1], now, interval), ids[|ids| - 1], now, interval)
  }

  function Messages(ds: seq<Discrete>): seq<Message> {
    if ds == [] then [] else Messages(ds[..|ds| - 1]) + [DiscreteMsg(ds[|ds| - 1])]
  }

  function DiscretePass(d: Drained): Drained {
    d.(out := d.out + Messages(d.c.discrete), c := d.c.(discrete := []))
  }

  function SnapshotStep(d: Drained, id: Id, now: int, interval: int, cache: map<Id, Cached>): Drained {
    var c := d.c;
    if id !in c.snapshot then d
    else if id !in cache then d.(c := c.(snapshot := c.snapshot - {id}))
    else
      var st := cache[id];
      d.(out := d.out + [StateMsg(id, st.num, st.at, st.state, true)],
         c := c.(snapshot := c.snapshot - {id}, lastNum := c.lastNum[id := st.num], nextAt := c.nextAt[id := now + interval]))
  }

  function SnapshotPass(d: Drained, ids: seq<Id>, now: int, interval: int, cache: map<Id, Cached>): Drained {
    if ids == [] then d
    else SnapshotStep(SnapshotPass(d, ids[..|ids| - 1], now, interval, cache), ids[|ids| - 1], now, interval, cache)
  }

  /** Stale events are not sent at all; an event no delta can name goes out as a whole state. */
  function StateMessage(lastNum: map<Id, nat>, ev: Event): Option<Message> {
    if ev.num <= (if ev.radio in lastNum then lastNum[ev.radio] else 0) then None
    else if ev.patch == map[] then Some(StateMsg(ev.radio, ev.num, ev.at, ev.state, false))
    else Some(DeltaMsg(ev.radio, ev.num, ev.at, ChangedFields(ev.patch, ev.state)))
  }

  function PendingStep(d: Drained, id: Id, now: int, interval: int): Drained {
    var c := d.c;
    if id !in c.pending then d
    else if Limited(c.nextAt, id, now) then d.(held := d.held + [id], next := Sooner(d.next, c.nextAt[id]))
    else
      var msg := StateMessage(c.lastNum, c.pending[id]);
      var taken := c.(pending := c.pending - {id});
      if msg.None? then d.(c := taken)
      else d.(out := d.out + [msg.value],
              c := taken.(lastNum := c.lastNum[id := c.pending[id].num], nextAt := c.nextAt[id := now + interval]))
  }

  function PendingPass(d: Drained, ids: seq<Id>, now: int, interval: int): Drained {
    if ids == [] then d else PendingStep(PendingPass(d, ids[..|ids| - 1], now, interval), ids[|ids| - 1], now, interval)
  }

  function Drain(c: Lanes, now: int, interval: int, cache: map<Id, Cached>): Drained {
    var d1 := ResyncPass(Drained(c, [], None, []), c.subs, now, interval);
    var d2 := DiscretePass(d1);
    var d3 := SnapshotPass(d2, c.subs, now, interval, cache);
    var d4 := PendingPass(d3, c.order, now, interval);
    d4.(c := d4.c.(order := d4.held))
  }

  // ---- the client itself ----

  class Client {
    var subs: seq<Id>
    var subSet: set<Id>
    var pending: map<Id, Event>
    var order: seq<Id>
    var discrete: seq<Discrete>
    var resync: set<Id>
    var snapshot: set<Id>
    var lastNum: map<Id, nat>
    var nextAt: map<Id, int>
    var nextResync: map<Id, int>
    var closed: bool
    const queueCap: nat
    const interval: int

    ghost function View(): Lanes reads this {
      Lanes(subs, pending, order, discrete, resync, snapshot, lastNum, nextAt, nextResync)
    }

    ghost predicate Valid() reads this { subSet == SetOf(subs) && Good(View(), queueCap) }

    constructor (radios: seq<Id>, cap: nat, interval: int)
      ensures Valid() && !closed && queueCap == cap && this.interval == interval
      ensures View() == Lanes(radios, map[], [], [], {}, SetOf(radios), map[], map[], map[])
    {
      subs, subSet, snapshot := radios, SetOf(radios), SetOf(radios);
      pending, order, discrete, resync := map[], [], [], {};
      lastNum, nextAt, nextResync := map[], map[], map[];
      closed, queueCap, this.interval := false, cap, interval;
    }

    method Stop()
      requires Valid()
      modifies this
      ensures Valid() && closed && View() == old(View())
    {
      closed := true;
    }

    method MarkResyncLocked()
      modifies this`resync
      ensures View() == MarkResync(old(View()))
    {
      for i := 0 to |subs|
        invariant resync == old(resync) + SetOf(subs[..i])
      {
        resync := resync + {subs[i]};
      }
      assert subs[..|subs|] == subs;
    }

    method PushDiscreteLocked(d: Discrete)
      modifies this`resync, this`discrete
      ensures View() == Push(old(View()), d, queueCap)
    {
      if |discrete| >= queueCap {
        discrete := [];
        MarkResyncLocked();
        return;
      }
      discrete := discrete + [d];
    }

    /** Takes one event in; it cannot fail and does not wait. */
    method EnqueueEvent(ev: Event)
      requires Valid()
      modifies this
      ensures Valid() && closed == old(closed)
      ensures View() == if closed then old(View()) else Enqueue(old(View()), ev, queueCap)
    {
      if closed { return; }
      EnqueueGood(View(), ev, queueCap);
      hide Good, Admit, Tell, Newest;
      AdmitCount(ev);
      if ev.radio !in subSet { return; }
      TellEvent(ev);
      StoreNewest(ev);
    }

    method AdmitCount(ev: Event)
      modifies this`resync
      ensures View() == Admit(old(View()), ev)
    {
      if ev.dropped > 0 { MarkResyncLocked(); }
    }

    method TellEvent(ev: Event)
      modifies this`resync, this`discrete
      ensures View() == Tell(old(View()), ev, queueCap)
    {
      hide DiscreteOf, Push;
      if ev.kind == CwKind || ev.kind == ConnKind { PushDiscreteLocked(DiscreteOf(ev)); }
    }

    method StoreNewest(ev: Event)
      modifies this`pending, this`order
      ensures View() == Newest(old(View()), ev)
    {
      if ev.radio !in pending { order := order + [ev.radio]; }
      pending := pending[ev.radio := ev];
    }

    method Subscribe(ids: seq<Id>)
      requires Valid()
      modifies this
      ensures Valid() && closed == old(closed)
      ensures View() == if closed then old(View()) else SetRadios(old(View()), ids)
    {
      hide Good, Keep, KeepDiscrete;
      if closed { return; }
      SetRadiosGood(View(), ids, queueCap);
      var wanted := SetOf(ids);
      var owed := NewlyOwed(ids);
      var live := map id | id in pending && id in wanted :: pending[id];
      var ord := KeepOrder(order, live.Keys);
      var disc := KeepLive(discrete, wanted);
      subs, subSet, pending, order, discrete := ids, wanted, live, ord, disc;
      resync, snapshot := resync * wanted, owed * wanted;
    }

    method NewlyOwed(ids: seq<Id>) returns (owed: set<Id>)
      ensures owed == snapshot + (SetOf(ids) - subSet)
    {
      owed := snapshot;
      for i := 0 to |ids|
        invariant owed == snapshot + (SetOf(ids[..i]) - subSet)
      {
        if ids[i] !in subSet { owed := owed + {ids[i]}; }
      }
      assert ids[..|ids|] == ids;
    }

    /** Everything due now, in the order resyncs, events, snapshots, state; and when the first
        of what the rate limits hold back falls due. */
    method DrainDue(now: int, cache: map<Id, Cached>) returns (out: seq<Message>, next: Option<int>)
      requires Valid()
      modifies this
      ensures Valid() && closed == old(closed)
      ensures var d := Drain(old(View()), now, interval, cache); View() == d.c && out == d.out && next == d.next
    {
      hide Good, ResyncPass, SnapshotPass, PendingPass, Messages;
      DrainGood(View(), now, interval, cache, queueCap);
      out, next := DrainResyncs(now);
      var events := DrainEvents();
      out := DrainSnapshots(now, cache, out + events, next);
      out, next := DrainPending(now, out, next);
    }

    method DrainEvents() returns (out: seq<Message>)
      modifies this`discrete
      ensures out == Messages(old(discrete)) && discrete == []
    {
      out := [];
      for i := 0 to |discrete|
        invariant discrete == old(discrete) && out == Messages(discrete[..i])
      {
        assert discrete[..i + 1][..i] == discrete[..i];
        out := out + [DiscreteMsg(discrete[i])];
      }
      assert discrete[..|discrete|] == discrete;
      discrete := [];
    }

    method DrainResyncs(now: int) returns (out: seq<Message>, next: Option<int>)
      modifies this`resync, this`nextResync
      ensures Drained(View(), out, next, []) == ResyncPass(Drained(old(View()), [], None, []), subs, now, interval)
    {
      out, next := [], None;
      for i := 0 to |subs|
        invariant Drained(View(), out, next, []) == ResyncPass(Drained(old(View()), [], None, []), subs[..i], now, interval)
      {
        var id := subs[i];
        assert subs[..i + 1][..i] == subs[..i];
        if id !in resync { continue; }
        if id in nextResync && now < nextResync[id] {
          if next.None? || nextResync[id] < next.value { next := Some(nextResync[id]); }
          continue;
        }
        out := out + [ResyncMsg(id, if id in lastNum then lastNum[id] else 0, now)];
        resync := resync - {id};
        nextResync := nextResync[id := now + interval];
      }
      assert subs[..|subs|] == subs;
    }

    method DrainSnapshots(now: int, cache: map<Id, Cached>, sent: seq<Message>, ghost due: Option<int>) returns (out: seq<Message>)
      modifies this`snapshot, this`lastNum, this`nextAt
      ensures Drained(View(), out, due, []) == SnapshotPass(Drained(old(View()), sent, due, []), subs, now, interval, cache)
    {
      hide SnapshotStep;
      out := sent;
      for i := 0 to |subs|
        invariant Drained(View(), out, due, []) == SnapshotPass(Drained(old(View()), sent, due, []), subs[..i], now, interval, cache)
      {
        assert subs[..i + 1][..i] == subs[..i];
        out := DrainSnapshot(subs[i], now, cache, out, due);
      }
      assert subs[..|subs|] == subs;
    }

    method DrainSnapshot(id: Id, now: int, cache: map<Id, Cached>, sent: seq<Message>, ghost due: Option<int>) returns (out: seq<Message>)
      modifies this`snapshot, this`lastNum, this`nextAt
      ensures Drained(View(), out, due, []) == SnapshotStep(Drained(old(View()), sent, due, []), id, now, interval, cache)
    {
      out := sent;
      if id !in snapshot { return; }
      snapshot := snapshot - {id};
      if id !in cache { return; }
      out := out + [StateMsg(id, cache[id].num, cache[id].at, cache[id].state, true)];
      lastNum := lastNum[id := cache[id].num];
      nextAt := nextAt[id := now + interval];
    }

    method DrainPending(now: int, sent: seq<Message>, due: Option<int>) returns (out: seq<Message>, next: Option<int>)
      modifies this`pending, this`order, this`lastNum, this`nextAt
      ensures var d := PendingPass(Drained(old(View()), sent, due, []), old(order), now, interval);
        View() == d.c.(order := d.held) && out == d.out && next == d.next
    {
      hide PendingStep;
      out, next := sent, due;
      var keep: seq<Id> := [];
      for i := 0 to |order|
        invariant order == old(order)
        invariant Drained(View(), out, next, keep) == PendingPass(Drained(old(View()), sent, due, []), order[..i], now, interval)
      {
        assert order[..i + 1][..i] == order[..i];
        out, next, keep := DrainState(order[i], now, out, next, keep);
      }
      assert order[..|order|] == order;
      order := keep;
    }

    method DrainState(id: Id, now: int, sent: seq<Message>, due: Option<int>, held: seq<Id>)
      returns (out: seq<Message>, next: Option<int>, keep: seq<Id>)
      modifies this`pending, this`lastNum, this`nextAt
      ensures Drained(View(), out, next, keep) == PendingStep(Drained(old(View()), sent, due, held), id, now, interval)
    {
      hide StateMessage;
      out, next, keep := sent, due, held;
      if id !in pending { return; }
      var ev := pending[id];
      if id in nextAt && now < nextAt[id] {
        keep := keep + [id];
        if next.None? || nextAt[id] < next.value { next := Some(nextAt[id]); }
        return;
      }
      pending := pending - {id};
      var msg := StateMessage(lastNum, ev);
      if msg.None? { return; }
      out := out + [msg.value];
      lastNum := lastNum[id := ev.num];
      nextAt := nextAt[id := now + interval];
    }

    static method KeepOrder(ids: seq<Id>, wanted: set<Id>) returns (keep: seq<Id>)
      ensures keep == Keep(ids, wanted)
    {
      keep := [];
      for i := 0 to |ids|
        invariant keep == Keep(ids[..i], wanted)
      {
        assert ids[..i + 1][..i] == ids[..i];
        if ids[i] in wanted { keep := keep + [ids[i]]; }
      }
      assert ids[..|ids|] == ids;
    }

    static method KeepLive(ds: seq<Discrete>, wanted: set<Id>) returns (live: seq<Discrete>)
      ensures live == KeepDiscrete(ds, wanted)
    {
      live := [];
      for i := 0 to |ds|
        invariant live == KeepDiscrete(ds[..i], wanted)
      {
        assert ds[..i + 1][..i] == ds[..i];
        if ds[i].radio in wanted { live := live + [ds[i]]; }
      }
      assert ds[..|ds|] == ds;
    }
  }

  // ---- what taking in and resubscribing keep ----

  lemma EnqueueGood(c: Lanes, ev: Event, cap: nat)
    requires Good(c, cap)
    ensures Good(Enqueue(c, ev, cap), cap)
  {
    TellGood(c, ev, cap);
    hide Tell, Admit, Newest, Good;
    if ev.radio in c.subs { LaneGood(Tell(Admit(c, ev), ev, cap), ev, cap); }
  }

  lemma TellGood(c: Lanes, ev: Event, cap: nat)
    requires Good(c, cap)
    ensures Good(Admit(c, ev), cap) && Admit(c, ev).subs == c.subs
    ensures ev.radio in c.subs ==> Good(Tell(Admit(c, ev), ev, cap), cap) && Tell(Admit(c, ev), ev, cap).subs == c.subs
  {
    DiscreteRadio(ev);
    AdmitGood(c, ev, cap);
    hide DiscreteOf, Good, Admit;
    if ev.radio in c.subs { PushGood(Admit(c, ev), DiscreteOf(ev), cap); }
  }

  lemma AdmitGood(c: Lanes, ev: Event, cap: nat)
    requires Good(c, cap)
    ensures Good(Admit(c, ev), cap) && Admit(c, ev).subs == c.subs
  {
    hide Distinct;
  }

  lemma PushGood(c: Lanes, d: Discrete, cap: nat)
    requires Good(c, cap) && d.radio in c.subs
    ensures Good(Push(c, d, cap), cap) && Push(c, d, cap).subs == c.subs
  {
    hide Distinct;
  }

  lemma DiscreteRadio(ev: Event)
    ensures DiscreteOf(ev).radio == ev.radio && DiscreteOf(ev).num == ev.num
  {}

  lemma LaneGood(c: Lanes, ev: Event, cap: nat)
    requires Good(c, cap) && ev.radio in c.subs
    ensures Good(Newest(c, ev), cap)
  {
    var order := if ev.radio in c.pending then c.order else c.order + [ev.radio];
    if ev.radio !in c.pending {
      assert ev.radio !in c.order;
      assert order[|c.order|] == ev.radio;
      assert SetOf(order) == SetOf(c.order) + {ev.radio};
    }
  }

  lemma {:induction false} KeepGood(ids: seq<Id>, wanted: set<Id>)
    requires Distinct(ids)
    ensures Distinct(Keep(ids, wanted)) && SetOf(Keep(ids, wanted)) == SetOf(ids) * wanted
  {
    if ids != [] {
      var front, last := ids[..|ids| - 1], ids[|ids| - 1];
      KeepGood(front, wanted);
      assert last !in front;
      assert SetOf(ids) == SetOf(front) + {last};
      var k := Keep(ids, wanted);
      if last in wanted { assert SetOf(k) == SetOf(Keep(front, wanted)) + {last} by { assert k[|k| - 1] == last; } }
    }
  }

  lemma {:induction false} KeepDiscreteGood(ds: seq<Discrete>, wanted: set<Id>)
    ensures var k := KeepDiscrete(ds, wanted);
      |k| <= |ds| && forall i :: 0 <= i < |k| ==> k[i] in ds && k[i].radio in wanted
    ensures forall d :: d in ds && d.radio in wanted ==> d in KeepDiscrete(ds, wanted)
  {
    if ds != [] {
      KeepDiscreteGood(ds[..|ds| - 1], wanted);
      var k := KeepDiscrete(ds, wanted);
      if ds[|ds| - 1].radio in wanted { assert k[|k| - 1] == ds[|ds| - 1]; }
    }
  }

  lemma SetRadiosGood(c: Lanes, ids: seq<Id>, cap: nat)
    requires Good(c, cap)
    ensures Good(SetRadios(c, ids), cap)
  {
    var e := SetRadios(c, ids);
    KeepGood(c.order, e.pending.Keys);
    KeepDiscreteGood(c.discrete, SetOf(ids));
    assert forall k :: 0 <= k < |e.discrete| ==> e.discrete[k].radio in SetOf(ids);
  }

  // ---- what a drain keeps and leaves ----

  lemma {:induction false} ResyncKeeps(d: Drained, ids: seq<Id>, now: int, interval: int)
    ensures var e := ResyncPass(d, ids, now, interval);
      && e.c == d.c.(resync := e.c.resync, nextResync := e.c.nextResync)
      && e.c.resync <= d.c.resync && e.held == d.held
  {
    if ids != [] { ResyncKeeps(d, ids[..|ids| - 1], now, interval); }
  }

  lemma {:induction false} SnapshotKeeps(d: Drained, ids: seq<Id>, now: int, interval: int, cache: map<Id, Cached>)
    ensures var e := SnapshotPass(d, ids, now, interval, cache);
      && e.c == d.c.(snapshot := e.c.snapshot, lastNum := e.c.lastNum, nextAt := e.c.nextAt)
      && e.c.snapshot == d.c.snapshot - SetOf(ids) && e.held == d.held && e.next == d.next
  {
    if ids != [] {
      SnapshotKeeps(d, ids[..|ids| - 1], now, interval, cache);
      assert SetOf(ids) == SetOf(ids[..|ids| - 1]) + {ids[|ids| - 1]};
    } else {
      assert d.c.snapshot - SetOf([]) == d.c.snapshot;
    }
  }

  lemma {:induction false} PendingFrame(d: Drained, ids: seq<Id>, now: int, interval: int)
    ensures var e := PendingPass(d, ids, now, interval);
      && e.c == d.c.(pending := e.c.pending, lastNum := e.c.lastNum, nextAt := e.c.nextAt)
      && e.c.pending.Keys <= d.c.pending.Keys
      && (forall id :: id in e.c.pending ==> e.c.pending[id] == d.c.pending[id])
      && (forall id :: id !in ids ==> (id in e.c.pending <==> id in d.c.pending))
      && (forall id :: id !in ids ==> (id in e.c.nextAt <==> id in d.c.nextAt) && (id in d.c.nextAt ==> e.c.nextAt[id] == d.c.nextAt[id]))
  {
    hide StateMessage;
    if ids != [] { PendingFrame(d, ids[..|ids| - 1], now, interval); }
  }

  lemma {:induction false} PendingKeeps(d: Drained, ids: seq<Id>, now: int, interval: int)
    requires Distinct(ids) && SetOf(ids) <= d.c.pending.Keys && d.held == []
    ensures var e := PendingPass(d, ids, now, interval);
      && Distinct(e.held) && SetOf(e.held) <= SetOf(ids)
      && (forall id :: id in ids ==> (id in e.c.pending <==> id in e.held))
      && (forall id :: id in e.held ==> Limited(e.c.nextAt, id, now) && id in d.c.nextAt && e.c.nextAt[id] == d.c.nextAt[id])
  {
    hide StateMessage;
    if ids != [] {
      var front, last := ids[..|ids| - 1], ids[|ids| - 1];
      assert SetOf(ids) == SetOf(front) + {last} && last !in front;
      PendingKeeps(d, front, now, interval);
      PendingFrame(d, front, now, interval);
      PendingFrame(d, ids, now, interval);
      var f, e := PendingPass(d, front, now, interval), PendingPass(d, ids, now, interval);
      if Limited(f.c.nextAt, last, now) {
        assert e.held == f.held + [last];
        assert e.held[|f.held|] == last && forall id :: id in e.held <==> id in f.held || id == last;
      } else {
        assert e.held == f.held;
      }
    }
  }

  lemma DrainGood(c: Lanes, now: int, interval: int, cache: map<Id, Cached>, cap: nat)
    requires Good(c, cap)
    ensures Good(Drain(c, now, interval, cache).c, cap)
  {
    var d1 := ResyncPass(Drained(c, [], None, []), c.subs, now, interval);
    var d3 := SnapshotPass(DiscretePass(d1), c.subs, now, interval, cache);
    ResyncKeeps(Drained(c, [], None, []), c.subs, now, interval);
    SnapshotKeeps(DiscretePass(d1), c.subs, now, interval, cache);
    PendingKeeps(d3, c.order, now, interval);
    PendingFrame(d3, c.order, now, interval);
  }

  // ---- a drain leaves nothing due ----

  /** next is the first due time among what is held back: the resyncs rs and the states ps. */
  ghost predicate FirstDue(next: Option<int>, rs: set<Id>, resyncAt: map<Id, int>, ps: set<Id>, stateAt: map<Id, int>) {
    && rs <= resyncAt.Keys && ps <= stateAt.Keys
    && (next.None? <==> rs == {} && ps == {})
    && (next.Some? ==>
         && ((exists id :: id in rs && resyncAt[id] == next.value) || (exists id :: id in ps && stateAt[id] == next.value))
         && (forall id :: id in rs ==> next.value <= resyncAt[id])
         && (forall id :: id in ps ==> next.value <= stateAt[id]))
  }

  lemma {:induction false} ResyncDue(c: Lanes, ids: seq<Id>, now: int, interval: int)
    ensures var e := ResyncPass(Drained(c, [], None, []), ids, now, interval);
      && (forall id :: id in ids && id in e.c.resync ==> Limited(e.c.nextResync, id, now))
      && FirstDue(e.next, e.c.resync * SetOf(ids), e.c.nextResync, {}, map[])
  {
    if ids != [] {
      var front, last := ids[..|ids| - 1], ids[|ids| - 1];
      ResyncDue(c, front, now, interval);
      assert SetOf(ids) == SetOf(front) + {last};
      var f, e := ResyncPass(Drained(c, [], None, []), front, now, interval), ResyncPass(Drained(c, [], None, []), ids, now, interval);
      if last in f.c.resync && Limited(f.c.nextResync, last, now) {
        assert e.c == f.c && last in e.c.resync * SetOf(ids);
      } else {
        assert e.c.resync * SetOf(ids) == f.c.resync * SetOf(front) - {last};
      }
    }
  }

  lemma FirstDueAdd(next: Option<int>, rs: set<Id>, resyncAt: map<Id, int>, ps: set<Id>, stateAt: map<Id, int>, id: Id)
    requires FirstDue(next, rs, resyncAt, ps, stateAt) && id in stateAt
    ensures FirstDue(Sooner(next, stateAt[id]), rs, resyncAt, ps + {id}, stateAt)
  {
    assert id in ps + {id};
  }

  lemma FirstDueFrame(next: Option<int>, rs: set<Id>, resyncAt: map<Id, int>, ps: set<Id>, a: map<Id, int>, b: map<Id, int>)
    requires FirstDue(next, rs, resyncAt, ps, a)
    requires forall id :: id in ps ==> id in b && b[id] == a[id]
    ensures FirstDue(next, rs, resyncAt, ps, b)
  {}

  lemma {:induction false} PendingDue(d: Drained, ids: seq<Id>, now: int, interval: int, rs: set<Id>, resyncAt: map<Id, int>)
    requires Distinct(ids) && SetOf(ids) <= d.c.pending.Keys && d.held == []
    requires FirstDue(d.next, rs, resyncAt, {}, map[])
    ensures var e := PendingPass(d, ids, now, interval);
      FirstDue(e.next, rs, resyncAt, SetOf(e.held), e.c.nextAt)
  {
    hide StateMessage, FirstDue;
    if ids == [] {
      assert SetOf([]) == {};
      FirstDueFrame(d.next, rs, resyncAt, {}, map[], d.c.nextAt);
    } else {
      var front, last := ids[..|ids| - 1], ids[|ids| - 1];
      assert last !in front;
      PendingDue(d, front, now, interval, rs, resyncAt);
      PendingFrame(d, front, now, interval);
      PendingKeeps(d, front, now, interval);
      PendingKeeps(d, ids, now, interval);
      var f, e := PendingPass(d, front, now, interval), PendingPass(d, ids, now, interval);
      if Limited(f.c.nextAt, last, now) {
        FirstDueAdd(f.next, rs, resyncAt, SetOf(f.held), f.c.nextAt, last);
        assert e.held == f.held + [last] && e.c == f.c;
        assert SetOf(e.held) == SetOf(f.held) + {last} by { assert e.held[|f.held|] == last; }
      } else {
        assert e.held == f.held && e.next == f.next;
        FirstDueFrame(f.next, rs, resyncAt, SetOf(f.held), f.c.nextAt, e.c.nextAt);
      }
    }
  }

  /** After a drain every held resync and state is inside its rate limit, nothing else is held,
      and the time reported is exactly the first of their due times. */
  lemma DrainComplete(c: Lanes, now: int, interval: int, cache: map<Id, Cached>, cap: nat)
    requires Good(c, cap)
    ensures var d := Drain(c, now, interval, cache);
      && d.c.discrete == [] && d.c.snapshot == {}
      && (forall id :: id in d.c.resync ==> Limited(d.c.nextResync, id, now))
      && (forall id :: id in d.c.pending ==> Limited(d.c.nextAt, id, now))
      && FirstDue(d.next, d.c.resync, d.c.nextResync, d.c.pending.Keys, d.c.nextAt)
  {
    var d0 := Drained(c, [], None, []);
    var d1 := ResyncPass(d0, c.subs, now, interval);
    var d3 := SnapshotPass(DiscretePass(d1), c.subs, now, interval, cache);
    var d4 := PendingPass(d3, c.order, now, interval);
    ResyncKeeps(d0, c.subs, now, interval);
    ResyncDue(c, c.subs, now, interval);
    SnapshotKeeps(DiscretePass(d1), c.subs, now, interval, cache);
    PendingKeeps(d3, c.order, now, interval);
    PendingFrame(d3, c.order, now, interval);
    assert d1.c.resync * SetOf(c.subs) == d1.c.resync;
    PendingDue(d3, c.order, now, interval, d1.c.resync, d1.c.nextResync);
    assert d4.c.pending.Keys == SetOf(d4.held);
  }
}

/** What one client is sent about each radio's state over a whole connection
    (internal/ws/client.go): order, base snapshots and the rate limit. */
module StateLane {
  import opened Basics
  import opened RadioState
  import opened Events
  import opened WsClient

  // One state-lane message as it was written: a snapshot the client was owed, or an event.
  datatype Entry = Entry(radio: Id, num: nat, time: int, owed: bool)

  function EntryOf(m: Message, now: int): seq<Entry> {
    match m
    case StateMsg(r, n, _, _, owed) => [Entry(r, n, now, owed)]
    case DeltaMsg(r, n, _, _) => [Entry(r, n, now, false)]
    case _ => []
  }

  function LogOf(out: seq<Message>, now: int): seq<Entry> {
    if out == [] then [] else LogOf(out[..|out| - 1], now) + EntryOf(out[|out| - 1], now)
  }

  lemma {:induction false} LogConcat(a: seq<Message>, b: seq<Message>, now: int)
    ensures LogOf(a + b, now) == LogOf(a, now) + LogOf(b, now)
  {
    if b == [] {
      assert a + b == a;
    } else {
      assert (a + b)[..|a + b| - 1] == a + b[..|b| - 1];
      LogConcat(a, b[..|b| - 1], now);
    }
  }

  /** An event's message is newer than everything sent about its radio before, comes at least
      one interval after it, and rests on a snapshot; a snapshot never goes back. */
  predicate InOrder(log: seq<Entry>, interval: int) {
    && (forall i, j :: 0 <= i < j < |log| && log[i].radio == log[j].radio ==>
          && log[i].num <= log[j].num
          && (!log[j].owed ==> log[i].num < log[j].num && log[i].time + interval <= log[j].time))
    && (forall j :: 0 <= j < |log| && !log[j].owed ==> exists i :: 0 <= i < j && log[i].radio == log[j].radio && log[i].owed)
  }

  predicate Based(log: seq<Entry>, id: Id) { exists k :: 0 <= k < |log| && log[k].radio == id && log[k].owed }

  /** top is the newest number each radio's session has reached. */
  ghost predicate Tracked(c: Lanes, log: seq<Entry>, clock: int, top: map<Id, nat>, interval: int) {
    && InOrder(log, interval)
    && (forall k :: 0 <= k < |log| ==>
          && log[k].time <= clock
          && log[k].radio in c.lastNum && log[k].num <= c.lastNum[log[k].radio]
          && log[k].radio in c.nextAt && log[k].time + interval <= c.nextAt[log[k].radio])
    && (forall id :: id in c.subs && id !in c.snapshot ==> Based(log, id))
    && (forall id :: id in c.lastNum ==> id in top && c.lastNum[id] <= top[id])
    && (forall id :: id in c.pending ==> id in top && c.pending[id].num <= top[id])
  }

  // ---- the run ----

  datatype Step =
    | Take(ev: Event)
    | Resubscribe(ids: seq<Id>)
    | Advance(top: map<Id, nat>)
    | Flush(now: int, cache: map<Id, Cached>)

  datatype Run = Run(c: Lanes, log: seq<Entry>, clock: int, top: map<Id, nat>)

  /** Events carry numbers their session has reached, sessions only move forward, the clock does
      not run back, and every radio that can be subscribed has a session. */
  ghost predicate Allowed(r: Run, s: Step) {
    match s
    case Take(ev) => ev.radio in r.top && ev.num <= r.top[ev.radio]
    case Resubscribe(ids) => SetOf(ids) <= r.top.Keys
    case Advance(top) => forall id :: id in r.top ==> id in top && r.top[id] <= top[id]
    case Flush(now, cache) =>
      r.clock <= now && cache.Keys == r.top.Keys && forall id :: id in cache ==> cache[id].num == r.top[id]
  }

  function Next(r: Run, s: Step, cap: nat, interval: int): Run {
    match s
    case Take(ev) => r.(c := Enqueue(r.c, ev, cap))
    case Resubscribe(ids) => r.(c := SetRadios(r.c, ids))
    case Advance(top) => r.(top := top)
    case Flush(now, cache) =>
      var d := Drain(r.c, now, interval, cache);
      r.(c := d.c, log := r.log + LogOf(d.out, now), clock := now)
  }

  ghost predicate AllAllowed(r: Run, steps: seq<Step>, cap: nat, interval: int)
    decreases |steps|
  {
    steps == [] || (Allowed(r, steps[0]) && AllAllowed(Next(r, steps[0], cap, interval), steps[1..], cap, interval))
  }

  function Outcome(r: Run, steps: seq<Step>, cap: nat, interval: int): Run
    decreases |steps|
  {
    if steps == [] then r else Outcome(Next(r, steps[0], cap, interval), steps[1..], cap, interval)
  }

  // ---- one message at a time ----

  lemma Append(log: seq<Entry>, e: Entry, interval: int)
    requires InOrder(log, interval)
    requires forall k :: 0 <= k < |log| && log[k].radio == e.radio ==>
      log[k].num <= e.num && (!e.owed ==> log[k].num < e.num && log[k].time + interval <= e.time)
    requires !e.owed ==> Based(log, e.radio)
    ensures InOrder(log + [e], interval)
  {
    var after := log + [e];
    forall j | 0 <= j < |after| && !after[j].owed
      ensures exists i :: 0 <= i < j && after[i].radio == after[j].radio && after[i].owed
    {
      if j < |log| {
        var i :| 0 <= i < j && log[i].radio == log[j].radio && log[i].owed;
        assert after[i].owed;
      } else {
        var k :| 0 <= k < |log| && log[k].radio == e.radio && log[k].owed;
        assert after[k].owed;
      }
    }
  }

  lemma BasedGrows(log: seq<Entry>, more: seq<Entry>)
    ensures forall id :: Based(log, id) ==> Based(log + more, id)
  {
    forall id | Based(log, id) ensures Based(log + more, id) {
      var k :| 0 <= k < |log| && log[k].radio == id && log[k].owed;
      assert (log + more)[k].owed;
    }
  }

  /** One more entry, and the bookkeeping that goes with it. */
  lemma Sent(c: Lanes, log: seq<Entry>, e: Entry, top: map<Id, nat>, interval: int, c1: Lanes)
    requires Tracked(c, log, e.time, top, interval) && interval >= 0
    requires e.radio in c.lastNum ==> c.lastNum[e.radio] <= e.num
    requires !e.owed ==> Based(log, e.radio)
    requires !e.owed && e.radio in c.lastNum ==> c.lastNum[e.radio] < e.num
    requires !e.owed ==> !Limited(c.nextAt, e.radio, e.time)
    requires e.radio in top && e.num <= top[e.radio]
    requires c1.lastNum == c.lastNum[e.radio := e.num] && c1.nextAt == c.nextAt[e.radio := e.time + interval]
    requires c1.subs == c.subs && c1.pending.Keys <= c.pending.Keys
    requires forall id :: id in c1.pending ==> c1.pending[id] == c.pending[id]
    requires c1.snapshot == if e.owed then c.snapshot - {e.radio} else c.snapshot
    ensures Tracked(c1, log + [e], e.time, top, interval)
  {
    hide InOrder, Based;
    Append(log, e, interval);
    BasedGrows(log, [e]);
    BasedNew(log, e);
  }

  lemma BasedNew(log: seq<Entry>, e: Entry)
    ensures e.owed ==> Based(log + [e], e.radio)
  {
    assert (log + [e])[|log|] == e;
  }

  lemma SnapshotTracked(d: Drained, log: seq<Entry>, id: Id, now: int, interval: int, cache: map<Id, Cached>, top: map<Id, nat>)
    returns (more: seq<Message>)
    requires Tracked(d.c, log, now, top, interval) && interval >= 0
    requires id in cache && id in top && cache[id].num == top[id]
    ensures var e := SnapshotStep(d, id, now, interval, cache);
      e.out == d.out + more && Tracked(e.c, log + LogOf(more, now), now, top, interval)
  {
    more := [];
    assert log + LogOf([], now) == log;
    if id in d.c.snapshot {
      more := [StateMsg(id, cache[id].num, cache[id].at, cache[id].state, true)];
      assert more[..0] == [] && LogOf(more, now) == [Entry(id, cache[id].num, now, true)];
      assert id in d.c.lastNum ==> d.c.lastNum[id] <= top[id];
      hide Tracked;
      Sent(d.c, log, Entry(id, cache[id].num, now, true), top, interval, SnapshotStep(d, id, now, interval, cache).c);
    }
  }

  lemma PendingTracked(d: Drained, log: seq<Entry>, id: Id, now: int, interval: int, top: map<Id, nat>)
    returns (more: seq<Message>)
    requires Tracked(d.c, log, now, top, interval) && interval >= 0
    requires id in d.c.pending ==> id in d.c.subs && id !in d.c.snapshot && d.c.pending[id].radio == id
    ensures var e := PendingStep(d, id, now, interval);
      e.out == d.out + more && Tracked(e.c, log + LogOf(more, now), now, top, interval)
  {
    more := [];
    assert log + LogOf([], now) == log;
    if id in d.c.pending && !Limited(d.c.nextAt, id, now) {
      var ev := d.c.pending[id];
      var msg := StateMessage(d.c.lastNum, ev);
      if msg.Some? {
        more := [msg.value];
        assert more[..0] == [] && LogOf(more, now) == [Entry(id, ev.num, now, false)];
        PendingSent(d, log, id, now, interval, top);
        hide Tracked;
      }
    }
  }

  lemma PendingSent(d: Drained, log: seq<Entry>, id: Id, now: int, interval: int, top: map<Id, nat>)
    requires Tracked(d.c, log, now, top, interval) && interval >= 0
    requires id in d.c.pending && id in d.c.subs && id !in d.c.snapshot && d.c.pending[id].radio == id
    requires !Limited(d.c.nextAt, id, now) && StateMessage(d.c.lastNum, d.c.pending[id]).Some?
    ensures Tracked(PendingStep(d, id, now, interval).c, log + [Entry(id, d.c.pending[id].num, now, false)], now, top, interval)
  {
    var ev := d.c.pending[id];
    assert Based(log, id) && id in top && ev.num <= top[id];
    hide Tracked;
    Sent(d.c, log, Entry(id, ev.num, now, false), top, interval, PendingStep(d, id, now, interval).c);
  }

  // ---- the passes ----

  lemma {:induction false} SnapshotsTracked(d: Drained, log: seq<Entry>, ids: seq<Id>, now: int, interval: int, cache: map<Id, Cached>, top: map<Id, nat>)
    returns (more: seq<Message>)
    requires Tracked(d.c, log, now, top, interval) && interval >= 0
    requires forall id :: id in ids ==> id in cache && id in top && cache[id].num == top[id]
    ensures var e := SnapshotPass(d, ids, now, interval, cache);
      e.out == d.out + more && Tracked(e.c, log + LogOf(more, now), now, top, interval)
  {
    hide Tracked, SnapshotStep;
    more := [];
    assert log + LogOf([], now) == log;
    if ids != [] {
      var front, last := ids[..|ids| - 1], ids[|ids| - 1];
      var a := SnapshotsTracked(d, log, front, now, interval, cache, top);
      var b := SnapshotTracked(SnapshotPass(d, front, now, interval, cache), log + LogOf(a, now), last, now, interval, cache, top);
      more := a + b;
      LogConcat(a, b, now);
      assert log + LogOf(a + b, now) == log + LogOf(a, now) + LogOf(b, now);
    }
  }

  lemma {:induction false} PendingsTracked(d: Drained, log: seq<Entry>, ids: seq<Id>, now: int, interval: int, top: map<Id, nat>)
    returns (more: seq<Message>)
    requires Tracked(d.c, log, now, top, interval) && interval >= 0
    requires forall id :: id in d.c.pending ==> id in d.c.subs && id !in d.c.snapshot && d.c.pending[id].radio == id
    ensures var e := PendingPass(d, ids, now, interval);
      e.out == d.out + more && Tracked(e.c, log + LogOf(more, now), now, top, interval)
  {
    hide Tracked, PendingStep;
    more := [];
    assert log + LogOf([], now) == log;
    if ids != [] {
      var front, last := ids[..|ids| - 1], ids[|ids| - 1];
      var a := PendingsTracked(d, log, front, now, interval, top);
      PendingFrame(d, front, now, interval);
      var b := PendingTracked(PendingPass(d, front, now, interval), log + LogOf(a, now), last, now, interval, top);
      more := a + b;
      LogConcat(a, b, now);
      assert log + LogOf(a + b, now) == log + LogOf(a, now) + LogOf(b, now);
    }
  }

  predicate NoState(out: seq<Message>) { forall k :: 0 <= k < |out| ==> out[k].ResyncMsg? || out[k].DiscreteMsg? }

  lemma {:induction false} NoStateNoLog(out: seq<Message>, now: int)
    requires NoState(out)
    ensures LogOf(out, now) == []
  {
    if out != [] { NoStateNoLog(out[..|out| - 1], now); }
  }

  lemma {:induction false} ResyncsNoState(d: Drained, ids: seq<Id>, now: int, interval: int)
    requires NoState(d.out)
    ensures NoState(ResyncPass(d, ids, now, interval).out)
  {
    if ids != [] { ResyncsNoState(d, ids[..|ids| - 1], now, interval); }
  }

  lemma {:induction false} MessagesNoState(ds: seq<Discrete>)
    ensures NoState(Messages(ds))
  {
    if ds != [] { MessagesNoState(ds[..|ds| - 1]); }
  }

  // The first two passes send nothing about state and leave its bookkeeping alone.
  lemma EarlyPasses(c: Lanes, log: seq<Entry>, clock: int, now: int, interval: int, top: map<Id, nat>)
    requires Tracked(c, log, clock, top, interval) && clock <= now
    ensures var d2 := DiscretePass(ResyncPass(Drained(c, [], None, []), c.subs, now, interval));
      && NoState(d2.out) && Tracked(d2.c, log, now, top, interval)
      && d2.c.pending == c.pending && d2.c.subs == c.subs && d2.c.snapshot == c.snapshot && d2.c.order == c.order
  {
    hide InOrder, Based;
    var d0 := Drained(c, [], None, []);
    ResyncKeeps(d0, c.subs, now, interval);
    ResyncsNoState(d0, c.subs, now, interval);
    MessagesNoState(ResyncPass(d0, c.subs, now, interval).c.discrete);
  }

  // What the last pass may rely on after the two before it.
  lemma PendingReady(c: Lanes, d2: Drained, now: int, interval: int, cache: map<Id, Cached>, cap: nat)
    requires Good(c, cap) && d2.c.pending == c.pending && d2.c.subs == c.subs && d2.c.snapshot == c.snapshot && d2.c.order == c.order
    ensures var d3 := SnapshotPass(d2, c.subs, now, interval, cache);
      forall id :: id in d3.c.pending ==> id in d3.c.subs && id !in d3.c.snapshot && d3.c.pending[id].radio == id
    ensures SnapshotPass(d2, c.subs, now, interval, cache).c.order == c.order
  {
    SnapshotKeeps(d2, c.subs, now, interval, cache);
  }

  // Nothing else about the lanes matters.
  lemma TrackedFrame(c: Lanes, c1: Lanes, log: seq<Entry>, clock: int, top: map<Id, nat>, interval: int)
    requires Tracked(c, log, clock, top, interval)
    requires c1.subs == c.subs && c1.snapshot == c.snapshot && c1.lastNum == c.lastNum && c1.nextAt == c.nextAt
    requires forall id :: id in c1.pending ==> id in top && c1.pending[id].num <= top[id]
    ensures Tracked(c1, log, clock, top, interval)
  {
    hide InOrder, Based;
  }

  lemma TrackedPending(c: Lanes, log: seq<Entry>, clock: int, top: map<Id, nat>, interval: int)
    requires Tracked(c, log, clock, top, interval)
    ensures forall id :: id in c.pending ==> id in top && c.pending[id].num <= top[id]
  {}

  lemma FlushTracked(r: Run, now: int, cache: map<Id, Cached>, cap: nat, interval: int)
    requires Good(r.c, cap) && Tracked(r.c, r.log, r.clock, r.top, interval) && interval >= 0
    requires SetOf(r.c.subs) <= r.top.Keys && Allowed(r, Flush(now, cache))
    ensures var n := Next(r, Flush(now, cache), cap, interval); Tracked(n.c, n.log, n.clock, n.top, interval)
  {
    EarlyPasses(r.c, r.log, r.clock, now, interval, r.top);
    var d2 := DiscretePass(ResyncPass(Drained(r.c, [], None, []), r.c.subs, now, interval));
    hide ResyncPass, SnapshotPass, PendingPass, DiscretePass, Tracked, Good, LogOf, NoState;
    NoStateNoLog(d2.out, now);
    LatePasses(r.c, d2, r.log, now, cache, r.top, cap, interval);
    var d4 := PendingPass(SnapshotPass(d2, r.c.subs, now, interval, cache), r.c.order, now, interval);
    TrackedPending(d4.c, r.log + LogOf(d4.out, now), now, r.top, interval);
    TrackedFrame(d4.c, d4.c.(order := d4.held), r.log + LogOf(d4.out, now), now, r.top, interval);
  }

  lemma LatePasses(c: Lanes, d2: Drained, log: seq<Entry>, now: int, cache: map<Id, Cached>, top: map<Id, nat>, cap: nat, interval: int)
    requires Good(c, cap) && d2.c.pending == c.pending && d2.c.subs == c.subs && d2.c.snapshot == c.snapshot && d2.c.order == c.order
    requires Tracked(d2.c, log, now, top, interval) && LogOf(d2.out, now) == [] && interval >= 0
    requires forall id :: id in c.subs ==> id in cache && id in top && cache[id].num == top[id]
    ensures var d4 := PendingPass(SnapshotPass(d2, c.subs, now, interval, cache), c.order, now, interval);
      Tracked(d4.c, log + LogOf(d4.out, now), now, top, interval)
  {
    PendingReady(c, d2, now, interval, cache, cap);
    hide SnapshotPass, PendingPass, Tracked, Good, LogOf;
    var d3 := SnapshotPass(d2, c.subs, now, interval, cache);
    var a := SnapshotsTracked(d2, log, c.subs, now, interval, cache, top);
    LogConcat(d2.out, a, now);
    assert LogOf(d3.out, now) == LogOf(a, now);
    LastPass(d3, log, c.order, now, interval, top);
  }

  lemma LastPass(d3: Drained, log: seq<Entry>, order: seq<Id>, now: int, interval: int, top: map<Id, nat>)
    requires Tracked(d3.c, log + LogOf(d3.out, now), now, top, interval) && interval >= 0
    requires forall id :: id in d3.c.pending ==> id in d3.c.subs && id !in d3.c.snapshot && d3.c.pending[id].radio == id
    ensures var d4 := PendingPass(d3, order, now, interval); Tracked(d4.c, log + LogOf(d4.out, now), now, top, interval)
  {
    hide PendingPass, Tracked, LogOf;
    var b := PendingsTracked(d3, log + LogOf(d3.out, now), order, now, interval, top);
    LogConcat(d3.out, b, now);
    assert log + (LogOf(d3.out, now) + LogOf(b, now)) == log + LogOf(d3.out, now) + LogOf(b, now);
  }

  ghost predicate Sound(r: Run, cap: nat, interval: int) {
    Good(r.c, cap) && Tracked(r.c, r.log, r.clock, r.top, interval) && SetOf(r.c.subs) <= r.top.Keys
  }

  lemma TakeTracked(c: Lanes, log: seq<Entry>, clock: int, top: map<Id, nat>, interval: int, ev: Event, cap: nat)
    requires Tracked(c, log, clock, top, interval) && ev.radio in top && ev.num <= top[ev.radio]
    ensures Tracked(Enqueue(c, ev, cap), log, clock, top, interval) && Enqueue(c, ev, cap).subs == c.subs
  {
    TrackedPending(c, log, clock, top, interval);
    hide Tracked, Tell, Admit;
    AdmitTouches(c, ev);
    TellTouches(Admit(c, ev), ev, cap);
    TrackedFrame(c, Enqueue(c, ev, cap), log, clock, top, interval);
  }

  lemma AdmitTouches(c: Lanes, ev: Event)
    ensures var e := Admit(c, ev);
      && e.subs == c.subs && e.snapshot == c.snapshot && e.lastNum == c.lastNum && e.nextAt == c.nextAt && e.pending == c.pending
  {}

  lemma TellTouches(c: Lanes, ev: Event, cap: nat)
    ensures var e := Tell(c, ev, cap);
      && e.subs == c.subs && e.snapshot == c.snapshot && e.lastNum == c.lastNum && e.nextAt == c.nextAt && e.pending == c.pending
  {
    hide DiscreteOf;
  }

  lemma ResubscribeTracked(c: Lanes, log: seq<Entry>, clock: int, top: map<Id, nat>, interval: int, ids: seq<Id>)
    requires Tracked(c, log, clock, top, interval)
    ensures Tracked(SetRadios(c, ids), log, clock, top, interval)
  {
    hide InOrder, Based, Keep, KeepDiscrete;
    var e := SetRadios(c, ids);
    forall id | id in e.subs && id !in e.snapshot ensures Based(log, id) {
      assert id in SetOf(ids);
    }
  }

  lemma AdvanceTracked(c: Lanes, log: seq<Entry>, clock: int, top: map<Id, nat>, interval: int, later: map<Id, nat>)
    requires Tracked(c, log, clock, top, interval)
    requires forall id :: id in top ==> id in later && top[id] <= later[id]
    ensures Tracked(c, log, clock, later, interval)
  {
    hide InOrder, Based;
  }

  lemma StepSound(r: Run, s: Step, cap: nat, interval: int)
    requires Sound(r, cap, interval) && interval >= 0 && Allowed(r, s)
    ensures Sound(Next(r, s, cap, interval), cap, interval)
  {
    hide Good, Tracked, Drain, Enqueue;
    match s
    case Take(ev) =>
      EnqueueGood(r.c, ev, cap);
      TakeTracked(r.c, r.log, r.clock, r.top, interval, ev, cap);
    case Resubscribe(ids) =>
      SetRadiosGood(r.c, ids, cap);
      ResubscribeTracked(r.c, r.log, r.clock, r.top, interval, ids);
    case Advance(later) => AdvanceTracked(r.c, r.log, r.clock, r.top, interval, later);
    case Flush(now, cache) =>
      FlushTracked(r, now, cache, cap, interval);
      DrainGood(r.c, now, interval, cache, cap);
      DrainSubs(r.c, now, interval, cache);
  }

  lemma DrainSubs(c: Lanes, now: int, interval: int, cache: map<Id, Cached>)
    ensures Drain(c, now, interval, cache).c.subs == c.subs
  {
    var d1 := ResyncPass(Drained(c, [], None, []), c.subs, now, interval);
    ResyncKeeps(Drained(c, [], None, []), c.subs, now, interval);
    SnapshotKeeps(DiscretePass(d1), c.subs, now, interval, cache);
    PendingFrame(SnapshotPass(DiscretePass(d1), c.subs, now, interval, cache), c.order, now, interval);
  }

  /** Over every connection, whatever is published, subscribed and drained in whatever order:
      each radio's deltas have strictly increasing numbers, rest on a snapshot, and are at least
      one interval apart from the state message before them. */
  lemma {:induction false} DeltasInOrder(r: Run, steps: seq<Step>, cap: nat, interval: int)
    requires Sound(r, cap, interval) && interval >= 0 && AllAllowed(r, steps, cap, interval)
    ensures Sound(Outcome(r, steps, cap, interval), cap, interval)
    ensures InOrder(Outcome(r, steps, cap, interval).log, interval)
    decreases |steps|
  {
    if steps != [] {
      StepSound(r, steps[0], cap, interval);
      DeltasInOrder(Next(r, steps[0], cap, interval), steps[1..], cap, interval);
    }
  }

  /** A connection starts sound. */
  lemma StartSound(radios: seq<Id>, top: map<Id, nat>, cap: nat, interval: int)
    requires SetOf(radios) <= top.Keys
    ensures Sound(Run(Lanes(radios, map[], [], [], {}, SetOf(radios), map[], map[], map[]), [], 0, top), cap, interval)
  {
    assert SetOf([]) == {};
  }
}

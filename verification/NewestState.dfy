/** What becomes of the newest state event of each radio a client watches (internal/ws/client.go):
    it is what the state lane holds, and once the rate limit allows nothing newer is left unsent. */
module NewestState {
  import opened Basics
  import opened RadioState
  import opened Events
  import opened WsClient
  import opened StateLane

  /** The last event taken of each radio since the client subscribed to it. */
  function Saw(seen: map<Id, Event>, c: Lanes, s: Step): map<Id, Event> {
    match s
    case Take(ev) => if ev.radio in c.subs then seen[ev.radio := ev] else seen
    case Resubscribe(ids) => map id | id in seen && id in ids :: seen[id]
    case _ => seen
  }

  function Seen(r: Run, steps: seq<Step>, cap: nat, interval: int, seen: map<Id, Event>): map<Id, Event>
    decreases |steps|
  {
    if steps == [] then seen else Seen(Next(r, steps[0], cap, interval), steps[1..], cap, interval, Saw(seen, r.c, steps[0]))
  }

  /** The number of the last state message sent of a radio. */
  function LastNum(c: Lanes, id: Id): nat { if id in c.lastNum then c.lastNum[id] else 0 }

  /** What the lane holds of a radio is the last event taken of it; where it holds none, one at
      least as new has been sent. */
  ghost predicate HoldsNewest(c: Lanes, seen: map<Id, Event>) {
    && (forall id :: id in c.pending ==> id in seen && c.pending[id] == seen[id])
    && (forall id :: id in seen && id !in c.pending ==> seen[id].num <= LastNum(c, id))
    && (forall id :: id in seen ==> seen[id].radio == id)
  }

  /** The bookkeeping of what was sent last is what was sent last. */
  predicate Logged(c: Lanes, log: seq<Entry>) {
    forall id :: id in c.lastNum ==> SentUpTo(log, id, c.lastNum[id])
  }

  /** Something of the radio at least as new as num was sent. */
  predicate SentUpTo(log: seq<Entry>, id: Id, num: nat) { exists k :: 0 <= k < |log| && log[k].radio == id && log[k].num >= num }

  // ---- a drain ----

  lemma {:induction false} SnapshotRaises(d: Drained, ids: seq<Id>, now: int, interval: int, cache: map<Id, Cached>, id: Id)
    requires id in cache ==> LastNum(d.c, id) <= cache[id].num
    ensures var e := SnapshotPass(d, ids, now, interval, cache);
      && e.c.pending == d.c.pending && LastNum(d.c, id) <= LastNum(e.c, id)
      && ((LastNum(e.c, id) == LastNum(d.c, id) && (id in e.c.nextAt <==> id in d.c.nextAt) && (id in d.c.nextAt ==> e.c.nextAt[id] == d.c.nextAt[id]))
          || (id in cache && LastNum(e.c, id) == cache[id].num))
  {
    if ids != [] { SnapshotRaises(d, ids[..|ids| - 1], now, interval, cache, id); }
  }

  lemma {:induction false} PendingRaises(d: Drained, ids: seq<Id>, now: int, interval: int, seen: map<Id, Event>, id: Id)
    requires HoldsNewest(d.c, seen) && forall i :: i in d.c.pending ==> d.c.pending[i].radio == i
    ensures var e := PendingPass(d, ids, now, interval);
      && HoldsNewest(e.c, seen) && LastNum(d.c, id) <= LastNum(e.c, id)
      && forall i :: i in e.c.pending ==> e.c.pending[i].radio == i
  {
    if ids != [] {
      var front, last := ids[..|ids| - 1], ids[|ids| - 1];
      PendingRaises(d, front, now, interval, seen, id);
      hide PendingPass, HoldsNewest;
      PendingRaisesOne(PendingPass(d, front, now, interval), last, now, interval, seen, id);
      assert PendingPass(d, ids, now, interval) == PendingStep(PendingPass(d, front, now, interval), last, now, interval) by { PendingPassIs(d, ids, now, interval); }
    }
  }

  lemma PendingPassIs(d: Drained, ids: seq<Id>, now: int, interval: int)
    requires ids != []
    ensures PendingPass(d, ids, now, interval)
         == PendingStep(PendingPass(d, ids[..|ids| - 1], now, interval), ids[|ids| - 1], now, interval)
  {}

  lemma PendingRaisesOne(d: Drained, last: Id, now: int, interval: int, seen: map<Id, Event>, id: Id)
    requires HoldsNewest(d.c, seen) && forall i :: i in d.c.pending ==> d.c.pending[i].radio == i
    ensures var e := PendingStep(d, last, now, interval);
      && HoldsNewest(e.c, seen) && LastNum(d.c, id) <= LastNum(e.c, id)
      && forall i :: i in e.c.pending ==> e.c.pending[i].radio == i
  {}

  lemma SnapshotNewest(d: Drained, ids: seq<Id>, now: int, interval: int, cache: map<Id, Cached>, seen: map<Id, Event>)
    requires HoldsNewest(d.c, seen) && forall i :: i in cache ==> LastNum(d.c, i) <= cache[i].num
    ensures HoldsNewest(SnapshotPass(d, ids, now, interval, cache).c, seen)
  {
    forall i | i in seen ensures LastNum(d.c, i) <= LastNum(SnapshotPass(d, ids, now, interval, cache).c, i) {
      SnapshotRaises(d, ids, now, interval, cache, i);
    }
    SnapshotKeeps(d, ids, now, interval, cache);
    hide SnapshotPass;
  }

  /** A drain keeps what the lane promises. A radio whose rate limit has passed is left with nothing
      newer unsent. */
  lemma DrainNewest(c: Lanes, now: int, interval: int, cache: map<Id, Cached>, cap: nat, seen: map<Id, Event>, id: Id)
    requires Good(c, cap) && HoldsNewest(c, seen) && forall i :: i in cache ==> LastNum(c, i) <= cache[i].num
    ensures var d := Drain(c, now, interval, cache);
      && HoldsNewest(d.c, seen) && LastNum(c, id) <= LastNum(d.c, id)
      && (id in seen && !Limited(c.nextAt, id, now) && (id in cache ==> seen[id].num <= cache[id].num) ==>
            seen[id].num <= LastNum(d.c, id))
  {
    var d2 := DiscretePass(ResyncPass(Drained(c, [], None, []), c.subs, now, interval));
    ResyncKeeps(Drained(c, [], None, []), c.subs, now, interval);
    hide ResyncPass, SnapshotPass, PendingPass, Distinct;
    LateNewest(d2, c.subs, c.order, now, interval, cache, seen, id);
    var d4 := PendingPass(SnapshotPass(d2, c.subs, now, interval, cache), c.order, now, interval);
    NewestFrame(d4.c, d4.c.(order := d4.held), seen);
    hide HoldsNewest;
  }

  lemma NewestFrame(c: Lanes, c1: Lanes, seen: map<Id, Event>)
    requires HoldsNewest(c, seen) && c1.pending == c.pending && c1.lastNum == c.lastNum
    ensures HoldsNewest(c1, seen)
  {}

  lemma LateNewest(d: Drained, subs: seq<Id>, order: seq<Id>, now: int, interval: int, cache: map<Id, Cached>, seen: map<Id, Event>, id: Id)
    requires HoldsNewest(d.c, seen) && (forall i :: i in cache ==> LastNum(d.c, i) <= cache[i].num)
    requires Distinct(order) && SetOf(order) == d.c.pending.Keys && d.held == []
    requires forall i :: i in d.c.pending ==> d.c.pending[i].radio == i
    ensures var e := PendingPass(SnapshotPass(d, subs, now, interval, cache), order, now, interval);
      && HoldsNewest(e.c, seen) && LastNum(d.c, id) <= LastNum(e.c, id)
      && (id in seen && !Limited(d.c.nextAt, id, now) && (id in cache ==> seen[id].num <= cache[id].num) ==>
            seen[id].num <= LastNum(e.c, id))
  {
    SnapshotKeeps(d, subs, now, interval, cache);
    SnapshotRaises(d, subs, now, interval, cache, id);
    SnapshotNewest(d, subs, now, interval, cache, seen);
    hide SnapshotPass, PendingPass, Distinct;
    var f := SnapshotPass(d, subs, now, interval, cache);
    var e := PendingPass(f, order, now, interval);
    PendingKeeps(f, order, now, interval);
    PendingFrame(f, order, now, interval);
    PendingRaises(f, order, now, interval, seen, id);
    if id in e.c.pending {
      assert id in order by { assert id in SetOf(order); }
      hide HoldsNewest;
    }
  }

  lemma LogPush(out: seq<Message>, m: Message, now: int)
    ensures LogOf(out + [m], now) == LogOf(out, now) + EntryOf(m, now)
  {
    assert (out + [m])[..|out|] == out;
  }

  lemma LoggedPush(c: Lanes, log: seq<Entry>, e: Entry, c1: Lanes)
    requires Logged(c, log) && c1.lastNum == c.lastNum[e.radio := e.num]
    ensures Logged(c1, log + [e])
  {
    forall id | id in c1.lastNum ensures SentUpTo(log + [e], id, c1.lastNum[id]) {
      if id == e.radio {
        assert (log + [e])[|log|] == e;
      } else {
        SentMore(log, [e], id, c1.lastNum[id]);
      }
    }
  }

  lemma SentMore(log: seq<Entry>, more: seq<Entry>, id: Id, num: nat)
    requires SentUpTo(log, id, num)
    ensures SentUpTo(log + more, id, num)
  {
    var k :| 0 <= k < |log| && log[k].radio == id && log[k].num >= num;
    assert (log + more)[k] == log[k];
  }

  lemma {:induction false} SnapshotLogged(d: Drained, log: seq<Entry>, ids: seq<Id>, now: int, interval: int, cache: map<Id, Cached>)
    requires Logged(d.c, log + LogOf(d.out, now))
    ensures var e := SnapshotPass(d, ids, now, interval, cache); Logged(e.c, log + LogOf(e.out, now))
  {
    hide Logged, LogOf;
    if ids != [] {
      var last, f := ids[|ids| - 1], SnapshotPass(d, ids[..|ids| - 1], now, interval, cache);
      SnapshotLogged(d, log, ids[..|ids| - 1], now, interval, cache);
      if last in f.c.snapshot {
        if last in cache {
          var m, entry := StateMsg(last, cache[last].num, cache[last].at, cache[last].state, true), Entry(last, cache[last].num, now, true);
          LogPush(f.out, m, now);
          assert log + (LogOf(f.out, now) + [entry]) == log + LogOf(f.out, now) + [entry];
          LoggedPush(f.c, log + LogOf(f.out, now), entry, SnapshotStep(f, last, now, interval, cache).c);
        } else {
          LoggedFrame(f.c, log + LogOf(f.out, now), SnapshotStep(f, last, now, interval, cache).c);
        }
      }
    }
  }

  lemma LoggedFrame(c: Lanes, log: seq<Entry>, c1: Lanes)
    requires Logged(c, log) && c1.lastNum == c.lastNum
    ensures Logged(c1, log)
  {}

  lemma {:induction false} PendingLogged(d: Drained, log: seq<Entry>, ids: seq<Id>, now: int, interval: int)
    requires Logged(d.c, log + LogOf(d.out, now)) && forall i :: i in d.c.pending ==> d.c.pending[i].radio == i
    ensures var e := PendingPass(d, ids, now, interval); Logged(e.c, log + LogOf(e.out, now))
  {
    hide Logged, LogOf;
    if ids != [] {
      var last, f := ids[|ids| - 1], PendingPass(d, ids[..|ids| - 1], now, interval);
      PendingLogged(d, log, ids[..|ids| - 1], now, interval);
      PendingFrame(d, ids[..|ids| - 1], now, interval);
      PendingLoggedOne(f, log, last, now, interval);
    }
  }

  lemma PendingLoggedOne(f: Drained, log: seq<Entry>, last: Id, now: int, interval: int)
    requires Logged(f.c, log + LogOf(f.out, now)) && forall i :: i in f.c.pending ==> f.c.pending[i].radio == i
    ensures var e := PendingStep(f, last, now, interval); Logged(e.c, log + LogOf(e.out, now))
  {
    hide Logged, LogOf;
    var e := PendingStep(f, last, now, interval);
    if e.out == f.out {
      LoggedFrame(f.c, log + LogOf(f.out, now), e.c);
    } else {
      var m, entry := StateMessage(f.c.lastNum, f.c.pending[last]).value, Entry(last, f.c.pending[last].num, now, false);
      LogPush(f.out, m, now);
      assert log + (LogOf(f.out, now) + [entry]) == log + LogOf(f.out, now) + [entry];
      LoggedPush(f.c, log + LogOf(f.out, now), entry, e.c);
    }
  }

  lemma DrainLogged(c: Lanes, log: seq<Entry>, now: int, interval: int, cache: map<Id, Cached>, cap: nat)
    requires Good(c, cap) && Logged(c, log)
    ensures var d := Drain(c, now, interval, cache); Logged(d.c, log + LogOf(d.out, now))
  {
    var d0 := Drained(c, [], None, []);
    var d2 := DiscretePass(ResyncPass(d0, c.subs, now, interval));
    var d3 := SnapshotPass(d2, c.subs, now, interval, cache);
    ResyncKeeps(d0, c.subs, now, interval);
    ResyncsNoState(d0, c.subs, now, interval);
    MessagesNoState(ResyncPass(d0, c.subs, now, interval).c.discrete);
    SnapshotKeeps(d2, c.subs, now, interval, cache);
    hide ResyncPass, SnapshotPass, PendingPass, Logged, LogOf, Messages, Distinct;
    NoStateNoLog(d2.out, now);
    assert log + [] == log;
    LoggedFrame(c, log, d2.c);
    SnapshotLogged(d2, log, c.subs, now, interval, cache);
    PendingLogged(d3, log, c.order, now, interval);
    var d4 := PendingPass(d3, c.order, now, interval);
    LoggedFrame(d4.c, log + LogOf(d4.out, now), d4.c.(order := d4.held));
  }

  // ---- what is taken in ----

  lemma TakeNewest(c: Lanes, ev: Event, seen: map<Id, Event>, cap: nat)
    requires HoldsNewest(c, seen)
    ensures HoldsNewest(Enqueue(c, ev, cap), if ev.radio in c.subs then seen[ev.radio := ev] else seen)
    ensures Enqueue(c, ev, cap).lastNum == c.lastNum
  {
    AdmitTouches(c, ev);
    TellTouches(Admit(c, ev), ev, cap);
    hide Admit, Tell;
  }

  lemma ResubscribeNewest(c: Lanes, ids: seq<Id>, seen: map<Id, Event>)
    requires HoldsNewest(c, seen)
    ensures HoldsNewest(SetRadios(c, ids), map id | id in seen && id in ids :: seen[id])
    ensures SetRadios(c, ids).lastNum == c.lastNum
  {
    hide Keep, KeepDiscrete;
  }

  // ---- whole runs ----

  ghost predicate Current(r: Run, seen: map<Id, Event>, cap: nat, interval: int) {
    && StateLane.Sound(r, cap, interval) && HoldsNewest(r.c, seen) && Logged(r.c, r.log)
    && forall id :: id in seen ==> id in r.top && seen[id].num <= r.top[id]
  }

  lemma StepCurrent(r: Run, s: Step, seen: map<Id, Event>, cap: nat, interval: int)
    requires Current(r, seen, cap, interval) && interval >= 0 && Allowed(r, s)
    ensures Current(Next(r, s, cap, interval), Saw(seen, r.c, s), cap, interval)
  {
    StepSound(r, s, cap, interval);
    StepTop(r, s, seen, cap, interval);
    hide StateLane.Sound, HoldsNewest, Enqueue, SetRadios, Drain, Logged, Allowed;
    match s
    case Take(ev) =>
      TakeNewest(r.c, ev, seen, cap);
      LoggedFrame(r.c, r.log, Enqueue(r.c, ev, cap));
    case Resubscribe(ids) =>
      ResubscribeNewest(r.c, ids, seen);
      LoggedFrame(r.c, r.log, SetRadios(r.c, ids));
    case Advance(_) =>
    case Flush(now, cache) => FlushCurrent(r, now, cache, seen, cap, interval);
  }

  lemma StepTop(r: Run, s: Step, seen: map<Id, Event>, cap: nat, interval: int)
    requires Current(r, seen, cap, interval) && Allowed(r, s)
    ensures var later := Saw(seen, r.c, s); var top := Next(r, s, cap, interval).top;
      forall id :: id in later ==> id in top && later[id].num <= top[id]
  {
    hide StateLane.Sound, HoldsNewest, Enqueue, SetRadios, Drain, Logged;
  }

  lemma FlushCurrent(r: Run, now: int, cache: map<Id, Cached>, seen: map<Id, Event>, cap: nat, interval: int)
    requires Current(r, seen, cap, interval) && interval >= 0 && Allowed(r, Flush(now, cache))
    ensures var n := Next(r, Flush(now, cache), cap, interval); HoldsNewest(n.c, seen) && Logged(n.c, n.log)
  {
    hide StateLane.Sound, HoldsNewest, Drain, Logged, Allowed;
    CacheCovers(r, now, cache, cap, interval);
    DrainAllNewest(r.c, now, interval, cache, cap, seen);
    DrainLogged(r.c, r.log, now, interval, cache, cap);
  }

  lemma CacheCovers(r: Run, now: int, cache: map<Id, Cached>, cap: nat, interval: int)
    requires StateLane.Sound(r, cap, interval) && Allowed(r, Flush(now, cache))
    ensures Good(r.c, cap) && forall i :: i in cache ==> LastNum(r.c, i) <= cache[i].num
  {
    hide Good, InOrder, Based;
  }

  lemma DrainAllNewest(c: Lanes, now: int, interval: int, cache: map<Id, Cached>, cap: nat, seen: map<Id, Event>)
    requires Good(c, cap) && HoldsNewest(c, seen) && forall i :: i in cache ==> LastNum(c, i) <= cache[i].num
    ensures HoldsNewest(Drain(c, now, interval, cache).c, seen)
  {
    hide *;
    DrainNewest(c, now, interval, cache, cap, seen, Id(""));
  }

  lemma {:induction false} RunCurrent(r: Run, steps: seq<Step>, seen: map<Id, Event>, cap: nat, interval: int)
    requires Current(r, seen, cap, interval) && interval >= 0 && AllAllowed(r, steps, cap, interval)
    ensures Current(Outcome(r, steps, cap, interval), Seen(r, steps, cap, interval, seen), cap, interval)
    decreases |steps|
  {
    hide Current, Next, Saw, Allowed;
    if steps != [] {
      StepCurrent(r, steps[0], seen, cap, interval);
      RunCurrent(Next(r, steps[0], cap, interval), steps[1..], Saw(seen, r.c, steps[0]), cap, interval);
    }
  }

  function Fresh(radios: seq<Id>, top: map<Id, nat>): Run {
    Run(Lanes(radios, map[], [], [], {}, SetOf(radios), map[], map[], map[]), [], 0, top)
  }

  lemma FreshCurrent(radios: seq<Id>, top: map<Id, nat>, cap: nat, interval: int)
    requires SetOf(radios) <= top.Keys
    ensures Current(Fresh(radios, top), map[], cap, interval)
  {
    StartSound(radios, top, cap, interval);
    hide StateLane.Sound;
  }

  /** Last value wins: over every connection, what a client has waiting of a radio is the last
      event taken of it, whole, and nothing else is waiting. */
  lemma LastValueWins(radios: seq<Id>, top: map<Id, nat>, steps: seq<Step>, cap: nat, interval: int)
    requires SetOf(radios) <= top.Keys && interval >= 0 && AllAllowed(Fresh(radios, top), steps, cap, interval)
    ensures var c := Outcome(Fresh(radios, top), steps, cap, interval).c;
      var seen := Seen(Fresh(radios, top), steps, cap, interval, map[]);
      && (forall id :: id in c.pending ==> id in seen && c.pending[id] == seen[id])
      && (forall id :: id in seen && id !in c.pending ==> seen[id].num <= LastNum(c, id))
  {
    FreshCurrent(radios, top, cap, interval);
    hide Outcome, Seen, Fresh, AllAllowed, StateLane.Sound, Logged, LastNum;
    RunCurrent(Fresh(radios, top), steps, map[], cap, interval);
  }

  /** No resubscription gives the radio up, and no event of it is older than num. */
  predicate Follows(steps: seq<Step>, id: Id, num: nat) {
    forall k :: 0 <= k < |steps| ==>
      && (steps[k].Resubscribe? ==> id in steps[k].ids)
      && (steps[k].Take? && steps[k].ev.radio == id ==> steps[k].ev.num >= num)
  }

  lemma {:induction false} SeenGrows(r: Run, steps: seq<Step>, cap: nat, interval: int, seen: map<Id, Event>, id: Id, num: nat)
    requires id in seen && seen[id].num >= num && Follows(steps, id, num)
    ensures var later := Seen(r, steps, cap, interval, seen); id in later && later[id].num >= num
    decreases |steps|
  {
    hide Next;
    if steps != [] {
      assert Follows(steps[1..], id, num);
      SeenGrows(Next(r, steps[0], cap, interval), steps[1..], cap, interval, Saw(seen, r.c, steps[0]), id, num);
    }
  }

  /** Every event taken of a radio the client stays with is answered for, as long as the radio's
      events come in number order: what waits is at least as new, or something at least as new has
      been sent. And the first drain after the radio's rate limit has passed leaves only the
      second: nothing newer is left unsent. */
  lemma NewestReaches(radios: seq<Id>, top: map<Id, nat>, before: seq<Step>, ev: Event, after: seq<Step>, now: int, cache: map<Id, Cached>, cap: nat, interval: int)
    requires SetOf(radios) <= top.Keys && interval >= 0 && AllAllowed(Fresh(radios, top), before, cap, interval)
    requires var r := Outcome(Fresh(radios, top), before, cap, interval); Allowed(r, Take(ev)) && ev.radio in r.c.subs
    requires AllAllowed(Next(Outcome(Fresh(radios, top), before, cap, interval), Take(ev), cap, interval), after, cap, interval)
    requires Follows(after, ev.radio, ev.num) && ev.num > 0
    ensures var r := Outcome(Next(Outcome(Fresh(radios, top), before, cap, interval), Take(ev), cap, interval), after, cap, interval);
      && (if ev.radio in r.c.pending then r.c.pending[ev.radio].num >= ev.num else SentUpTo(r.log, ev.radio, ev.num))
      && (Allowed(r, Flush(now, cache)) && !Limited(r.c.nextAt, ev.radio, now) ==>
            SentUpTo(Next(r, Flush(now, cache), cap, interval).log, ev.radio, ev.num))
  {
    FreshCurrent(radios, top, cap, interval);
    hide *;
    var r0, id := Outcome(Fresh(radios, top), before, cap, interval), ev.radio;
    RunCurrent(Fresh(radios, top), before, map[], cap, interval);
    var seen0 := Seen(Fresh(radios, top), before, cap, interval, map[]);
    var r1, seen1 := Next(r0, Take(ev), cap, interval), Saw(seen0, r0.c, Take(ev));
    StepCurrent(r0, Take(ev), seen0, cap, interval);
    SawTaken(seen0, r0.c, ev);
    RunCurrent(r1, after, seen1, cap, interval);
    var r, seen := Outcome(r1, after, cap, interval), Seen(r1, after, cap, interval, seen1);
    SeenGrows(r1, after, cap, interval, seen1, id, ev.num);
    CurrentAnswers(r, seen, cap, interval, id, ev.num);
    if Allowed(r, Flush(now, cache)) && !Limited(r.c.nextAt, id, now) {
      FlushAnswers(r, seen, cap, interval, id, ev.num, now, cache);
    }
  }

  lemma SawTaken(seen: map<Id, Event>, c: Lanes, ev: Event)
    requires ev.radio in c.subs
    ensures var later := Saw(seen, c, Take(ev)); ev.radio in later && later[ev.radio] == ev
  {}

  lemma CurrentAnswers(r: Run, seen: map<Id, Event>, cap: nat, interval: int, id: Id, num: nat)
    requires Current(r, seen, cap, interval) && id in seen && seen[id].num >= num > 0
    ensures if id in r.c.pending then r.c.pending[id].num >= num else SentUpTo(r.log, id, num)
  {
    hide StateLane.Sound;
    if id !in r.c.pending { LoggedSince(r.c, r.log, id, num); }
  }

  lemma LoggedSince(c: Lanes, log: seq<Entry>, id: Id, num: nat)
    requires Logged(c, log) && LastNum(c, id) >= num > 0
    ensures SentUpTo(log, id, num)
  {
    assert SentUpTo(log, id, c.lastNum[id]);
  }

  lemma FlushAnswers(r: Run, seen: map<Id, Event>, cap: nat, interval: int, id: Id, num: nat, now: int, cache: map<Id, Cached>)
    requires Current(r, seen, cap, interval) && id in seen && seen[id].num >= num > 0
    requires interval >= 0 && Allowed(r, Flush(now, cache)) && !Limited(r.c.nextAt, id, now)
    ensures SentUpTo(Next(r, Flush(now, cache), cap, interval).log, id, num)
  {
    var n := Next(r, Flush(now, cache), cap, interval);
    FlushCurrent(r, now, cache, seen, cap, interval);
    CacheReaches(r, now, cache, seen, cap, interval, id);
    hide *;
    CacheCovers(r, now, cache, cap, interval);
    CurrentParts(r, seen, cap, interval);
    DrainNewest(r.c, now, interval, cache, cap, seen, id);
    FlushIs(r, now, cache, cap, interval);
    LoggedSince(n.c, n.log, id, num);
  }

  lemma CacheReaches(r: Run, now: int, cache: map<Id, Cached>, seen: map<Id, Event>, cap: nat, interval: int, id: Id)
    requires Current(r, seen, cap, interval) && id in seen && Allowed(r, Flush(now, cache))
    ensures id in cache ==> seen[id].num <= cache[id].num
  {
    hide StateLane.Sound, HoldsNewest, Logged;
  }

  lemma CurrentParts(r: Run, seen: map<Id, Event>, cap: nat, interval: int)
    requires Current(r, seen, cap, interval)
    ensures StateLane.Sound(r, cap, interval) && HoldsNewest(r.c, seen)
  {
    hide StateLane.Sound, HoldsNewest, Logged;
  }

  lemma FlushIs(r: Run, now: int, cache: map<Id, Cached>, cap: nat, interval: int)
    ensures Next(r, Flush(now, cache), cap, interval).c == Drain(r.c, now, interval, cache).c
  {
    hide Drain;
  }
}

/** In which order a client hears about its radios (internal/ws/client.go): first come, first served,
    however often one of them changes in the meantime. */
module FairOrder {
  import opened Basics
  import opened RadioState
  import opened Events
  import opened WsClient
  import opened StateLane

  /** When each radio's state began to wait, counted in steps. */
  function Since(since: map<Id, nat>, n: nat, c: Lanes, s: Step): map<Id, nat> {
    if s.Take? && s.ev.radio in c.subs && s.ev.radio !in c.pending then since[s.ev.radio := n] else since
  }

  /** These radios began to wait in this order, and before step n. */
  predicate InTurn(ids: seq<Id>, since: map<Id, nat>, n: nat) {
    && (forall i :: 0 <= i < |ids| ==> ids[i] in since && since[ids[i]] < n)
    && (forall i, j :: 0 <= i < j < |ids| ==> since[ids[i]] < since[ids[j]])
  }

  /** The radios of the state events in a batch, in order. */
  function Heard(out: seq<Message>): seq<Id> {
    if out == [] then [] else Heard(out[..|out| - 1]) + HeardOf(out[|out| - 1])
  }

  function HeardOf(m: Message): seq<Id> {
    if m.DeltaMsg? || (m.StateMsg? && !m.owed) then [m.radio] else []
  }

  lemma HeardPush(out: seq<Message>, m: Message)
    ensures Heard(out + [m]) == Heard(out) + HeardOf(m)
  {
    assert (out + [m])[..|out|] == out;
  }

  // All of a comes before id.
  predicate Before(a: seq<Id>, since: map<Id, nat>, id: Id) {
    id in since && forall i :: 0 <= i < |a| ==> a[i] in since && since[a[i]] < since[id]
  }

  lemma InTurnPush(a: seq<Id>, since: map<Id, nat>, n: nat, id: Id)
    requires InTurn(a, since, n) && Before(a, since, id) && since[id] < n
    ensures InTurn(a + [id], since, n)
  {}

  lemma {:induction false} KeepInTurn(ids: seq<Id>, wanted: set<Id>, since: map<Id, nat>, n: nat)
    requires InTurn(ids, since, n)
    ensures InTurn(Keep(ids, wanted), since, n)
    ensures forall id :: Before(ids, since, id) ==> Before(Keep(ids, wanted), since, id)
  {
    if ids != [] {
      var front, last := ids[..|ids| - 1], ids[|ids| - 1];
      assert InTurn(front, since, n) && Before(front, since, last);
      KeepInTurn(front, wanted, since, n);
      if last in wanted { InTurnPush(Keep(front, wanted), since, n, last); }
      assert forall id :: Before(ids, since, id) ==> Before(front, since, id) && since[last] < since[id];
    }
  }

  /** The state pass goes through the radios in their order, and leaves those it holds back in it. */
  lemma {:induction false} PassInTurn(d: Drained, ids: seq<Id>, now: int, interval: int, since: map<Id, nat>, n: nat)
    requires InTurn(ids, since, n) && d.held == [] && Heard(d.out) == []
    requires forall i :: i in d.c.pending ==> d.c.pending[i].radio == i
    ensures var e := PendingPass(d, ids, now, interval);
      && InTurn(e.held, since, n) && InTurn(Heard(e.out), since, n)
      && forall id :: Before(ids, since, id) ==> Before(e.held, since, id) && Before(Heard(e.out), since, id)
  {
    if ids != [] {
      var front, last := ids[..|ids| - 1], ids[|ids| - 1];
      InTurnFront(ids, since, n);
      hide InTurn, Before;
      PassInTurn(d, front, now, interval, since, n);
      PendingFrame(d, front, now, interval);
      var f := PendingPass(d, front, now, interval);
      hide PendingPass, Heard;
      PassIs(d, ids, now, interval);
      StepInTurn(f, last, now, interval, since, n);
      hide PendingStep;
      forall id | Before(ids, since, id) ensures Before(f.held + [last], since, id) && Before(Heard(f.out) + [last], since, id) {
        BeforePush(f.held, since, last, id);
        BeforePush(Heard(f.out), since, last, id);
      }
    } else {
      NoneInTurn(since, n);
      hide InTurn, Before;
    }
  }

  lemma NoneInTurn(since: map<Id, nat>, n: nat)
    ensures InTurn([], since, n) && forall id :: id in since ==> Before([], since, id)
    ensures forall ids, id :: Before(ids, since, id) ==> id in since
  {}

  // The last of a row, and the row before it.
  lemma InTurnFront(ids: seq<Id>, since: map<Id, nat>, n: nat)
    requires ids != [] && InTurn(ids, since, n)
    ensures var front, last := ids[..|ids| - 1], ids[|ids| - 1];
      && InTurn(front, since, n) && Before(front, since, last) && since[last] < n
      && forall id :: Before(ids, since, id) ==> Before(front, since, id) && id in since && since[last] < since[id]
  {}

  lemma BeforePush(a: seq<Id>, since: map<Id, nat>, last: Id, id: Id)
    requires Before(a, since, id) && last in since && id in since && since[last] < since[id]
    ensures Before(a + [last], since, id)
  {}

  lemma PassIs(d: Drained, ids: seq<Id>, now: int, interval: int)
    requires ids != []
    ensures PendingPass(d, ids, now, interval)
         == PendingStep(PendingPass(d, ids[..|ids| - 1], now, interval), ids[|ids| - 1], now, interval)
  {}

  lemma StepInTurn(f: Drained, last: Id, now: int, interval: int, since: map<Id, nat>, n: nat)
    requires InTurn(f.held, since, n) && InTurn(Heard(f.out), since, n)
    requires Before(f.held, since, last) && Before(Heard(f.out), since, last) && since[last] < n
    requires forall i :: i in f.c.pending ==> f.c.pending[i].radio == i
    ensures var e := PendingStep(f, last, now, interval);
      && (e.held == f.held || e.held == f.held + [last]) && InTurn(e.held, since, n)
      && (Heard(e.out) == Heard(f.out) || Heard(e.out) == Heard(f.out) + [last]) && InTurn(Heard(e.out), since, n)
  {
    InTurnPush(f.held, since, n, last);
    InTurnPush(Heard(f.out), since, n, last);
    hide Heard, InTurn;
    var e := PendingStep(f, last, now, interval);
    if e.out != f.out { HeardPush(f.out, e.out[|f.out|]); }
  }

  lemma {:induction false} ResyncsUnheard(d: Drained, ids: seq<Id>, now: int, interval: int)
    requires Heard(d.out) == []
    ensures Heard(ResyncPass(d, ids, now, interval).out) == []
  {
    if ids != [] {
      ResyncsUnheard(d, ids[..|ids| - 1], now, interval);
      var f, e := ResyncPass(d, ids[..|ids| - 1], now, interval), ResyncPass(d, ids, now, interval);
      hide Heard, ResyncPass;
      if e.out != f.out { HeardPush(f.out, e.out[|f.out|]); }
    }
  }

  lemma {:induction false} SnapshotsUnheard(d: Drained, ids: seq<Id>, now: int, interval: int, cache: map<Id, Cached>)
    requires Heard(d.out) == []
    ensures Heard(SnapshotPass(d, ids, now, interval, cache).out) == []
  {
    if ids != [] {
      SnapshotsUnheard(d, ids[..|ids| - 1], now, interval, cache);
      var f, e := SnapshotPass(d, ids[..|ids| - 1], now, interval, cache), SnapshotPass(d, ids, now, interval, cache);
      hide Heard, SnapshotPass;
      if e.out != f.out { HeardPush(f.out, e.out[|f.out|]); }
    }
  }

  lemma {:induction false} EventsUnheard(out: seq<Message>, ds: seq<Discrete>)
    requires Heard(out) == []
    ensures Heard(out + Messages(ds)) == []
  {
    if ds == [] {
      assert out + [] == out;
    } else {
      var front := ds[..|ds| - 1];
      EventsUnheard(out, front);
      hide Heard;
      HeardPush(out + Messages(front), DiscreteMsg(ds[|ds| - 1]));
      assert out + (Messages(front) + [DiscreteMsg(ds[|ds| - 1])]) == out + Messages(front) + [DiscreteMsg(ds[|ds| - 1])];
    }
  }

  /** A drain tells of the radios in the order they began to wait, and whom it holds back keeps
      their place. */
  lemma DrainInTurn(c: Lanes, now: int, interval: int, cache: map<Id, Cached>, cap: nat, since: map<Id, nat>, n: nat)
    requires Good(c, cap) && InTurn(c.order, since, n)
    ensures var d := Drain(c, now, interval, cache); InTurn(d.c.order, since, n) && InTurn(Heard(d.out), since, n)
  {
    var d0 := Drained(c, [], None, []);
    var d1 := ResyncPass(d0, c.subs, now, interval);
    ResyncKeeps(d0, c.subs, now, interval);
    ResyncsUnheard(d0, c.subs, now, interval);
    EventsUnheard(d1.out, d1.c.discrete);
    SnapshotKeeps(DiscretePass(d1), c.subs, now, interval, cache);
    SnapshotsUnheard(DiscretePass(d1), c.subs, now, interval, cache);
    hide ResyncPass, SnapshotPass, PendingPass, Heard, InTurn, Messages, Distinct;
    PassInTurn(SnapshotPass(DiscretePass(d1), c.subs, now, interval, cache), c.order, now, interval, since, n);
  }

  // ---- whole runs ----

  function SinceAfter(r: Run, steps: seq<Step>, cap: nat, interval: int, since: map<Id, nat>, n: nat): map<Id, nat>
    decreases |steps|
  {
    if steps == [] then since
    else SinceAfter(Next(r, steps[0], cap, interval), steps[1..], cap, interval, Since(since, n, r.c, steps[0]), n + 1)
  }

  lemma StepInTurnKept(r: Run, s: Step, cap: nat, interval: int, since: map<Id, nat>, n: nat)
    requires Good(r.c, cap) && InTurn(r.c.order, since, n)
    ensures InTurn(Next(r, s, cap, interval).c.order, Since(since, n, r.c, s), n + 1)
  {
    match s
    case Take(ev) =>
      AdmitOrder(r.c, ev);
      TellOrder(Admit(r.c, ev), ev, cap);
      hide Admit, Tell;
      assert forall i :: 0 <= i < |r.c.order| ==> r.c.order[i] in SetOf(r.c.order);
    case Resubscribe(ids) => KeepInTurn(r.c.order, SetRadios(r.c, ids).pending.Keys, since, n); hide Keep, KeepDiscrete;
    case Flush(now, cache) => DrainInTurn(r.c, now, interval, cache, cap, since, n); hide Drain;
    case Advance(_) =>
  }

  lemma AdmitOrder(c: Lanes, ev: Event)
    ensures var e := Admit(c, ev); e.order == c.order && e.pending == c.pending && e.subs == c.subs
  {}

  lemma TellOrder(c: Lanes, ev: Event, cap: nat)
    ensures var e := Tell(c, ev, cap); e.order == c.order && e.pending == c.pending && e.subs == c.subs
  {
    hide DiscreteOf;
  }

  lemma StepGood(r: Run, s: Step, cap: nat, interval: int)
    requires Good(r.c, cap)
    ensures Good(Next(r, s, cap, interval).c, cap)
  {
    hide Good, Enqueue, SetRadios, Drain;
    match s
    case Take(ev) => EnqueueGood(r.c, ev, cap);
    case Resubscribe(ids) => SetRadiosGood(r.c, ids, cap);
    case Flush(now, cache) => DrainGood(r.c, now, interval, cache, cap);
    case Advance(_) =>
  }

  lemma {:induction false} RunInTurn(r: Run, steps: seq<Step>, cap: nat, interval: int, since: map<Id, nat>, n: nat)
    requires Good(r.c, cap) && InTurn(r.c.order, since, n)
    ensures var m := Outcome(r, steps, cap, interval);
      Good(m.c, cap) && InTurn(m.c.order, SinceAfter(r, steps, cap, interval, since, n), n + |steps|)
    decreases |steps|
  {
    hide Good, InTurn, Next, Since;
    if steps != [] {
      StepGood(r, steps[0], cap, interval);
      StepInTurnKept(r, steps[0], cap, interval, since, n);
      RunInTurn(Next(r, steps[0], cap, interval), steps[1..], cap, interval, Since(since, n, r.c, steps[0]), n + 1);
    }
  }

  /** First come, first served: over every connection, whatever is published, subscribed and
      drained, a drain tells of the radios' states in the order in which they began to wait. */
  lemma FirstComeFirstServed(r: Run, steps: seq<Step>, now: int, cache: map<Id, Cached>, cap: nat, interval: int)
    requires Good(r.c, cap) && r.c.order == []
    ensures var c := Outcome(r, steps, cap, interval).c; var since := SinceAfter(r, steps, cap, interval, map[], 0);
      InTurn(c.order, since, |steps|) && InTurn(Heard(Drain(c, now, interval, cache).out), since, |steps|)
  {
    assert InTurn([], map[], 0);
    hide *;
    RunInTurn(r, steps, cap, interval, map[], 0);
    DrainInTurn(Outcome(r, steps, cap, interval).c, now, interval, cache, cap, SinceAfter(r, steps, cap, interval, map[], 0), |steps|);
  }
}

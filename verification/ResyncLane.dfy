/** How often one client is told to refetch a radio (internal/ws/client.go). */
module ResyncLane {
  import opened Basics
  import opened RadioState
  import opened Events
  import opened WsClient

  // A resync as it was written.
  datatype Beat = Beat(radio: Id, time: int)

  function BeatsOf(out: seq<Message>, now: int): seq<Beat> {
    if out == [] then [] else
      BeatsOf(out[..|out| - 1], now) + (if out[|out| - 1].ResyncMsg? then [Beat(out[|out| - 1].radio, now)] else [])
  }

  /** Two resyncs of one radio are at least interval apart. */
  predicate Spaced(log: seq<Beat>, interval: int) {
    forall i, j :: 0 <= i < j < |log| && log[i].radio == log[j].radio ==> log[i].time + interval <= log[j].time
  }

  predicate Paced(c: Lanes, log: seq<Beat>, interval: int) {
    && Spaced(log, interval)
    && (forall k :: 0 <= k < |log| ==> log[k].radio in c.nextResync && log[k].time + interval <= c.nextResync[log[k].radio])
  }

  lemma {:induction false} BeatsConcat(a: seq<Message>, b: seq<Message>, now: int)
    ensures BeatsOf(a + b, now) == BeatsOf(a, now) + BeatsOf(b, now)
  {
    if b == [] {
      assert a + b == a;
    } else {
      assert (a + b)[..|a + b| - 1] == a + b[..|b| - 1];
      BeatsConcat(a, b[..|b| - 1], now);
    }
  }

  lemma {:induction false} ResyncsPaced(d: Drained, log: seq<Beat>, ids: seq<Id>, now: int, interval: int)
    returns (more: seq<Message>)
    requires Paced(d.c, log, interval) && interval >= 0
    ensures var e := ResyncPass(d, ids, now, interval);
      e.out == d.out + more && Paced(e.c, log + BeatsOf(more, now), interval)
  {
    hide Paced, ResyncStep;
    more := [];
    assert log + BeatsOf([], now) == log;
    if ids != [] {
      var front, last := ids[..|ids| - 1], ids[|ids| - 1];
      var a := ResyncsPaced(d, log, front, now, interval);
      var b := ResyncPaced(ResyncPass(d, front, now, interval), log + BeatsOf(a, now), last, now, interval);
      more := a + b;
      BeatsConcat(a, b, now);
      assert log + BeatsOf(a + b, now) == log + BeatsOf(a, now) + BeatsOf(b, now);
    }
  }

  lemma ResyncPaced(d: Drained, log: seq<Beat>, id: Id, now: int, interval: int) returns (more: seq<Message>)
    requires Paced(d.c, log, interval) && interval >= 0
    ensures var e := ResyncStep(d, id, now, interval);
      e.out == d.out + more && Paced(e.c, log + BeatsOf(more, now), interval)
  {
    more := [];
    assert log + BeatsOf([], now) == log;
    if id in d.c.resync && !Limited(d.c.nextResync, id, now) {
      more := [ResyncMsg(id, if id in d.c.lastNum then d.c.lastNum[id] else 0, now)];
      assert more[..0] == [] && BeatsOf(more, now) == [Beat(id, now)];
    }
  }

  predicate NoResync(out: seq<Message>) { forall k :: 0 <= k < |out| ==> !out[k].ResyncMsg? }

  lemma {:induction false} NoResyncNoBeat(out: seq<Message>, now: int)
    requires NoResync(out)
    ensures BeatsOf(out, now) == []
  {
    if out != [] { NoResyncNoBeat(out[..|out| - 1], now); }
  }

  lemma {:induction false} MessagesNoResync(ds: seq<Discrete>)
    ensures NoResync(Messages(ds))
  {
    if ds != [] { MessagesNoResync(ds[..|ds| - 1]); }
  }

  lemma {:induction false} SnapshotsNoResync(d: Drained, ids: seq<Id>, now: int, interval: int, cache: map<Id, Cached>)
    returns (more: seq<Message>)
    ensures var e := SnapshotPass(d, ids, now, interval, cache);
      e.out == d.out + more && NoResync(more) && e.c.nextResync == d.c.nextResync
  {
    more := [];
    if ids != [] {
      var a := SnapshotsNoResync(d, ids[..|ids| - 1], now, interval, cache);
      var f, e := SnapshotPass(d, ids[..|ids| - 1], now, interval, cache), SnapshotPass(d, ids, now, interval, cache);
      more := if e.out == f.out then a else a + [e.out[|e.out| - 1]];
    }
  }

  lemma {:induction false} PendingsNoResync(d: Drained, ids: seq<Id>, now: int, interval: int) returns (more: seq<Message>)
    ensures var e := PendingPass(d, ids, now, interval);
      e.out == d.out + more && NoResync(more) && e.c.nextResync == d.c.nextResync
  {
    hide ChangedFields;
    more := [];
    if ids != [] {
      var a := PendingsNoResync(d, ids[..|ids| - 1], now, interval);
      var f, e := PendingPass(d, ids[..|ids| - 1], now, interval), PendingPass(d, ids, now, interval);
      more := if e.out == f.out then a else a + [e.out[|e.out| - 1]];
    }
  }

  // ---- the run ----

  datatype Step = Take(ev: Event) | Resubscribe(ids: seq<Id>) | Flush(now: int, cache: map<Id, Cached>)

  datatype Run = Run(c: Lanes, log: seq<Beat>)

  function Next(r: Run, s: Step, cap: nat, interval: int): Run {
    match s
    case Take(ev) => r.(c := Enqueue(r.c, ev, cap))
    case Resubscribe(ids) => r.(c := SetRadios(r.c, ids))
    case Flush(now, cache) =>
      var d := Drain(r.c, now, interval, cache);
      Run(d.c, r.log + BeatsOf(d.out, now))
  }

  function Outcome(r: Run, steps: seq<Step>, cap: nat, interval: int): Run
    decreases |steps|
  {
    if steps == [] then r else Outcome(Next(r, steps[0], cap, interval), steps[1..], cap, interval)
  }

  lemma FlushPaced(c: Lanes, log: seq<Beat>, now: int, cache: map<Id, Cached>, interval: int)
    requires Paced(c, log, interval) && interval >= 0
    ensures var d := Drain(c, now, interval, cache); Paced(d.c, log + BeatsOf(d.out, now), interval)
  {
    var d0 := Drained(c, [], None, []);
    var r := ResyncsPaced(d0, log, c.subs, now, interval);
    var d1 := ResyncPass(d0, c.subs, now, interval);
    var ms := Messages(d1.c.discrete);
    MessagesNoResync(d1.c.discrete);
    var d2 := DiscretePass(d1);
    var s := SnapshotsNoResync(d2, c.subs, now, interval, cache);
    var d3 := SnapshotPass(d2, c.subs, now, interval, cache);
    var p := PendingsNoResync(d3, c.order, now, interval);
    var d4 := PendingPass(d3, c.order, now, interval);
    hide ResyncPass, SnapshotPass, PendingPass, Messages, BeatsOf, NoResync;
    assert d4.out == r + ms + s + p;
    QuietTail(r, ms, s, p, now);
    hide Spaced;
  }

  lemma QuietTail(r: seq<Message>, ms: seq<Message>, s: seq<Message>, p: seq<Message>, now: int)
    requires NoResync(ms) && NoResync(s) && NoResync(p)
    ensures BeatsOf(r + ms + s + p, now) == BeatsOf(r, now)
  {
    hide NoResync;
    BeatsConcat(r + ms + s, p, now);
    BeatsConcat(r + ms, s, now);
    BeatsConcat(r, ms, now);
    NoResyncNoBeat(ms, now);
    NoResyncNoBeat(s, now);
    NoResyncNoBeat(p, now);
  }

  lemma TakeKeepsDue(c: Lanes, ev: Event, cap: nat)
    ensures Enqueue(c, ev, cap).nextResync == c.nextResync
  {
    TellKeepsDue(Admit(c, ev), ev, cap);
    hide Tell;
  }

  lemma TellKeepsDue(c: Lanes, ev: Event, cap: nat)
    ensures Tell(c, ev, cap).nextResync == c.nextResync
  {
    hide DiscreteOf;
  }

  /** Over every connection, however many holes open up and whatever order things happen in, a
      radio's resyncs keep the minimum interval. It does not need the clock to run forward. */
  lemma {:induction false} ResyncsSpaced(r: Run, steps: seq<Step>, cap: nat, interval: int)
    requires Paced(r.c, r.log, interval) && interval >= 0
    ensures Spaced(Outcome(r, steps, cap, interval).log, interval)
    decreases |steps|
  {
    hide Drain, Enqueue, SetRadios, Spaced, BeatsOf;
    if steps != [] {
      match steps[0]
      case Take(ev) => TakeKeepsDue(r.c, ev, cap);
      case Resubscribe(ids) => ResubscribeKeepsDue(r.c, ids);
      case Flush(now, cache) => FlushPaced(r.c, r.log, now, cache, interval);
    }
    if steps != [] { ResyncsSpaced(Next(r, steps[0], cap, interval), steps[1..], cap, interval); }
  }

  lemma ResubscribeKeepsDue(c: Lanes, ids: seq<Id>)
    ensures SetRadios(c, ids).nextResync == c.nextResync
  {}
}

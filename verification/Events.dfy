/** Bounded, non-blocking event queues: a session's subscriptions (internal/rig/event.go) and
    the join of several of them (internal/rig/manager.go). */
module Events {
  import opened Basics
  import opened RadioState

  // A radio's configured identifier.
  datatype Id = Id(name: string)

  datatype Kind = StateKind | CwKind | ConnKind

  // One published change; num is the session's sequence number, and dropped is how many events the
  // subscriber missed just before it.
  datatype Event = Event(kind: Kind, radio: Id, num: nat, at: int, state: State, patch: Patch, err: string, dropped: nat)

  // One subscription: a channel of bounded capacity and the drops since the last send.
  datatype Queue = Queue(ch: seq<Event>, cap: nat, dropped: nat, closed: bool)

  /** What publish does to one subscription. */
  function Offer(q: Queue, ev: Event): Queue {
    if q.closed then q
    else if |q.ch| < q.cap then q.(ch := q.ch + [ev.(dropped := q.dropped)], dropped := 0)
    else q.(dropped := q.dropped + 1)
  }

  /** What the join does with an event that may carry a count already. */
  function Send(q: Queue, ev: Event): Queue {
    if q.closed then q
    else if |q.ch| < q.cap then q.(ch := q.ch + [ev.(dropped := ev.dropped + q.dropped)], dropped := 0)
    else q.(dropped := q.dropped + 1)
  }

  class Subscribers {
    var subs: map<nat, Queue>
    var nextHandle: nat
    const size: nat

    ghost predicate Valid() reads this { forall h :: h in subs ==> h < nextHandle }

    constructor (size: int)
      ensures Valid() && subs == map[] && this.size == if size <= 0 then 64 else size
    {
      this.size := if size <= 0 then 64 else size;
      subs := map[];
      nextHandle := 0;
    }

    method Add() returns (h: nat)
      requires Valid()
      modifies this
      ensures Valid() && h !in old(subs) && subs == old(subs)[h := Queue([], size, 0, false)]
    {
      h := nextHandle;
      nextHandle := nextHandle + 1;
      subs := subs[h := Queue([], size, 0, false)];
    }

    /** Unsubscribing twice is harmless. */
    method Unsubscribe(h: nat)
      requires Valid()
      modifies this
      ensures Valid() && subs == old(subs) - {h}
    {
      subs := subs - {h};
    }

    /** Every subscription is offered the event; none can hold up another or the publisher. */
    method Publish(ev: Event)
      requires Valid()
      modifies this
      ensures Valid()
      ensures subs.Keys == old(subs.Keys)
      ensures forall h :: h in subs ==> subs[h] == Offer(old(subs)[h], ev)
    {
      var todo := subs.Keys;
      while todo != {}
        invariant Valid() && todo <= subs.Keys && subs.Keys == old(subs.Keys)
        invariant forall h :: h in subs ==> subs[h] == if h in todo then old(subs)[h] else Offer(old(subs)[h], ev)
        decreases todo
      {
        var h :| h in todo;
        var sub := subs[h];
        if !sub.closed {
          if |sub.ch| < sub.cap {
            sub := sub.(ch := sub.ch + [ev.(dropped := sub.dropped)], dropped := 0);
          } else {
            sub := sub.(dropped := sub.dropped + 1);
          }
        }
        subs := subs[h := sub];
        todo := todo - {h};
      }
    }

    method CloseAll()
      requires Valid()
      modifies this
      ensures Valid() && subs == map[]
    {
      subs := map[];
    }
  }

  class Aggregate {
    var q: Queue

    constructor (cap: nat)
      ensures q == Queue([], cap, 0, false)
    {
      q := Queue([], cap, 0, false);
    }

    method Forward(ev: Event)
      modifies this
      ensures q == Send(old(q), ev)
    {
      if q.closed { return; }
      var e := ev.(dropped := ev.dropped + q.dropped);
      if |q.ch| < q.cap {
        q := q.(ch := q.ch + [e], dropped := 0);
      } else {
        q := q.(dropped := q.dropped + 1);
      }
    }
  }

  // ---- drop accounting ----

  /** The events a queue's contents stand for: themselves and the ones they say were missed. */
  function Told(evs: seq<Event>): nat {
    if evs == [] then 0 else 1 + evs[0].dropped + Told(evs[1..])
  }

  function Tally(q: Queue): nat { Told(q.ch) + q.dropped }

  lemma {:induction false} ToldConcat(a: seq<Event>, b: seq<Event>)
    ensures Told(a + b) == Told(a) + Told(b)
  {
    if a == [] {
      assert a + b == b;
    } else {
      assert (a + b)[1..] == a[1..] + b;
      ToldConcat(a[1..], b);
    }
  }

  datatype Op = Pub(ev: Event) | Recv

  /** A subscriber's life: events offered to it, and events it takes off its channel. */
  function Life(q: Queue, ops: seq<Op>): (Queue, seq<Event>)
    decreases |ops|
  {
    if ops == [] then (q, []) else
      match ops[0]
      case Pub(ev) => Life(Offer(q, ev), ops[1..])
      case Recv =>
        if q.ch == [] then Life(q, ops[1..])
        else var (end, got) := Life(q.(ch := q.ch[1..]), ops[1..]); (end, [q.ch[0]] + got)
  }

  function Published(ops: seq<Op>): nat {
    if ops == [] then 0 else (if ops[0].Pub? then 1 else 0) + Published(ops[1..])
  }

  /** One level counts exactly: whatever a subscriber read and in whatever rhythm, what it got,
      what it was told it missed, what waits for it and the open count add up to what was
      published. */
  lemma {:induction false} DropsAreExact(q: Queue, ops: seq<Op>)
    requires !q.closed
    ensures var (end, got) := Life(q, ops); Told(got) + Tally(end) == Tally(q) + Published(ops)
    decreases |ops|
  {
    if ops != [] {
      match ops[0]
      case Pub(ev) =>
        if |q.ch| < q.cap {
          ToldConcat(q.ch, [ev.(dropped := q.dropped)]);
          assert [ev.(dropped := q.dropped)][1..] == [];
        }
        DropsAreExact(Offer(q, ev), ops[1..]);
      case Recv =>
        if q.ch == [] {
          DropsAreExact(q, ops[1..]);
        } else {
          var next := q.(ch := q.ch[1..]);
          DropsAreExact(next, ops[1..]);
          var (end, got) := Life(next, ops[1..]);
          assert ([q.ch[0]] + got)[1..] == got;
        }
    }
  }

  /** The join keeps the count exactly when it has room or the event carried none; either way
      a count that was there does not become zero. */
  lemma JoinCounts(q: Queue, ev: Event)
    requires !q.closed
    ensures Tally(Send(q, ev)) == Tally(q) + 1 + ev.dropped <==> |q.ch| < q.cap || ev.dropped == 0
    ensures ev.dropped > 0 || q.dropped > 0 ==>
      var r := Send(q, ev); r.dropped > 0 || (r.ch != [] && r.ch[|r.ch| - 1].dropped > 0)
  {
    if |q.ch| < q.cap {
      var e := ev.(dropped := ev.dropped + q.dropped);
      ToldConcat(q.ch, [e]);
      assert [e][1..] == [];
    }
  }
}

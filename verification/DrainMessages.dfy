/** What one drain puts on the wire, message by message (internal/ws/client.go). */
module DrainMessages {
  import opened Basics
  import opened RadioState
  import opened Events
  import opened WsClient
  import opened NewestState

  /** A snapshot is owed of the radio, and there is one to send. */
  predicate Owed(c: Lanes, cache: map<Id, Cached>, id: Id) { id in c.subs && id in c.snapshot && id in cache }

  /** A resync is due: it names the last number sent of the radio, the edge of the hole. */
  predicate ResyncSays(c: Lanes, now: int, m: Message) {
    && m.ResyncMsg? && m.radio in c.subs && m.radio in c.resync && !Limited(c.nextResync, m.radio, now)
    && m.num == LastNum(c, m.radio) && m.at == now
  }

  /** A snapshot is owed: it is the session's state as it is cached, under its number and time. */
  ghost predicate SnapshotSays(c: Lanes, cache: map<Id, Cached>, m: Message) {
    && m.StateMsg? && m.owed && Owed(c, cache, m.radio)
    && m.num == cache[m.radio].num && m.at == cache[m.radio].at && m.state == cache[m.radio].state
  }

  /** A state event is due, newer than all that was sent of its radio: its changed fields, or its
      whole state where it names none; a snapshot sent just before it counts. */
  ghost predicate EventSays(c: Lanes, now: int, interval: int, cache: map<Id, Cached>, m: Message) {
    && (m.DeltaMsg? || (m.StateMsg? && !m.owed)) && m.radio in c.pending
    && var ev := c.pending[m.radio]; var owed := Owed(c, cache, m.radio);
       && (if owed then interval <= 0 && ev.num > cache[m.radio].num
           else !Limited(c.nextAt, m.radio, now) && ev.num > LastNum(c, m.radio))
       && m.num == ev.num && m.at == ev.at
       && (m.StateMsg? ==> ev.patch == map[] && m.state == ev.state)
       && (m.DeltaMsg? ==> ev.patch != map[] && m.changed == ChangedFields(ev.patch, ev.state))
  }

  lemma {:induction false} ResyncPassSays(d: Drained, ids: seq<Id>, now: int, interval: int, m: Message)
    ensures var e := ResyncPass(d, ids, now, interval);
      && (m in e.out <==> m in d.out || (m.ResyncMsg? && m.radio in ids && m.radio in d.c.resync && !Limited(d.c.nextResync, m.radio, now)
                                         && m.num == LastNum(d.c, m.radio) && m.at == now))
      && (forall id :: id !in ids ==>
            && (id in e.c.resync <==> id in d.c.resync)
            && (id in e.c.nextResync <==> id in d.c.nextResync) && (id in d.c.nextResync ==> e.c.nextResync[id] == d.c.nextResync[id]))
      && (forall id :: id in ids && id in d.c.resync && !Limited(d.c.nextResync, id, now) ==> id !in e.c.resync)
      && (forall id :: id in ids && id in e.c.resync ==> id in d.c.resync && Limited(d.c.nextResync, id, now) && id in e.c.nextResync && e.c.nextResync[id] == d.c.nextResync[id])
      && e.c.lastNum == d.c.lastNum
  {
    if ids != [] {
      var front, last := ids[..|ids| - 1], ids[|ids| - 1];
      ResyncPassSays(d, front, now, interval, m);
      assert forall id :: id in ids <==> id in front || id == last;
      var f, e := ResyncPass(d, front, now, interval), ResyncPass(d, ids, now, interval);
      if e.out != f.out { assert forall x :: x in e.out <==> x in f.out || x == e.out[|f.out|]; }
    }
  }

  lemma {:induction false} MessagesSay(ds: seq<Discrete>, m: Message)
    ensures m in Messages(ds) <==> m.DiscreteMsg? && m.event in ds
  {
    if ds != [] {
      var front, last := ds[..|ds| - 1], ds[|ds| - 1];
      MessagesSay(front, m);
      assert forall d :: d in ds <==> d in front || d == last;
    }
  }

  lemma {:induction false} SnapshotPassSays(d: Drained, ids: seq<Id>, now: int, interval: int, cache: map<Id, Cached>, m: Message)
    ensures var e := SnapshotPass(d, ids, now, interval, cache);
      m in e.out <==> m in d.out || (m.StateMsg? && m.owed && m.radio in ids && m.radio in d.c.snapshot && m.radio in cache
                                     && Cached(m.num, m.at, m.state) == cache[m.radio])
  {
    if ids != [] {
      var front, last := ids[..|ids| - 1], ids[|ids| - 1];
      SnapshotPassSays(d, front, now, interval, cache, m);
      SnapshotKeeps(d, front, now, interval, cache);
      assert forall id :: id in ids <==> id in front || id == last;
      hide SnapshotPass;
      SnapshotPassIs(d, ids, now, interval, cache);
      var f := SnapshotPass(d, front, now, interval, cache);
      assert last in f.c.snapshot <==> last in d.c.snapshot && last !in front;
    }
  }

  lemma SnapshotPassIs(d: Drained, ids: seq<Id>, now: int, interval: int, cache: map<Id, Cached>)
    requires ids != []
    ensures SnapshotPass(d, ids, now, interval, cache)
         == SnapshotStep(SnapshotPass(d, ids[..|ids| - 1], now, interval, cache), ids[|ids| - 1], now, interval, cache)
  {}

  /** What the snapshots of a drain leave of the bookkeeping of a radio. */
  lemma {:induction false} SnapshotMarks(d: Drained, ids: seq<Id>, now: int, interval: int, cache: map<Id, Cached>, id: Id)
    ensures var e := SnapshotPass(d, ids, now, interval, cache);
      if id in ids && id in d.c.snapshot && id in cache
      then id in e.c.lastNum && e.c.lastNum[id] == cache[id].num && id in e.c.nextAt && e.c.nextAt[id] == now + interval
      else (id in e.c.lastNum <==> id in d.c.lastNum) && (id in d.c.lastNum ==> e.c.lastNum[id] == d.c.lastNum[id])
           && (id in e.c.nextAt <==> id in d.c.nextAt) && (id in d.c.nextAt ==> e.c.nextAt[id] == d.c.nextAt[id])
  {
    if ids != [] {
      var front, last := ids[..|ids| - 1], ids[|ids| - 1];
      SnapshotMarks(d, front, now, interval, cache, id);
      SnapshotKeeps(d, front, now, interval, cache);
      assert id in ids <==> id in front || id == last;
      assert id in SetOf(front) <==> id in front;
      hide SnapshotPass;
      SnapshotPassIs(d, ids, now, interval, cache);
    }
  }

  lemma {:induction false} PendingPassSays(d: Drained, ids: seq<Id>, now: int, interval: int, m: Message)
    requires Distinct(ids) && forall i :: i in d.c.pending ==> d.c.pending[i].radio == i
    ensures var e := PendingPass(d, ids, now, interval);
      m in e.out <==> m in d.out || ((m.DeltaMsg? || m.StateMsg?) && m.radio in ids && m.radio in d.c.pending
                        && !Limited(d.c.nextAt, m.radio, now) && StateMessage(d.c.lastNum, d.c.pending[m.radio]) == Some(m))
  {
    if ids != [] {
      var front, last := ids[..|ids| - 1], ids[|ids| - 1];
      PendingPassSays(d, front, now, interval, m);
      PendingFrame(d, front, now, interval);
      PendingUntouched(d, front, now, interval, last);
      assert last !in front && forall id :: id in ids <==> id in front || id == last;
      hide PendingPass;
      PendingPassIs(d, ids, now, interval);
      PendingStepSays(PendingPass(d, front, now, interval), last, now, interval, m);
      hide PendingStep, Distinct;
      SameMessage(d.c, PendingPass(d, front, now, interval).c, last);
    }
  }

  lemma SameMessage(c: Lanes, f: Lanes, id: Id)
    requires (id in c.pending <==> id in f.pending) && (id in c.pending ==> f.pending[id] == c.pending[id] && c.pending[id].radio == id)
    requires LastNum(f, id) == LastNum(c, id)
    ensures id in c.pending ==> StateMessage(f.lastNum, f.pending[id]) == StateMessage(c.lastNum, c.pending[id])
  {}

  lemma PendingStepSays(f: Drained, id: Id, now: int, interval: int, m: Message)
    requires forall i :: i in f.c.pending ==> f.c.pending[i].radio == i
    ensures var e := PendingStep(f, id, now, interval);
      m in e.out <==> m in f.out || ((m.DeltaMsg? || m.StateMsg?) && m.radio == id && id in f.c.pending
                        && !Limited(f.c.nextAt, id, now) && StateMessage(f.c.lastNum, f.c.pending[id]) == Some(m))
  {}

  lemma {:induction false} PendingUntouched(d: Drained, ids: seq<Id>, now: int, interval: int, id: Id)
    requires id !in ids
    ensures LastNum(PendingPass(d, ids, now, interval).c, id) == LastNum(d.c, id)
  {
    hide StateMessage;
    if ids != [] { PendingUntouched(d, ids[..|ids| - 1], now, interval, id); }
  }

  /** A drain sends exactly what is due, and each message says what it should: resyncs, the event
      lane, the snapshots owed, and what state is newer than all that was sent. */
  lemma DrainSays(c: Lanes, now: int, interval: int, cache: map<Id, Cached>, cap: nat, m: Message)
    requires Good(c, cap)
    ensures m in Drain(c, now, interval, cache).out <==>
      || ResyncSays(c, now, m)
      || (m.DiscreteMsg? && m.event in c.discrete)
      || SnapshotSays(c, cache, m)
      || EventSays(c, now, interval, cache, m)
  {
    var d0 := Drained(c, [], None, []);
    var d1 := ResyncPass(d0, c.subs, now, interval);
    var d2 := DiscretePass(d1);
    var d3 := SnapshotPass(d2, c.subs, now, interval, cache);
    ResyncKeeps(d0, c.subs, now, interval);
    ResyncPassSays(d0, c.subs, now, interval, m);
    MessagesSay(d1.c.discrete, m);
    SnapshotKeeps(d2, c.subs, now, interval, cache);
    SnapshotPassSays(d2, c.subs, now, interval, cache, m);
    PendingPassSays(d3, c.order, now, interval, m);
    hide ResyncPass, SnapshotPass, PendingPass, Messages, Distinct, StateMessage;
    if m.DeltaMsg? || m.StateMsg? {
      SnapshotMarks(d2, c.subs, now, interval, cache, m.radio);
      EventRenders(c, d3.c, now, interval, cache, m);
      assert m.radio in c.order <==> m.radio in c.pending by { assert m.radio in SetOf(c.order) <==> m.radio in c.order; }
    }
    hide EventSays;
  }

  lemma EventRenders(c: Lanes, e: Lanes, now: int, interval: int, cache: map<Id, Cached>, m: Message)
    requires (m.DeltaMsg? || m.StateMsg?) && e.pending == c.pending && forall i :: i in c.pending ==> c.pending[i].radio == i
    requires var id := m.radio;
      if Owed(c, cache, id)
      then id in e.lastNum && e.lastNum[id] == cache[id].num && id in e.nextAt && e.nextAt[id] == now + interval
      else (id in e.lastNum <==> id in c.lastNum) && (id in c.lastNum ==> e.lastNum[id] == c.lastNum[id])
           && (id in e.nextAt <==> id in c.nextAt) && (id in c.nextAt ==> e.nextAt[id] == c.nextAt[id])
    ensures EventSays(c, now, interval, cache, m) <==>
      m.radio in e.pending && !Limited(e.nextAt, m.radio, now) && StateMessage(e.lastNum, e.pending[m.radio]) == Some(m)
  {}
}

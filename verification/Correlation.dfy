/** Matching replies to requests on one connection (internal/rig/conn.go): a reader that decodes,
    applies and delivers every frame, and callers that take turns to register, write and wait. */
module Correlation {
  import opened Basics

  datatype Key = Unsolicited | Key(name: string)

  // A decoded frame: its reply key, whether the radio accepted, and the patch it carries.
  datatype Update = Update(key: Key, ok: bool, patch: int)

  datatype Frame = Good(up: Update) | Garbled

  // A pending request. Its channel is known by its number.
  datatype Waiter = Waiter(id: nat, keys: seq<Key>)

  datatype Table = Table(waiters: seq<Waiter>, err: Option<string>, closing: bool)

  const GONE := "disconnected"

  predicate Wants(w: Waiter, k: Key) { k in w.keys }

  /** The place of the oldest waiter that asked for k, or the end of the table. */
  function Oldest(ws: seq<Waiter>, k: Key): (i: nat)
    ensures i <= |ws|
    ensures forall j :: 0 <= j < i ==> !Wants(ws[j], k)
    ensures i < |ws| ==> Wants(ws[i], k)
  {
    if ws == [] || Wants(ws[0], k) then 0 else 1 + Oldest(ws[1..], k)
  }

  function Without(ws: seq<Waiter>, i: nat): seq<Waiter>
    requires i < |ws|
  {
    ws[..i] + ws[i + 1..]
  }

  function Matched(ws: seq<Waiter>, k: Key): Option<Waiter> {
    if Oldest(ws, k) < |ws| then Some(ws[Oldest(ws, k)]) else None
  }

  function AfterMatch(ws: seq<Waiter>, k: Key): seq<Waiter> {
    if Oldest(ws, k) < |ws| then Without(ws, Oldest(ws, k)) else ws
  }

  /** The place of a waiter in the table, or its end. */
  function PlaceOf(ws: seq<Waiter>, w: Waiter): (i: nat)
    ensures i <= |ws|
    ensures forall j :: 0 <= j < i ==> ws[j] != w
    ensures i < |ws| ==> ws[i] == w
  {
    if ws == [] || ws[0] == w then 0 else 1 + PlaceOf(ws[1..], w)
  }

  function Dropped(ws: seq<Waiter>, w: Waiter): seq<Waiter> {
    if PlaceOf(ws, w) < |ws| then Without(ws, PlaceOf(ws, w)) else ws
  }

  function LastErr(t: Table): string { if t.err.Some? then t.err.value else GONE }

  function Failed(t: Table, err: Option<string>): Table {
    t.(err := if t.err.None? then err else t.err, closing := true)
  }

  lemma {:induction false} OldestIs(ws: seq<Waiter>, k: Key, i: nat)
    requires i <= |ws| && (forall j :: 0 <= j < i ==> !Wants(ws[j], k)) && (i < |ws| ==> Wants(ws[i], k))
    ensures Oldest(ws, k) == i
  {}

  class Conn {
    var waiters: seq<Waiter>
    var err: Option<string>
    var closing: bool

    ghost function View(): Table reads this { Table(waiters, err, closing) }

    constructor ()
      ensures View() == Table([], None, false)
    {
      waiters, err, closing := [], None, false;
    }

    method Register(w: Waiter) returns (e: Option<string>)
      modifies this
      ensures e == if old(closing) then Some(LastErr(old(View()))) else None
      ensures View() == if old(closing) then old(View()) else old(View()).(waiters := old(waiters) + [w])
    {
      if closing {
        if err.Some? { return Some(err.value); }
        return Some(GONE);
      }
      waiters := waiters + [w];
      e := None;
    }

    method Unregister(w: Waiter)
      modifies this
      ensures View() == old(View()).(waiters := Dropped(old(waiters), w))
    {
      for i := 0 to |waiters|
        invariant waiters == old(waiters) && err == old(err) && closing == old(closing)
        invariant forall j :: 0 <= j < i ==> waiters[j] != w
      {
        if waiters[i] == w {
          assert PlaceOf(waiters, w) == i;
          waiters := waiters[..i] + waiters[i + 1..];
          return;
        }
      }
    }

    /** Takes the oldest waiter that asked for the key out of the table. */
    method Deliver(k: Key) returns (w: Option<Waiter>)
      modifies this
      ensures w == Matched(old(waiters), k)
      ensures View() == old(View()).(waiters := AfterMatch(old(waiters), k))
    {
      for i := 0 to |waiters|
        invariant waiters == old(waiters) && err == old(err) && closing == old(closing)
        invariant forall j :: 0 <= j < i ==> !Wants(waiters[j], k)
      {
        var cand := waiters[i];
        if Wants(cand, k) {
          OldestIs(waiters, k, i);
          waiters := waiters[..i] + waiters[i + 1..];
          return Some(cand);
        }
      }
      OldestIs(waiters, k, |waiters|);
      w := None;
    }

    /** The first error is the cause; later ones are consequences. */
    method Fail(e: Option<string>) returns (first: bool)
      modifies this
      ensures View() == Failed(old(View()), e) && first == !old(closing)
    {
      if err.None? { err := e; }
      first := !closing;
      closing := true;
    }

    method WakeWaiters()
      modifies this
      ensures View() == old(View()).(waiters := [])
    {
      waiters := [];
    }
  }

  // ---- the protocol ----

  // A decoded frame and its place in the input.
  datatype Arrival = Arrival(up: Update, frame: nat)

  // How a call ends.
  datatype Outcome = Answer(a: Arrival) | Rejected(a: Arrival) | Error(text: string) | TimedOut | Canceled

  // The call that holds the command mutex, and how far it has got.
  datatype Call =
    | NoCall
    | Entered(w: Waiter)
    | Registered(w: Waiter)
    | Waiting(w: Waiter)
    | Ending(w: Waiter, result: Outcome)

  // The reader: between frames, with an update to deliver, handing one over, or on its way out.
  datatype Reader =
    | Reading
    | Delivering(a: Arrival)
    | Handing(id: nat, a: Arrival)
    | Stopping
    | Stopped

  // Where the reader stood when a waiter registered: how many frames it had read, and with what.
  datatype Mark = Mark(position: nat, at: Reader)

  // chans holds what each channel has in it; handed every update given to a waiter, in order;
  // since how many there were, and marks where the reader stood, when each waiter registered.
  datatype World = World(
    t: Table, call: Call, reader: Reader, position: nat, nextId: nat,
    chans: map<nat, Option<Arrival>>, handed: seq<(nat, Arrival)>, since: map<nat, nat>, marks: map<nat, Mark>,
    keys: map<nat, seq<Key>>, applied: seq<Update>, results: map<nat, Outcome>, lost: nat)

  datatype Step =
    | Begin(keys: seq<Key>)
    | GiveUp
    | Register
    | Write(ok: bool)
    | Take
    | TimeOut
    | Cancel
    | ReaderGone
    | Unregister
    | Read
    | Deliver
    | Hand
    | EndOfInput(err: string)
    | Wake
    | Fail(err: string)

  predicate Enabled(w: World, st: Step, input: seq<Frame>) {
    match st
    case Begin(keys) => w.call.NoCall? && keys != []
    case GiveUp => w.call.Entered?
    case Register => w.call.Entered?
    case Write(_) => w.call.Registered?
    case Take => w.call.Waiting? && w.call.w.id in w.chans && w.chans[w.call.w.id].Some?
    case TimeOut => w.call.Waiting?
    case Cancel => w.call.Waiting?
    case ReaderGone => w.call.Waiting? && w.reader.Stopped?
    case Unregister => w.call.Ending?
    case Read => w.reader.Reading? && w.position < |input|
    case Deliver => w.reader.Delivering?
    case Hand => w.reader.Handing?
    case EndOfInput(_) => w.reader.Reading?
    case Wake => w.reader.Stopping?
    case Fail(_) => true
  }

  function Checked(a: Arrival): Outcome { if a.up.ok then Answer(a) else Rejected(a) }

  function InChan(w: World, id: nat): Option<Arrival> { if id in w.chans then w.chans[id] else None }

  function DoRegister(w: World): World
    requires w.call.Entered?
  {
    if w.t.closing then w.(call := NoCall, results := w.results[w.call.w.id := Error(LastErr(w.t))])
    else w.(t := w.t.(waiters := w.t.waiters + [w.call.w]), call := Registered(w.call.w),
            chans := w.chans[w.call.w.id := None], since := w.since[w.call.w.id := |w.handed|],
            marks := w.marks[w.call.w.id := Mark(w.position, w.reader)])
  }

  /** The reader applies every update before it looks for a waiter. */
  function DoRead(w: World, f: Frame): World {
    match f
    case Garbled => w.(position := w.position + 1)
    case Good(up) =>
      w.(position := w.position + 1, applied := w.applied + [up],
         reader := if up.key.Unsolicited? then Reading else Delivering(Arrival(up, w.position)))
  }

  function DoDeliver(w: World): World
    requires w.reader.Delivering?
  {
    var m := Matched(w.t.waiters, w.reader.a.up.key);
    w.(t := w.t.(waiters := AfterMatch(w.t.waiters, w.reader.a.up.key)),
       reader := if m.Some? then Handing(m.value.id, w.reader.a) else Reading,
       handed := if m.Some? then w.handed + [(m.value.id, w.reader.a)] else w.handed)
  }

  function Next(w: World, st: Step, input: seq<Frame>): World
    requires Enabled(w, st, input)
  {
    match st
    case Begin(keys) =>
      w.(call := Entered(Waiter(w.nextId, keys)), nextId := w.nextId + 1, keys := w.keys[w.nextId := keys])
    case GiveUp => w.(call := NoCall, results := w.results[w.call.w.id := Canceled])
    case Register => DoRegister(w)
    case Write(ok) =>
      w.(call := if w.t.closing then Ending(w.call.w, Error(LastErr(w.t)))
                 else if ok then Waiting(w.call.w) else Ending(w.call.w, Error("write")))
    case Take => w.(call := Ending(w.call.w, Checked(w.chans[w.call.w.id].value)), chans := w.chans[w.call.w.id := None])
    case TimeOut => w.(call := Ending(w.call.w, TimedOut))
    case Cancel => w.(call := Ending(w.call.w, Canceled))
    case ReaderGone =>
      if InChan(w, w.call.w.id).Some?
      then w.(call := Ending(w.call.w, Checked(InChan(w, w.call.w.id).value)), chans := w.chans[w.call.w.id := None])
      else w.(call := Ending(w.call.w, Error(LastErr(w.t))))
    case Unregister =>
      w.(t := w.t.(waiters := Dropped(w.t.waiters, w.call.w)), call := NoCall,
         results := w.results[w.call.w.id := w.call.result])
    case Read => DoRead(w, input[w.position])
    case Deliver => DoDeliver(w)
    case Hand =>
      if InChan(w, w.reader.id).None? then w.(chans := w.chans[w.reader.id := Some(w.reader.a)], reader := Reading)
      else w.(lost := w.lost + 1, reader := Reading)
    case EndOfInput(err) => w.(t := Failed(w.t, Some(err)), reader := Stopping)
    case Wake => w.(t := w.t.(waiters := []), reader := Stopped)
    case Fail(err) => w.(t := Failed(w.t, Some(err)))
  }

  // ---- what every step keeps ----

  predicate HoldsSlot(call: Call) { call.Registered? || call.Waiting? || call.Ending? }

  predicate InProgress(call: Call) { !call.NoCall? }

  /** At most one waiter, that of the call that holds the mutex, and nothing in its channel or on
      the way there: so a delivery never finds a channel full. */
  predicate OneWaiter(w: World) {
    && |w.t.waiters| <= 1
    && (w.t.waiters != [] ==>
         && HoldsSlot(w.call) && w.t.waiters[0] == w.call.w
         && InChan(w, w.call.w.id).None?
         && !(w.reader.Handing? && w.reader.id == w.call.w.id))
    && (w.reader.Handing? ==> InChan(w, w.reader.id).None? && w.reader.id < w.nextId)
    && w.lost == 0
  }

  // Update a was handed to waiter id after it registered, and is one it asked for.
  predicate Earned(w: World, id: nat, a: Arrival) {
    && id in w.since && id in w.keys && a.up.key in w.keys[id]
    && exists i :: w.since[id] <= i < |w.handed| && w.handed[i] == (id, a)
  }

  predicate Numbered(w: World) {
    && (forall id :: id in w.keys ==> id < w.nextId)
    && (forall id :: id in w.since ==> id < w.nextId)
    && (InProgress(w.call) ==> w.call.w.id < w.nextId && w.call.w.id in w.keys && w.keys[w.call.w.id] == w.call.w.keys)
    && (w.call.Entered? ==> w.call.w.id !in w.since)
    && (HoldsSlot(w.call) ==> w.call.w.id in w.since && w.since[w.call.w.id] <= |w.handed|)
  }

  predicate Answered(w: World, id: nat, r: Outcome) {
    && (r.Answer? ==> r.a.up.ok && Earned(w, id, r.a))
    && (r.Rejected? ==> !r.a.up.ok && Earned(w, id, r.a))
  }

  predicate Credited(w: World) {
    && (w.reader.Handing? ==> Earned(w, w.reader.id, w.reader.a))
    && (forall id :: id in w.chans && w.chans[id].Some? ==> Earned(w, id, w.chans[id].value))
    && (w.call.Ending? ==> Answered(w, w.call.w.id, w.call.result))
    && (forall id :: id in w.results ==> Answered(w, id, w.results[id]))
  }

  /** The updates among the first n frames, in order. */
  function Decoded(input: seq<Frame>, n: nat): seq<Update>
    requires n <= |input|
  {
    if n == 0 then [] else
      Decoded(input, n - 1) + (match input[n - 1] case Good(up) => [up] case Garbled => [])
  }

  predicate Folded(w: World, input: seq<Frame>) {
    w.position <= |input| && w.applied == Decoded(input, w.position)
  }

  predicate Safe(w: World, input: seq<Frame>) { OneWaiter(w) && Numbered(w) && Credited(w) && Folded(w, input) }

  lemma EarnedFrame(w: World, m: World)
    requires w.handed <= m.handed && m.since == w.since && m.keys == w.keys
    ensures forall id, up :: Earned(w, id, up) ==> Earned(m, id, up)
  {
    forall id, up | Earned(w, id, up) ensures Earned(m, id, up) {
      var i :| w.since[id] <= i < |w.handed| && w.handed[i] == (id, up);
      assert m.handed[i] == (id, up);
    }
  }

  lemma BeginSafe(w: World, keys: seq<Key>, input: seq<Frame>)
    requires Safe(w, input) && Enabled(w, Begin(keys), input)
    ensures Safe(Next(w, Begin(keys), input), input)
  {
    var m := Next(w, Begin(keys), input);
    forall id, up | Earned(w, id, up) ensures Earned(m, id, up) {
      var i :| w.since[id] <= i < |w.handed| && w.handed[i] == (id, up);
      assert m.handed[i] == (id, up);
    }
    hide Earned;
  }

  lemma RegisterSafe(w: World, input: seq<Frame>)
    requires Safe(w, input) && w.call.Entered?
    ensures Safe(DoRegister(w), input)
  {
    var m := DoRegister(w);
    RegisterEarned(w);
    hide Earned;
    assert OneWaiter(m) && Numbered(m);
    hide OneWaiter, Numbered;
  }

  lemma RegisterEarned(w: World)
    requires Numbered(w) && w.call.Entered?
    ensures forall id, a :: Earned(w, id, a) ==> Earned(DoRegister(w), id, a)
  {
    var m := DoRegister(w);
    forall id, a | Earned(w, id, a) ensures Earned(m, id, a) {
      var i :| w.since[id] <= i < |w.handed| && w.handed[i] == (id, a);
      assert m.handed[i] == (id, a);
    }
  }

  lemma DeliverSafe(w: World, input: seq<Frame>)
    requires Safe(w, input) && w.reader.Delivering?
    ensures Safe(DoDeliver(w), input)
  {
    DeliverTable(w);
    DeliverCredited(w);
    hide OneWaiter, Numbered, Credited;
  }

  lemma DeliverTable(w: World)
    requires OneWaiter(w) && Numbered(w) && w.reader.Delivering?
    ensures OneWaiter(DoDeliver(w)) && Numbered(DoDeliver(w))
  {}

  lemma DeliverCredited(w: World)
    requires OneWaiter(w) && Numbered(w) && Credited(w) && w.reader.Delivering?
    ensures Credited(DoDeliver(w))
  {
    EarnedFrame(w, DoDeliver(w));
    DeliverEarned(w);
    hide Earned, OneWaiter, Numbered, Matched, AfterMatch;
  }

  lemma DeliverEarned(w: World)
    requires OneWaiter(w) && Numbered(w) && w.reader.Delivering?
    ensures var m := DoDeliver(w); m.reader.Handing? ==> Earned(m, m.reader.id, m.reader.a)
  {
    var m := DoDeliver(w);
    if m.reader.Handing? { assert m.handed[|w.handed|] == (m.reader.id, w.reader.a); }
  }

  lemma ReadSafe(w: World, input: seq<Frame>)
    requires Safe(w, input) && w.reader.Reading? && w.position < |input|
    ensures Safe(DoRead(w, input[w.position]), input)
  {
    hide OneWaiter, Numbered, Credited, Folded, DoRead;
    ReadTable(w, input[w.position]);
    ReadCredited(w, input[w.position]);
    ReadFolded(w, input);
  }

  lemma ReadTable(w: World, f: Frame)
    requires OneWaiter(w) && Numbered(w) && w.reader.Reading?
    ensures OneWaiter(DoRead(w, f)) && Numbered(DoRead(w, f))
  {}

  lemma ReadCredited(w: World, f: Frame)
    requires Credited(w) && w.reader.Reading?
    ensures Credited(DoRead(w, f))
  {
    EarnedFrame(w, DoRead(w, f));
    hide Earned;
  }

  lemma ReadFolded(w: World, input: seq<Frame>)
    requires Folded(w, input) && w.position < |input|
    ensures Folded(DoRead(w, input[w.position]), input)
  {
    assert w.applied + [] == w.applied;
  }

  lemma UnregisterSafe(w: World, input: seq<Frame>)
    requires Safe(w, input) && Enabled(w, Unregister, input)
    ensures Safe(Next(w, Unregister, input), input)
  {
    EarnedFrame(w, Next(w, Unregister, input));
    hide Earned;
  }

  lemma TakeSafe(w: World, st: Step, input: seq<Frame>)
    requires Safe(w, input) && Enabled(w, st, input) && (st.Take? || st.ReaderGone?)
    ensures Safe(Next(w, st, input), input)
  {
    EarnedFrame(w, Next(w, st, input));
    hide Earned;
  }

  lemma QuietSafe(w: World, st: Step, input: seq<Frame>)
    requires Safe(w, input) && Enabled(w, st, input)
    requires st.Hand? || st.EndOfInput? || st.Wake? || st.Fail?
    ensures Safe(Next(w, st, input), input)
  {
    EarnedFrame(w, Next(w, st, input));
    hide Earned;
  }

  lemma CallSafe(w: World, st: Step, input: seq<Frame>)
    requires Safe(w, input) && Enabled(w, st, input) && (st.GiveUp? || st.Write? || st.TimeOut? || st.Cancel?)
    ensures Safe(Next(w, st, input), input)
  {
    EarnedFrame(w, Next(w, st, input));
    hide Earned;
  }

  lemma StepSafe(w: World, st: Step, input: seq<Frame>)
    requires Safe(w, input) && Enabled(w, st, input)
    ensures Safe(Next(w, st, input), input)
  {
    hide Safe, DoRegister, DoDeliver, DoRead;
    match st
    case Begin(keys) => BeginSafe(w, keys, input);
    case Register => RegisterSafe(w, input);
    case Deliver => DeliverSafe(w, input);
    case Read => ReadSafe(w, input);
    case Unregister => UnregisterSafe(w, input);
    case Take => TakeSafe(w, st, input);
    case ReaderGone => TakeSafe(w, st, input);
    case Hand => QuietSafe(w, st, input);
    case EndOfInput(_) => QuietSafe(w, st, input);
    case Wake => QuietSafe(w, st, input);
    case Fail(_) => QuietSafe(w, st, input);
    case _ => CallSafe(w, st, input);
  }

  // ---- whole runs ----

  predicate AllEnabled(w: World, steps: seq<Step>, input: seq<Frame>)
    decreases |steps|
  {
    steps == [] || (Enabled(w, steps[0], input) && AllEnabled(Next(w, steps[0], input), steps[1..], input))
  }

  function End(w: World, steps: seq<Step>, input: seq<Frame>): World
    requires AllEnabled(w, steps, input)
    decreases |steps|
  {
    if steps == [] then w else End(Next(w, steps[0], input), steps[1..], input)
  }

  function Start(): World {
    World(Table([], None, false), NoCall, Reading, 0, 0, map[], [], map[], map[], map[], [], map[], 0)
  }

  lemma {:induction false} RunSafe(w: World, steps: seq<Step>, input: seq<Frame>)
    requires Safe(w, input) && AllEnabled(w, steps, input)
    ensures Safe(End(w, steps, input), input)
    decreases |steps|
  {
    hide Safe, Next, Enabled;
    if steps != [] {
      StepSafe(w, steps[0], input);
      RunSafe(Next(w, steps[0], input), steps[1..], input);
    }
  }

  /** Under every interleaving: one request is pending at a time; a delivery never blocks and
      never drops; a call answers, or is rejected, only with an update it asked for that was
      handed to it after it registered; and every frame that decodes is applied once, in the
      order of arrival, whether anyone waited for it or not. */
  lemma RepliesMatch(steps: seq<Step>, input: seq<Frame>)
    requires AllEnabled(Start(), steps, input)
    ensures var w := End(Start(), steps, input);
      && |w.t.waiters| <= 1 && w.lost == 0
      && (w.reader.Handing? ==> InChan(w, w.reader.id).None?)
      && (forall id :: id in w.results && w.results[id].Answer? ==> w.results[id].a.up.ok && Earned(w, id, w.results[id].a))
      && (forall id :: id in w.results && w.results[id].Rejected? ==> !w.results[id].a.up.ok && Earned(w, id, w.results[id].a))
      && w.position <= |input| && w.applied == Decoded(input, w.position)
  {
    hide AllEnabled, End, Earned;
    RunSafe(Start(), steps, input);
  }

  // ---- when an answer is older than its request ----

  /** The reader stood with an update the waiter wanted when the waiter registered. */
  predicate Standing(w: World, id: nat) {
    id in w.marks && id in w.keys && w.marks[id].at.Delivering? && w.marks[id].at.a.up.key in w.keys[id]
  }

  predicate FromInput(a: Arrival, n: nat, input: seq<Frame>) {
    a.frame < n <= |input| && input[a.frame] == Good(a.up)
  }

  /** What reaches a waiter: the update the reader stood with, if it wanted that, and otherwise
      one read since it registered. */
  predicate Timely(w: World, id: nat, a: Arrival, input: seq<Frame>) {
    && id in w.marks && FromInput(a, w.position, input)
    && if Standing(w, id) then a == w.marks[id].at.a else w.marks[id].position <= a.frame
  }

  predicate TimelyResult(w: World, id: nat, r: Outcome, input: seq<Frame>) {
    r.Answer? || r.Rejected? ==> Timely(w, id, r.a, input)
  }

  // What the reader is carrying, seen from the pending waiter.
  predicate NextIsTimely(w: World) {
    w.t.waiters != [] ==>
      var id := w.t.waiters[0].id;
      && id in w.marks
      && if Standing(w, id) then w.reader == Delivering(w.marks[id].at.a)
         else w.reader.Delivering? && Wants(w.t.waiters[0], w.reader.a.up.key) ==> w.marks[id].position <= w.reader.a.frame
  }

  predicate Marked(w: World, input: seq<Frame>) {
    && (forall id :: id in w.marks ==> id < w.nextId && w.marks[id].position <= w.position)
    && (forall id :: id in w.marks && w.marks[id].at.Delivering? ==> FromInput(w.marks[id].at.a, w.marks[id].position, input))
    && (w.reader.Delivering? || w.reader.Handing? ==> FromInput(w.reader.a, w.position, input))
  }

  predicate Timed(w: World, input: seq<Frame>) { Marked(w, input) && NextIsTimely(w) && AllTimely(w, input) }

  predicate AllTimely(w: World, input: seq<Frame>) {
    && (w.reader.Handing? ==> Timely(w, w.reader.id, w.reader.a, input))
    && (forall id :: id in w.chans && w.chans[id].Some? ==> Timely(w, id, w.chans[id].value, input))
    && (w.call.Ending? ==> TimelyResult(w, w.call.w.id, w.call.result, input))
    && (forall id :: id in w.results ==> TimelyResult(w, id, w.results[id], input))
  }

  lemma TimelyFrame(w: World, m: World, input: seq<Frame>)
    requires m.marks == w.marks && m.keys == w.keys && w.position <= m.position <= |input|
    ensures forall id :: Standing(m, id) <==> Standing(w, id)
    ensures forall id, a :: Timely(w, id, a, input) ==> Timely(m, id, a, input)
  {}

  lemma BeginTimed(w: World, keys: seq<Key>, input: seq<Frame>)
    requires Safe(w, input) && Timed(w, input) && Enabled(w, Begin(keys), input)
    ensures Timed(Next(w, Begin(keys), input), input)
  {
    var m := Next(w, Begin(keys), input);
    forall id: nat, a: Arrival | Timely(w, id, a, input) ensures Timely(m, id, a, input) {
      assert id < w.nextId;
    }
    hide Timely, Credited, Folded;
  }

  lemma RegisterTimed(w: World, input: seq<Frame>)
    requires Safe(w, input) && Timed(w, input) && w.call.Entered? && w.call.w.id !in w.marks
    ensures Timed(DoRegister(w), input)
  {
    var m := DoRegister(w);
    forall id: nat, a: Arrival | Timely(w, id, a, input) ensures Timely(m, id, a, input) {
      assert id != w.call.w.id;
    }
    hide Timely, Credited, Folded;
  }

  lemma ReadTimed(w: World, input: seq<Frame>)
    requires OneWaiter(w) && Timed(w, input) && w.reader.Reading? && w.position < |input|
    ensures Timed(DoRead(w, input[w.position]), input)
  {
    hide Marked, NextIsTimely, AllTimely, OneWaiter, DoRead;
    ReadMarked(w, input);
    ReadNext(w, input);
    ReadAll(w, input);
  }

  lemma ReadAll(w: World, input: seq<Frame>)
    requires AllTimely(w, input) && w.reader.Reading? && w.position < |input|
    ensures AllTimely(DoRead(w, input[w.position]), input)
  {
    TimelyFrame(w, DoRead(w, input[w.position]), input);
    hide Timely;
  }

  lemma ReadMarked(w: World, input: seq<Frame>)
    requires Marked(w, input) && w.reader.Reading? && w.position < |input|
    ensures Marked(DoRead(w, input[w.position]), input)
  {}

  // Whatever is read now was read after the pending waiter registered.
  lemma ReadNext(w: World, input: seq<Frame>)
    requires Marked(w, input) && NextIsTimely(w) && w.reader.Reading? && w.position < |input|
    ensures NextIsTimely(DoRead(w, input[w.position]))
  {
    hide FromInput;
  }

  lemma DeliverTimed(w: World, input: seq<Frame>)
    requires OneWaiter(w) && Numbered(w) && Timed(w, input) && w.reader.Delivering?
    ensures Timed(DoDeliver(w), input)
  {
    TimelyFrame(w, DoDeliver(w), input);
    HandedTimely(w, input);
    hide Timely, FromInput;
  }

  lemma HandedTimely(w: World, input: seq<Frame>)
    requires OneWaiter(w) && Numbered(w) && Marked(w, input) && NextIsTimely(w) && w.reader.Delivering? && w.position <= |input|
    ensures var m := DoDeliver(w);
      && (m.reader.Handing? ==> Timely(m, m.reader.id, m.reader.a, input))
      && NextIsTimely(m)
  {
    if w.t.waiters != [] {
      assert Standing(w, w.t.waiters[0].id) ==> Wants(w.t.waiters[0], w.reader.a.up.key);
    }
  }

  lemma HandTimed(w: World, st: Step, input: seq<Frame>)
    requires Safe(w, input) && Timed(w, input) && Enabled(w, st, input)
    requires st.Hand? || st.Unregister?
    ensures Timed(Next(w, st, input), input)
  {
    TimelyFrame(w, Next(w, st, input), input);
    hide Credited, Folded, Timely, FromInput;
  }

  lemma EndTimed(w: World, st: Step, input: seq<Frame>)
    requires Safe(w, input) && Timed(w, input) && Enabled(w, st, input)
    requires st.EndOfInput? || st.Wake? || st.Fail?
    ensures Timed(Next(w, st, input), input)
  {
    TimelyFrame(w, Next(w, st, input), input);
    hide Credited, Folded, Timely, FromInput;
  }

  lemma AnswerTimed(w: World, st: Step, input: seq<Frame>)
    requires Safe(w, input) && Timed(w, input) && Enabled(w, st, input)
    requires st.Take? || st.ReaderGone?
    ensures Timed(Next(w, st, input), input)
  {
    TimelyFrame(w, Next(w, st, input), input);
    hide Credited, Folded, Timely, FromInput;
  }

  lemma CallTimed(w: World, st: Step, input: seq<Frame>)
    requires Safe(w, input) && Timed(w, input) && Enabled(w, st, input)
    requires st.GiveUp? || st.Write? || st.TimeOut? || st.Cancel?
    ensures Timed(Next(w, st, input), input)
  {
    TimelyFrame(w, Next(w, st, input), input);
    hide Credited, Folded, Timely, FromInput;
  }

  // A waiter's number is marked once.
  predicate MarkedOnce(w: World) { w.marks.Keys == w.since.Keys }

  lemma StepTimed(w: World, st: Step, input: seq<Frame>)
    requires Safe(w, input) && Timed(w, input) && MarkedOnce(w) && Enabled(w, st, input)
    ensures Timed(Next(w, st, input), input) && MarkedOnce(Next(w, st, input))
  {
    hide Timed, OneWaiter, Credited, Folded;
    match st
    case Begin(keys) => BeginTimed(w, keys, input);
    case Register => RegisterTimed(w, input);
    case Read => ReadTimed(w, input);
    case Deliver => DeliverTimed(w, input);
    case Hand => HandTimed(w, st, input);
    case Unregister => HandTimed(w, st, input);
    case EndOfInput(_) => EndTimed(w, st, input);
    case Wake => EndTimed(w, st, input);
    case Fail(_) => EndTimed(w, st, input);
    case Take => AnswerTimed(w, st, input);
    case ReaderGone => AnswerTimed(w, st, input);
    case _ => CallTimed(w, st, input);
  }

  lemma {:induction false} RunTimed(w: World, steps: seq<Step>, input: seq<Frame>)
    requires Safe(w, input) && Timed(w, input) && MarkedOnce(w) && AllEnabled(w, steps, input)
    ensures Timed(End(w, steps, input), input)
    decreases |steps|
  {
    hide Safe, Timed, MarkedOnce, Next, Enabled;
    if steps != [] {
      StepSafe(w, steps[0], input);
      StepTimed(w, steps[0], input);
      RunTimed(Next(w, steps[0], input), steps[1..], input);
    }
  }

  /** Over every run, an answer is a frame read before its request registered if and only if the
      reader stood, at that moment, with an update the request wanted; and then it is that update.
      Every other answer was read after the request registered. */
  lemma AnswersAreTimely(steps: seq<Step>, input: seq<Frame>, id: nat)
    requires AllEnabled(Start(), steps, input)
    requires var w := End(Start(), steps, input); id in w.results && (w.results[id].Answer? || w.results[id].Rejected?)
    ensures var w := End(Start(), steps, input);
      var a := w.results[id].a;
      && id in w.marks && FromInput(a, |input|, input)
      && (a.frame < w.marks[id].position <==> Standing(w, id))
      && (Standing(w, id) ==> a == w.marks[id].at.a)
  {
    hide AllEnabled, End;
    RunTimed(Start(), steps, input);
  }

  /** Handed over after the waiter registered does not mean sent after the request was: a frame
      the reader has already decoded when a call registers still answers it. */
  lemma StaleReply(k: string, patch: int)
    ensures var up := Update(Key(k), true, patch);
      var steps := [Read, Begin([Key(k)]), Register, Deliver, Hand, Write(true), Take];
      && AllEnabled(Start(), steps, [Good(up)])
      && End(Start(), steps, [Good(up)]).call == Ending(Waiter(0, [Key(k)]), Answer(Arrival(up, 0)))
  {
    hide Matched, AfterMatch;
    var up, input := Update(Key(k), true, patch), [Good(Update(Key(k), true, patch))];
    var wt := Waiter(0, [Key(k)]);
    var w0 := Start();
    var w1 := Next(w0, Read, input);
    var w2 := Next(w1, Begin([Key(k)]), input);
    var w3 := Next(w2, Register, input);
    assert w3.t.waiters == [wt];
    MatchOnly(wt, Key(k));
    var w4 := Next(w3, Deliver, input);
    assert w4.t.waiters == [] && w4.reader == Handing(0, Arrival(up, 0));
    var w5 := Next(w4, Hand, input);
    var w6 := Next(w5, Write(true), input);
    var w7 := Next(w6, Take, input);
    assert w7.call == Ending(wt, Answer(Arrival(up, 0)));
    var steps := [Read, Begin([Key(k)]), Register, Deliver, Hand, Write(true), Take];
    hide Next, Enabled;
    Unroll(w6, w7, [Take], input);
    Unroll(w5, w6, [Write(true), Take], input);
    Unroll(w4, w5, [Hand, Write(true), Take], input);
    Unroll(w3, w4, [Deliver, Hand, Write(true), Take], input);
    Unroll(w2, w3, [Register, Deliver, Hand, Write(true), Take], input);
    Unroll(w1, w2, [Begin([Key(k)]), Register, Deliver, Hand, Write(true), Take], input);
    Unroll(w0, w1, steps, input);
  }

  lemma MatchOnly(w: Waiter, k: Key)
    requires Wants(w, k)
    ensures Matched([w], k) == Some(w) && AfterMatch([w], k) == []
  {}

  lemma Unroll(w: World, m: World, steps: seq<Step>, input: seq<Frame>)
    requires steps != [] && Enabled(w, steps[0], input) && m == Next(w, steps[0], input) && AllEnabled(m, steps[1..], input)
    ensures AllEnabled(w, steps, input) && End(w, steps, input) == End(m, steps[1..], input)
  {}

  // ---- the first error is the cause ----

  /** The error of the first step that fails the connection, if one does. */
  function Cause(steps: seq<Step>): Option<string> {
    if steps == [] then None
    else match steps[0]
         case EndOfInput(err) => Some(err)
         case Fail(err) => Some(err)
         case _ => Cause(steps[1..])
  }

  // What is known once cause is the first error there was.
  predicate Blames(w: World, cause: Option<string>) {
    && w.t.err == cause && (w.t.closing <==> cause.Some?)
    && (w.reader.Stopping? || w.reader.Stopped? ==> cause.Some?)
    && (w.call.Ending? && w.call.result.Error? ==> w.call.result.text == "write" || cause == Some(w.call.result.text))
    && (forall id :: id in w.results && w.results[id].Error? ==> w.results[id].text == "write" || cause == Some(w.results[id].text))
  }

  // The cause after one more step.
  function Sooner(cause: Option<string>, st: Step): Option<string> {
    if cause.Some? then cause else Cause([st])
  }

  lemma StepBlames(w: World, st: Step, input: seq<Frame>, cause: Option<string>)
    requires Blames(w, cause) && Enabled(w, st, input)
    ensures Blames(Next(w, st, input), Sooner(cause, st))
  {
    CauseOne(st);
    hide Cause;
    if st.Begin? || st.GiveUp? || st.Register? || st.Write? || st.Take? || st.TimeOut? || st.Cancel? || st.ReaderGone? || st.Unregister? {
      CallBlames(w, st, input, cause);
    } else {
      ReaderBlames(w, st, input, cause);
    }
    hide Blames, Next;
  }

  lemma CauseOne(st: Step)
    ensures Cause([st]) == match st case EndOfInput(err) => Some(err) case Fail(err) => Some(err) case _ => None
  {
    assert [st][1..] == [];
  }

  lemma CallBlames(w: World, st: Step, input: seq<Frame>, cause: Option<string>)
    requires Blames(w, cause) && Enabled(w, st, input)
    requires st.Begin? || st.GiveUp? || st.Register? || st.Write? || st.Take? || st.TimeOut? || st.Cancel? || st.ReaderGone? || st.Unregister?
    ensures Blames(Next(w, st, input), cause)
  {
    hide Dropped;
  }

  lemma ReaderBlames(w: World, st: Step, input: seq<Frame>, cause: Option<string>)
    requires Blames(w, cause) && Enabled(w, st, input)
    requires st.Read? || st.Deliver? || st.Hand? || st.EndOfInput? || st.Wake? || st.Fail?
    ensures Blames(Next(w, st, input), if cause.Some? then cause else match st case EndOfInput(err) => Some(err) case Fail(err) => Some(err) case _ => None)
  {
    hide Matched, AfterMatch;
  }

  lemma CauseFirst(steps: seq<Step>)
    requires steps != []
    ensures Cause(steps) == if Cause([steps[0]]).Some? then Cause([steps[0]]) else Cause(steps[1..])
  {
    assert [steps[0]][1..] == [];
  }

  lemma {:induction false} RunBlames(w: World, steps: seq<Step>, input: seq<Frame>, cause: Option<string>)
    requires Blames(w, cause) && AllEnabled(w, steps, input)
    ensures Blames(End(w, steps, input), if cause.Some? then cause else Cause(steps))
    decreases |steps|
  {
    hide Blames, Next, Enabled;
    if steps != [] {
      StepBlames(w, steps[0], input, cause);
      CauseFirst(steps);
      RunBlames(Next(w, steps[0], input), steps[1..], input, Sooner(cause, steps[0]));
    }
  }

  /** Over every run, the connection's error is that of the first step that failed it, whatever
      fails after it; it is closing from then on; and every call that is told why is told that, or
      that its own write failed. */
  lemma FirstErrorWins(steps: seq<Step>, input: seq<Frame>)
    requires AllEnabled(Start(), steps, input)
    ensures var w := End(Start(), steps, input);
      && w.t.err == Cause(steps) && (w.t.closing <==> Cause(steps).Some?)
      && forall id :: id in w.results && w.results[id].Error? ==> w.results[id].text == "write" || Cause(steps) == Some(w.results[id].text)
  {
    hide AllEnabled, End;
    RunBlames(Start(), steps, input, None);
  }

  // ---- how a call ends ----

  /** A waiting call ends as soon as there is a reply, its time is up, it is called off, or the
      reader is gone; and it is told what there was: the reply it was handed, accepted or rejected
      as the radio said, even where it came just before the reader stopped; else why it ended. */
  lemma CallsEnd(w: World, st: Step, input: seq<Frame>)
    requires Enabled(w, st, input) && w.call.Waiting? && (st.Take? || st.ReaderGone? || st.TimeOut? || st.Cancel?)
    ensures var m := Next(w, st, input); var got := InChan(w, w.call.w.id);
      && m.call == Ending(w.call.w,
           if st.TimeOut? then TimedOut
           else if st.Cancel? then Canceled
           else if got.None? then Error(LastErr(w.t))
           else if got.value.up.ok then Answer(got.value)
           else Rejected(got.value))
      && m.t == w.t && m.reader == w.reader && m.results == w.results
  {}

  /** A call that has ended leaves no waiter behind, and lets the next one in. */
  lemma CallLeaves(w: World, input: seq<Frame>)
    requires Safe(w, input) && w.call.Ending?
    ensures Enabled(w, Unregister, input)
    ensures var m := Next(w, Unregister, input);
      && m.call.NoCall? && m.t.waiters == [] && m.results == w.results[w.call.w.id := w.call.result]
      && forall keys :: keys != [] ==> Enabled(m, Begin(keys), input)
  {
    hide Numbered, Credited, Folded;
    if w.t.waiters != [] { assert PlaceOf(w.t.waiters, w.call.w) == 0; }
  }

  /** A reader at the end of its input fails the connection, wakes whoever waits and is gone. */
  lemma ReaderLeaves(w: World, err: string, input: seq<Frame>)
    requires w.reader.Reading?
    ensures Enabled(w, EndOfInput(err), input) && Enabled(Next(w, EndOfInput(err), input), Wake, input)
    ensures var m := Next(Next(w, EndOfInput(err), input), Wake, input);
      m.reader.Stopped? && m.t == Table([], if w.t.err.Some? then w.t.err else Some(err), true) && m.call == w.call && m.chans == w.chans
  {}

  const REPLY: seq<Step> := [Read, Deliver, Hand, Take, Unregister]

  /** A reply gets through: where a call waits for the key of the next frame, reading it, looking for
      its waiter and handing it over ends the call with it, and its patch is applied. */
  lemma ReplyReaches(w: World, input: seq<Frame>)
    requires Safe(w, input) && w.call.Waiting? && w.t.waiters == [w.call.w] && w.reader.Reading?
    requires w.position < |input| && input[w.position].Good? && w.call.w.id in w.chans
    requires var up := input[w.position].up; !up.key.Unsolicited? && up.key in w.call.w.keys
    ensures AllEnabled(w, REPLY, input)
    ensures var e := End(w, REPLY, input); var up := input[w.position].up; var a := Arrival(up, w.position);
      && e.call.NoCall? && e.t.waiters == [] && e.applied == w.applied + [up]
      && e.results == w.results[w.call.w.id := if up.ok then Answer(a) else Rejected(a)]
  {
    var up, id := input[w.position].up, w.call.w.id;
    var a := Arrival(up, w.position);
    ReplyArrives(w, input);
    var w3 := w.(t := w.t.(waiters := []), position := w.position + 1, applied := w.applied + [up],
                 handed := w.handed + [(id, a)], chans := w.chans[id := Some(a)]);
    var w4 := Next(w3, Take, input);
    var w5 := Next(w4, Unregister, input);
    assert PlaceOf([], w.call.w) == 0;
    hide Next, Enabled, Safe;
    assert [Take, Unregister][1..] == [Unregister] && [Unregister][1..] == [];
    Unroll(w4, w5, [Unregister], input);
    Unroll(w3, w4, [Take, Unregister], input);
  }

  // The reader's half: the frame is read, its waiter found, and the reply put where it is waited for.
  lemma ReplyArrives(w: World, input: seq<Frame>)
    requires Safe(w, input) && w.call.Waiting? && w.t.waiters == [w.call.w] && w.reader.Reading?
    requires w.position < |input| && input[w.position].Good? && w.call.w.id in w.chans
    requires var up := input[w.position].up; !up.key.Unsolicited? && up.key in w.call.w.keys
    ensures var up := input[w.position].up; var a := Arrival(up, w.position);
      var w3 := w.(t := w.t.(waiters := []), position := w.position + 1, applied := w.applied + [up],
                   handed := w.handed + [(w.call.w.id, a)], chans := w.chans[w.call.w.id := Some(a)]);
      && (AllEnabled(w3, [Take, Unregister], input) ==>
            AllEnabled(w, REPLY, input) && End(w, REPLY, input) == End(w3, [Take, Unregister], input))
  {
    var up, id := input[w.position].up, w.call.w.id;
    assert InChan(w, id).None? by { hide Numbered, Credited, Folded; }
    hide Safe;
    assert Oldest(w.t.waiters, up.key) == 0;
    var w1 := Next(w, Read, input);
    var w2 := Next(w1, Deliver, input);
    var w3 := Next(w2, Hand, input);
    assert w3 == w.(t := w.t.(waiters := []), position := w.position + 1, applied := w.applied + [up],
                    handed := w.handed + [(id, Arrival(up, w.position))], chans := w.chans[id := Some(Arrival(up, w.position))]);
    ReplySteps();
    hide *;
    if AllEnabled(w3, [Take, Unregister], input) {
      Unroll(w2, w3, [Hand, Take, Unregister], input);
      Unroll(w1, w2, REPLY[1..], input);
      Unroll(w, w1, REPLY, input);
    }
  }

  lemma ReplySteps()
    ensures |REPLY| == 5 && REPLY[0] == Read && REPLY[1..] == [Deliver, Hand, Take, Unregister]
    ensures REPLY[1..][1..] == [Hand, Take, Unregister] && [Hand, Take, Unregister][1..] == [Take, Unregister]
  {}

  // ---- nothing is forgotten ----

  /** The frames the reader has taken. */
  function Reads(steps: seq<Step>): nat {
    if steps == [] then 0 else (if steps[0].Read? then 1 else 0) + Reads(steps[1..])
  }

  /** Every call begun has been told how it ended, but the one that is under way. */
  predicate AllTold(w: World) {
    && (forall id: nat :: id < w.nextId ==> id in w.results || (InProgress(w.call) && w.call.w.id == id))
    && (InProgress(w.call) ==> w.call.w.id !in w.results && w.call.w.id < w.nextId)
    && (forall id :: id in w.results ==> id < w.nextId)
  }

  lemma StepTold(w: World, st: Step, input: seq<Frame>)
    requires AllTold(w) && Enabled(w, st, input)
    ensures AllTold(Next(w, st, input)) && Next(w, st, input).position == w.position + Reads([st])
  {
    StepPlace(w, st, input);
    hide Reads, Dropped, LastErr, Checked, InChan;
    if st.Read? || st.Deliver? || st.Hand? || st.EndOfInput? || st.Wake? || st.Fail? {
      ReaderTellsNobody(w, st, input);
      hide Next;
    }
  }

  lemma ReaderTellsNobody(w: World, st: Step, input: seq<Frame>)
    requires Enabled(w, st, input) && (st.Read? || st.Deliver? || st.Hand? || st.EndOfInput? || st.Wake? || st.Fail?)
    ensures var m := Next(w, st, input); m.call == w.call && m.results == w.results && m.nextId == w.nextId
  {
    hide Matched, AfterMatch, Failed, LastErr, Checked, InChan, Dropped;
  }

  lemma StepPlace(w: World, st: Step, input: seq<Frame>)
    requires Enabled(w, st, input)
    ensures Next(w, st, input).position == w.position + Reads([st])
  {
    hide Matched, AfterMatch, Dropped, LastErr, Checked;
    assert [st][1..] == [];
  }

  lemma {:induction false} RunTold(w: World, steps: seq<Step>, input: seq<Frame>)
    requires AllTold(w) && AllEnabled(w, steps, input)
    ensures AllTold(End(w, steps, input)) && End(w, steps, input).position == w.position + Reads(steps)
    decreases |steps|
  {
    if steps != [] {
      assert [steps[0]][1..] == [];
      hide AllTold, Next, Enabled;
      StepTold(w, steps[0], input);
      RunTold(Next(w, steps[0], input), steps[1..], input);
    }
  }

  /** Over every run no call is left without an end but the one under way, each read takes the next
      frame, garbled or not, and a call that cannot register is over at once. */
  lemma NothingForgotten(steps: seq<Step>, input: seq<Frame>)
    requires AllEnabled(Start(), steps, input)
    ensures var w := End(Start(), steps, input);
      && (forall id: nat :: id < w.nextId ==> id in w.results || (InProgress(w.call) && w.call.w.id == id))
      && w.position == Reads(steps)
      && (w.call.Entered? ==> var m := Next(w, Register, input); if w.t.closing then m.call.NoCall? else m.call.Registered?)
  {
    hide AllEnabled, End;
    RunTold(Start(), steps, input);
  }
}

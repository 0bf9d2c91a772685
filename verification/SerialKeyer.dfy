/** The serial keyer's abort protocol (internal/cw/serialkey.go): one goroutine keys, any number
    of callers enqueue, abort and close. A step is one critical section, one branch of a select,
    or one look at the abort channel. */
module SerialKeyer {
  import opened Basics
  import opened Morse
  import Timing
  import KeySchedule

  datatype Line = KeyLine | PttLine

  // What the mutex guards, and the two control lines. Channels are numbered; shut holds those
  // that have been closed, and panicked says one was closed twice.
  datatype Shared = Shared(
    queue: seq<Symbol>, gen: nat, busy: bool, curChars: nat, closed: bool,
    abort: nat, shut: set<nat>, nextChan: nat, panicked: bool,
    key: bool, ptt: bool)

  datatype EnqueueError = Closed | BadChar(rune: char, offset: nat)

  function WithLine(s: Shared, l: Line, on: bool): Shared {
    match l
    case KeyLine => s.(key := on)
    case PttLine => s.(ptt := on)
  }

  /** Both lines down, the PTT line only where there is one. */
  function LinesLow(s: Shared, hasPtt: bool): Shared {
    s.(key := false, ptt := if hasPtt then false else s.ptt)
  }

  function ShutAbort(s: Shared): Shared {
    s.(shut := s.shut + {s.abort}, panicked := s.panicked || s.abort in s.shut)
  }

  function DoAbort(s: Shared, hasPtt: bool): Shared {
    var a := s.(gen := s.gen + 1, queue := [], busy := false, curChars := 0);
    LinesLow(if a.closed then a else Renewed(a), hasPtt)
  }

  /** The abort channel is closed, and a new one takes its place. */
  function Renewed(s: Shared): Shared { ShutAbort(s).(abort := s.nextChan, nextChan := s.nextChan + 1) }

  function DoClose(s: Shared, hasPtt: bool): Shared {
    if s.closed then s
    else LinesLow(ShutAbort(s.(gen := s.gen + 1, queue := [], closed := true)), hasPtt)
  }

  function DoEnqueue(s: Shared, syms: seq<Symbol>, replace: bool): Shared {
    if s.closed then s else s.(queue := (if replace then [] else s.queue) + syms)
  }

  predicate Live(s: Shared, gen: nat) { s.gen == gen && !s.closed }

  /** assert: works says whether the line could be raised. */
  function DoAssert(s: Shared, gen: nat, l: Line, works: bool, hasPtt: bool): Shared {
    if !Live(s, gen) then s else if works then WithLine(s, l, true) else DoAbort(s, hasPtt)
  }

  /** The section at the head of transmit's loop, once it is live. */
  function DoNext(s: Shared): Shared {
    if s.queue == [] then s.(busy := false, curChars := 0)
    else s.(queue := s.queue[1..], busy := true, curChars := |s.queue[0].text|)
  }

  function DoFinish(s: Shared, gen: nat): Shared {
    if s.gen == gen then s.(busy := false, curChars := 0) else s
  }

  /** How many characters symbols stand for. */
  function TextLen(syms: seq<Symbol>): nat {
    if syms == [] then 0 else TextLen(syms[..|syms| - 1]) + |syms[|syms| - 1].text|
  }

  predicate Busied(s: Shared) { s.busy || s.queue != [] }

  function Chars(s: Shared): nat { s.curChars + TextLen(s.queue) }

  class SerialSender {
    var queue: seq<Symbol>
    var gen: nat
    var busy: bool
    var curChars: nat
    var closed: bool
    var abort: nat
    var shut: set<nat>
    var nextChan: nat
    var panicked: bool
    var key: bool
    var ptt: bool
    const hasPtt: bool

    ghost function View(): Shared reads this {
      Shared(queue, gen, busy, curChars, closed, abort, shut, nextChan, panicked, key, ptt)
    }

    /** A line a previous run left up is dropped first. */
    constructor (hasPtt: bool)
      ensures this.hasPtt == hasPtt && View() == Fresh()
    {
      this.hasPtt := hasPtt;
      queue, gen, busy, curChars, closed := [], 0, false, 0, false;
      abort, shut, nextChan, panicked := 0, {}, 1, false;
      key, ptt := false, false;
    }

    method Enqueue(text: string, replace: bool) returns (r: Result<nat, EnqueueError>)
      modifies this
      ensures match ParseFrom(text, 0, false)
        case Ok(syms) =>
          && View() == DoEnqueue(old(View()), syms, replace)
          && r == (if old(closed) then Err(Closed) else Ok(|text|))
        case Err(CharError(c, at)) => View() == old(View()) && r == Err(BadChar(c, at))
        case Err(SyntaxError(at)) => View() == old(View()) && r == Err(BadChar('^', at))
    {
      var p := Parse(text, false);
      match p
      case Err(CharError(c, at)) => return Err(BadChar(c, at));
      case Err(SyntaxError(at)) => return Err(BadChar('^', at));
      case Ok(syms) =>
        if closed { return Err(Closed); }
        if replace { queue := []; }
        queue := queue + syms;
        return Ok(|text|);
    }

    method Abort()
      modifies this
      ensures View() == DoAbort(old(View()), hasPtt)
    {
      hide Renewed, LinesLow;
      gen := gen + 1;
      queue := [];
      busy := false;
      curChars := 0;
      if !closed { RenewAbort(); }
      Drop();
    }

    method RenewAbort()
      modifies this`shut, this`panicked, this`abort, this`nextChan
      ensures View() == Renewed(old(View()))
    {
      CloseAbort();
      abort, nextChan := nextChan, nextChan + 1;
    }

    method Close()
      modifies this
      ensures View() == DoClose(old(View()), hasPtt)
    {
      if closed { return; }
      gen := gen + 1;
      queue := [];
      closed := true;
      CloseAbort();
      Drop();
    }

    /** Raises a line for the transmission that began at generation g. */
    method Assert(g: nat, l: Line, works: bool) returns (ok: bool)
      modifies this
      ensures View() == DoAssert(old(View()), g, l, works, hasPtt)
      ensures ok <==> Live(old(View()), g) && works
    {
      if gen != g || closed { return false; }
      if !works {
        Abort();
        return false;
      }
      Write(l, true);
      ok := true;
    }

    /** The next symbol of the transmission, if it is still the current one. */
    method Next(g: nat) returns (live: bool, sym: Option<Symbol>)
      modifies this
      ensures live == Live(old(View()), g)
      ensures View() == if live then DoNext(old(View())) else old(View())
      ensures sym == if live && old(queue) != [] then Some(old(queue)[0]) else None
    {
      if gen != g || closed { return false, None; }
      if queue == [] {
        busy, curChars := false, 0;
        return true, None;
      }
      sym := Some(queue[0]);
      queue := queue[1..];
      busy := true;
      curChars := |sym.value.text|;
      live := true;
    }

    method Finish(g: nat)
      modifies this
      ensures View() == DoFinish(old(View()), g)
    {
      if gen == g { busy, curChars := false, 0; }
    }

    /** Whether the keyer is at work, and how many characters are still with it. */
    method Status() returns (busy: bool, chars: nat)
      ensures busy == Busied(View()) && chars == Chars(View())
    {
      chars := curChars;
      assert queue[..0] == [];
      for i := 0 to |queue|
        invariant chars == curChars + TextLen(queue[..i])
      {
        assert queue[..i + 1][..i] == queue[..i];
        chars := chars + |queue[i].text|;
      }
      assert queue[..|queue|] == queue;
      busy := this.busy || |queue| > 0;
    }

    method CloseAbort()
      modifies this`shut, this`panicked
      ensures View() == ShutAbort(old(View()))
    {
      panicked := panicked || abort in shut;
      shut := shut + {abort};
    }

    method Drop()
      modifies this`key, this`ptt
      ensures View() == LinesLow(old(View()), hasPtt)
    {
      Write(KeyLine, false);
      if hasPtt { Write(PttLine, false); }
    }

    method Write(l: Line, on: bool)
      modifies this`key, this`ptt
      ensures View() == WithLine(old(View()), l, on)
    {
      match l
      case KeyLine => key := on;
      case PttLine => ptt := on;
    }
  }

  function Fresh(): Shared { Shared([], 0, false, 0, false, 0, {}, 1, false, false, false) }

  // ---- the protocol ----

  // Where the keying goroutine is. left holds the elements of a symbol still to key.
  datatype Pc =
    | Idle | Parked | Done
    | Raise | Loop
    | Edge(left: seq<Element>) | Ready(left: seq<Element>) | Down(left: seq<Element>) | Lift(left: seq<Element>) | DropKey
    | TailCheck | TailWait | DropPtt
    | Cleanup

  // A line going up, the generation of the transmission that raised it, and the element it keys.
  datatype Rise = Rise(line: Line, gen: nat, el: seq<Element>)

  datatype World = World(
    s: Shared, pc: Pc, gen: nat, abort: nat,  // gen and abort as transmit captured them
    wake: bool, signals: nat,                 // a token in the wake channel; calls about to send one
    rises: seq<Rise>, taken: seq<Symbol>)     // the lines that went up, and the symbols taken

  // Which case of a select is taken.
  datatype Pick = Woken | TimedOut | SawAbort

  datatype Step =
    | Enqueue(syms: seq<Symbol>, replace: bool)
    | Abort
    | Close
    | Signal
    | Keyer(works: bool, pick: Pick)

  predicate InTransmit(pc: Pc) { !pc.Idle? && !pc.Parked? && !pc.Done? }

  predicate Enabled(w: World, st: Step) {
    match st
    case Signal => w.signals > 0
    case Keyer(_, pick) =>
      && !w.pc.Done?
      && (w.pc.Parked? || w.pc.TailWait? ==>
            && (pick.Woken? ==> w.wake)
            && (pick.SawAbort? ==> w.abort in w.s.shut)
            && (pick.TimedOut? ==> w.pc.TailWait?))
    case _ => true
  }

  function Raised(w: World, l: Line, works: bool, hasPtt: bool, up: Pc): World {
    var ok := Live(w.s, w.gen) && works;
    w.(s := DoAssert(w.s, w.gen, l, works, hasPtt),
       pc := if ok then up else Cleanup,
       rises := if ok then w.rises + [Rise(l, w.gen, if l.KeyLine? then First(InHand(w.pc)) else [])] else w.rises)
  }

  function First(els: seq<Element>): seq<Element> { if els == [] then [] else [els[0]] }

  function Later(els: seq<Element>): seq<Element> { if els == [] then [] else els[1..] }

  // The elements of the symbol in hand that no edge has keyed yet.
  function InHand(pc: Pc): seq<Element> {
    match pc
    case Edge(left) => left
    case Ready(left) => left
    case Down(left) => Later(left)
    case Lift(left) => Later(left)
    case _ => []
  }

  function AfterSymbol(left: seq<Element>): Pc { if left == [] then Loop else Edge(left) }

  function AfterTail(more: bool, hasPtt: bool): Pc {
    if more then Loop else if hasPtt then DropPtt else Cleanup
  }

  predicate Keying(pc: Pc) { pc.Loop? || pc.Edge? || pc.Down? || pc.Lift? || pc.DropKey? }

  /** Taking a symbol, and waiting out or ending a mark. */
  function KeyingNext(w: World): World {
    match w.pc
    case Loop =>
      if !Live(w.s, w.gen) then w.(pc := Cleanup)
      else w.(s := DoNext(w.s), taken := w.taken + w.s.queue[..if w.s.queue == [] then 0 else 1],
              pc := if w.s.queue == [] then TailCheck
                    else if w.s.queue[0].kind == SpaceKind then Loop
                    else AfterSymbol(w.s.queue[0].elements))
    case Edge(left) => w.(pc := if w.abort in w.s.shut then Cleanup else Ready(left))
    case Down(left) => w.(pc := if w.abort in w.s.shut then DropKey else Lift(left))
    case Lift(left) => w.(s := WithLine(w.s, KeyLine, false), pc := AfterSymbol(Later(left)))
    case _ => w.(s := WithLine(w.s, KeyLine, false), pc := Cleanup)
  }

  /** Between transmissions, and through the tail. */
  function WaitingNext(w: World, pick: Pick, hasPtt: bool): World {
    match w.pc
    case Idle =>
      if w.s.closed then w.(pc := Done)
      else if w.s.queue == [] then w.(pc := Parked, abort := w.s.abort)
      else w.(pc := if hasPtt then Raise else Loop, gen := w.s.gen, abort := w.s.abort)
    case Parked => w.(pc := Idle, wake := w.wake && !pick.Woken?)
    case TailCheck =>
      if w.s.closed then w.(pc := AfterTail(false, hasPtt))
      else if w.s.queue != [] then w.(pc := AfterTail(true, hasPtt))
      else w.(pc := TailWait)
    case TailWait =>
      if pick.Woken? then w.(pc := TailCheck, wake := false) else w.(pc := AfterTail(false, hasPtt))
    case DropPtt => w.(s := WithLine(w.s, PttLine, false), pc := Cleanup)
    case Cleanup => w.(s := DoFinish(w.s, w.gen), pc := Idle)
    case _ => w
  }

  /** The keying goroutine's next step. */
  function KeyerNext(w: World, works: bool, pick: Pick, hasPtt: bool): World {
    if w.pc.Raise? then Raised(w, PttLine, works, hasPtt, Loop)
    else if w.pc.Ready? then Raised(w, KeyLine, works, hasPtt, Down(w.pc.left))
    else if Keying(w.pc) then KeyingNext(w)
    else WaitingNext(w, pick, hasPtt)
  }

  function Next(w: World, st: Step, hasPtt: bool): World {
    match st
    case Enqueue(syms, replace) =>
      w.(s := DoEnqueue(w.s, syms, replace), signals := if w.s.closed then w.signals else w.signals + 1)
    case Abort => w.(s := DoAbort(w.s, hasPtt))
    case Close => w.(s := DoClose(w.s, hasPtt), signals := if w.s.closed then w.signals else w.signals + 1)
    case Signal => w.(wake := true, signals := if w.signals == 0 then 0 else w.signals - 1)
    case Keyer(works, pick) => KeyerNext(w, works, pick, hasPtt)
  }

  // ---- what every step keeps ----

  predicate KeyAllowed(pc: Pc) { pc.Down? || pc.Lift? }

  predicate PttAllowed(pc: Pc) {
    pc.Loop? || pc.Edge? || pc.Ready? || pc.Down? || pc.Lift? || pc.TailCheck? || pc.TailWait? || pc.DropPtt?
  }

  predicate BusyAllowed(pc: Pc) { pc.Loop? || pc.Edge? || pc.Ready? || pc.Down? || pc.Lift? }

  predicate Channels(s: Shared) {
    && !s.panicked
    && (s.abort in s.shut <==> s.closed)
    && s.abort < s.nextChan && (forall c :: c in s.shut ==> c < s.nextChan)
  }

  /** A captured abort channel is closed exactly when the transmission is no longer live. */
  predicate Captured(w: World) {
    && (w.pc.Parked? ==> w.abort == w.s.abort || w.abort in w.s.shut)
    && (InTransmit(w.pc) ==>
         && w.gen <= w.s.gen
         && (Live(w.s, w.gen) ==> w.abort == w.s.abort)
         && (w.abort in w.s.shut <==> !Live(w.s, w.gen)))
  }

  predicate Lines(w: World, hasPtt: bool) {
    && (w.s.key <==> InTransmit(w.pc) && Live(w.s, w.gen) && KeyAllowed(w.pc))
    && (w.s.ptt <==> InTransmit(w.pc) && Live(w.s, w.gen) && PttAllowed(w.pc) && hasPtt)
  }

  /** The keyer is never parked over work with nothing left to wake it. */
  predicate Wakeable(w: World) {
    w.pc.Parked? && (w.s.queue != [] || w.s.closed) ==> w.wake || w.signals > 0 || w.abort in w.s.shut
  }

  predicate Busy(w: World) {
    w.s.busy ==> w.s.closed || (InTransmit(w.pc) && Live(w.s, w.gen) && BusyAllowed(w.pc))
  }

  predicate Safe(w: World, hasPtt: bool) {
    && Channels(w.s) && Captured(w) && Lines(w, hasPtt) && Wakeable(w) && Busy(w)
    && (w.pc.Done? ==> w.s.closed)
    && (w.pc.DropKey? ==> !Live(w.s, w.gen))
    && (w.pc.DropPtt? ==> hasPtt)
    && (w.pc.Raise? ==> hasPtt)
    && (forall i :: 0 <= i < |w.rises| ==> w.rises[i].gen <= w.s.gen)
  }

  function Begin(): World { World(Fresh(), Idle, 0, 0, false, 0, [], []) }

  lemma StepSafe(w: World, st: Step, hasPtt: bool)
    requires Safe(w, hasPtt) && Enabled(w, st)
    ensures Safe(Next(w, st, hasPtt), hasPtt)
  {
    if st.Keyer? { KeyerSafe(w, st.works, st.pick, hasPtt); }
  }

  lemma KeyerSafe(w: World, works: bool, pick: Pick, hasPtt: bool)
    requires Safe(w, hasPtt) && Enabled(w, Keyer(works, pick))
    ensures Safe(KeyerNext(w, works, pick, hasPtt), hasPtt)
  {
    hide Safe, Raised, KeyingNext, WaitingNext;
    if w.pc.Raise? {
      RaisedSafe(w, PttLine, works, hasPtt, Loop);
    } else if w.pc.Ready? {
      RaisedSafe(w, KeyLine, works, hasPtt, Down(w.pc.left));
    } else if Keying(w.pc) {
      KeyingSafe(w, hasPtt);
    } else {
      WaitingSafe(w, works, pick, hasPtt);
    }
  }

  lemma KeyingSafe(w: World, hasPtt: bool)
    requires Safe(w, hasPtt) && Keying(w.pc)
    ensures Safe(KeyingNext(w), hasPtt)
  {}

  lemma WaitingSafe(w: World, works: bool, pick: Pick, hasPtt: bool)
    requires Safe(w, hasPtt) && Enabled(w, Keyer(works, pick))
    requires !Keying(w.pc) && !w.pc.Raise? && !w.pc.Ready?
    ensures Safe(WaitingNext(w, pick, hasPtt), hasPtt)
  {
    hide Safe, WaitingNext;
    if w.pc.TailCheck? || w.pc.TailWait? { TailSafe(w, works, pick, hasPtt); } else { IdleSafe(w, works, pick, hasPtt); }
  }

  lemma TailSafe(w: World, works: bool, pick: Pick, hasPtt: bool)
    requires Safe(w, hasPtt) && Enabled(w, Keyer(works, pick)) && (w.pc.TailCheck? || w.pc.TailWait?)
    ensures Safe(WaitingNext(w, pick, hasPtt), hasPtt)
  {}

  lemma IdleSafe(w: World, works: bool, pick: Pick, hasPtt: bool)
    requires Safe(w, hasPtt) && Enabled(w, Keyer(works, pick))
    requires !Keying(w.pc) && !w.pc.Raise? && !w.pc.Ready? && !w.pc.TailCheck? && !w.pc.TailWait?
    ensures Safe(WaitingNext(w, pick, hasPtt), hasPtt)
  {}

  lemma RaisedSafe(w: World, l: Line, works: bool, hasPtt: bool, up: Pc)
    requires Safe(w, hasPtt)
    requires (w.pc.Raise? && l.PttLine? && up.Loop?) || (w.pc.Ready? && l.KeyLine? && up.Down?)
    ensures Safe(Raised(w, l, works, hasPtt, up), hasPtt)
  {}

  // ---- whole runs ----

  predicate AllEnabled(w: World, steps: seq<Step>, hasPtt: bool)
    decreases |steps|
  {
    steps == [] || (Enabled(w, steps[0]) && AllEnabled(Next(w, steps[0], hasPtt), steps[1..], hasPtt))
  }

  function Outcome(w: World, steps: seq<Step>, hasPtt: bool): World
    decreases |steps|
  {
    if steps == [] then w else Outcome(Next(w, steps[0], hasPtt), steps[1..], hasPtt)
  }

  lemma {:induction false} RunSafe(w: World, steps: seq<Step>, hasPtt: bool)
    requires Safe(w, hasPtt) && AllEnabled(w, steps, hasPtt)
    ensures Safe(Outcome(w, steps, hasPtt), hasPtt)
    decreases |steps|
  {
    hide Safe, Next;
    if steps != [] {
      StepSafe(w, steps[0], hasPtt);
      RunSafe(Next(w, steps[0], hasPtt), steps[1..], hasPtt);
    }
  }

  /** Under every interleaving of callers and keyer: the key is never down without PTT where
      there is a PTT line, a keyer that is not transmitting holds neither line, no channel is
      closed twice, for that of an open sender has not been closed, and the keyer never sleeps over
      queued text unnoticed. */
  lemma Interlock(steps: seq<Step>, hasPtt: bool)
    requires AllEnabled(Begin(), steps, hasPtt)
    ensures var w := Outcome(Begin(), steps, hasPtt);
      && (w.s.key && hasPtt ==> w.s.ptt)
      && (!InTransmit(w.pc) ==> !w.s.key && !w.s.ptt)
      && !w.s.panicked && (w.s.abort in w.s.shut <==> w.s.closed)
      && (w.pc.Parked? && w.s.queue != [] ==> w.wake || w.signals > 0 || w.abort in w.s.shut)
  {
    hide AllEnabled, Outcome;
    RunSafe(Begin(), steps, hasPtt);
  }

  // Every line that goes up from here on goes up at or after generation g.
  predicate RisesFrom(before: seq<Rise>, after: seq<Rise>, g: nat) {
    before <= after && forall i :: |before| <= i < |after| ==> after[i].gen >= g
  }

  lemma StepRises(w: World, st: Step, hasPtt: bool)
    ensures Onward(w, Next(w, st, hasPtt))
  {
    if st.Keyer? { KeyerRises(w, st.works, st.pick, hasPtt); }
    hide KeyerNext;
  }

  // m may follow w: generations only grow, and so does what has gone up.
  predicate Onward(w: World, m: World) {
    && m.s.gen >= w.s.gen && (w.s.closed ==> m.s.closed && m.rises == w.rises)
    && RisesFrom(w.rises, m.rises, w.s.gen)
    && (InTransmit(m.pc) ==> (if InTransmit(w.pc) then m.gen == w.gen else m.gen == m.s.gen))
  }

  lemma KeyerRises(w: World, works: bool, pick: Pick, hasPtt: bool)
    ensures Onward(w, KeyerNext(w, works, pick, hasPtt))
  {
    hide Raised, KeyingNext, WaitingNext, Onward;
    if w.pc.Raise? {
      RaisedRises(w, PttLine, works, hasPtt, Loop);
    } else if w.pc.Ready? {
      RaisedRises(w, KeyLine, works, hasPtt, Down(w.pc.left));
    } else if Keying(w.pc) {
      KeyingRises(w);
    } else {
      WaitingRises(w, pick, hasPtt);
    }
  }

  lemma KeyingRises(w: World)
    requires Keying(w.pc)
    ensures Onward(w, KeyingNext(w))
  {}

  lemma WaitingRises(w: World, pick: Pick, hasPtt: bool)
    requires !Keying(w.pc)
    ensures Onward(w, WaitingNext(w, pick, hasPtt))
  {}

  lemma RaisedRises(w: World, l: Line, works: bool, hasPtt: bool, up: Pc)
    requires InTransmit(w.pc) && InTransmit(up)
    ensures Onward(w, Raised(w, l, works, hasPtt, up))
  {
    AbortGrows(w.s, hasPtt);
    hide DoAbort;
  }

  lemma AbortGrows(s: Shared, hasPtt: bool)
    ensures DoAbort(s, hasPtt).gen == s.gen + 1 && DoAbort(s, hasPtt).closed == s.closed
  {}

  lemma {:induction false} RunRises(w: World, steps: seq<Step>, hasPtt: bool)
    requires AllEnabled(w, steps, hasPtt)
    ensures var m := Outcome(w, steps, hasPtt);
      && RisesFrom(w.rises, m.rises, w.s.gen)
      && (w.s.closed ==> m.s.closed && m.rises == w.rises)
    decreases |steps|
  {
    hide Next;
    if steps != [] {
      StepRises(w, steps[0], hasPtt);
      RunRises(Next(w, steps[0], hasPtt), steps[1..], hasPtt);
    }
  }

  /** An abort is final. At the abort both lines are down, and whatever happens next, every
      line that ever goes up again belongs to a transmission of a later generation than any
      that keyed before. */
  lemma AbortIsFinal(w: World, steps: seq<Step>, hasPtt: bool)
    requires Safe(w, hasPtt) && AllEnabled(Next(w, Abort, hasPtt), steps, hasPtt)
    ensures var a := Next(w, Abort, hasPtt);
      && !a.s.key && !a.s.ptt && a.s.queue == []
      && (forall i :: 0 <= i < |w.rises| ==> w.rises[i].gen <= w.s.gen)
      && (InTransmit(w.pc) ==> w.gen <= w.s.gen)
      && RisesFrom(w.rises, Outcome(a, steps, hasPtt).rises, w.s.gen + 1)
  {
    hide AllEnabled, Outcome;
    StepSafe(w, Abort, hasPtt);
    RunRises(Next(w, Abort, hasPtt), steps, hasPtt);
  }

  /** After a close no line ever goes up, or is up, again. */
  lemma CloseIsFinal(w: World, steps: seq<Step>, hasPtt: bool)
    requires Safe(w, hasPtt) && AllEnabled(Next(w, Close, hasPtt), steps, hasPtt)
    ensures var e := Outcome(Next(w, Close, hasPtt), steps, hasPtt);
      e.rises == w.rises && !e.s.key && !e.s.ptt
  {
    hide AllEnabled, Outcome;
    StepSafe(w, Close, hasPtt);
    RunRises(Next(w, Close, hasPtt), steps, hasPtt);
    RunSafe(Next(w, Close, hasPtt), steps, hasPtt);
  }

  /** An open sender reports itself busy only while it is keying. A sender closed while keying
      keeps saying it is busy for as long as nothing aborts it: Close leaves the flag, and the
      keyer's own clean-up skips it because the generation has moved on. */
  lemma BusyMeansKeying(steps: seq<Step>, hasPtt: bool)
    requires AllEnabled(Begin(), steps, hasPtt)
    ensures var w := Outcome(Begin(), steps, hasPtt);
      w.s.busy && !w.s.closed ==> InTransmit(w.pc) && Live(w.s, w.gen)
  {
    hide AllEnabled, Outcome;
    RunSafe(Begin(), steps, hasPtt);
  }

  predicate NoAbort(steps: seq<Step>) {
    steps == [] || (!steps[0].Abort? && NoAbort(steps[1..]))
  }

  lemma {:induction false} BusyOutlivesClose(w: World, steps: seq<Step>, hasPtt: bool)
    requires w.s.closed && (InTransmit(w.pc) ==> w.gen != w.s.gen)
    requires NoAbort(steps)
    ensures Outcome(w, steps, hasPtt).s.busy == w.s.busy
    decreases |steps|
  {
    if steps != [] {
      StepRises(w, steps[0], hasPtt);
      BusyStays(w, steps[0], hasPtt);
      hide Next;
      BusyOutlivesClose(Next(w, steps[0], hasPtt), steps[1..], hasPtt);
    }
  }

  /** After a close, for as long as nothing aborts, the flag is what it was at the close; an abort
      clears it. */
  lemma BusyAfterClose(w: World, steps: seq<Step>, hasPtt: bool)
    requires Safe(w, hasPtt) && AllEnabled(Next(w, Close, hasPtt), steps, hasPtt) && !w.s.closed
    requires NoAbort(steps)
    ensures var e := Outcome(Next(w, Close, hasPtt), steps, hasPtt);
      e.s.busy == w.s.busy && !Next(e, Abort, hasPtt).s.busy
  {
    hide AllEnabled, Outcome, NoAbort;
    BusyOutlivesClose(Next(w, Close, hasPtt), steps, hasPtt);
  }

  // A keyer that has taken a character, as far as its first edge.
  function ToTheEdge(sym: Symbol, hasPtt: bool): seq<Step> {
    var next := Keyer(true, Woken);
    if hasPtt then [Enqueue([sym], false), next, next, next] else [Enqueue([sym], false), next, next]
  }

  /** And it can be set: a close that finds the keyer before the first edge of a character leaves a
      closed sender that says it is busy. */
  lemma BusyCloseExample(sym: Symbol, hasPtt: bool)
    requires sym.kind != SpaceKind && sym.elements != []
    ensures var w := Outcome(Begin(), ToTheEdge(sym, hasPtt), hasPtt);
      && AllEnabled(Begin(), ToTheEdge(sym, hasPtt), hasPtt)
      && w.pc == Edge(sym.elements)
      && Next(w, Close, hasPtt).s.closed && Next(w, Close, hasPtt).s.busy
  {
    var next := Keyer(true, Woken);
    var w1 := Next(Begin(), Enqueue([sym], false), hasPtt);
    assert w1.s.queue == [sym];
    var w2 := Next(w1, next, hasPtt);
    var w3 := Next(w2, next, hasPtt);
    if hasPtt {
      var w4 := Next(w3, next, hasPtt);
      assert w4.pc == Edge(sym.elements) && w4.s.busy;
      hide Next;
      Unroll(w3, w4, [next], hasPtt);
      Unroll(w2, w3, [next, next], hasPtt);
      Unroll(w1, w2, [next, next, next], hasPtt);
      Unroll(Begin(), w1, ToTheEdge(sym, hasPtt), hasPtt);
    } else {
      assert w3.pc == Edge(sym.elements) && w3.s.busy;
      hide Next;
      Unroll(w2, w3, [next], hasPtt);
      Unroll(w1, w2, [next, next], hasPtt);
      Unroll(Begin(), w1, ToTheEdge(sym, hasPtt), hasPtt);
    }
  }

  lemma Unroll(w: World, m: World, steps: seq<Step>, hasPtt: bool)
    requires steps != [] && Enabled(w, steps[0]) && m == Next(w, steps[0], hasPtt) && AllEnabled(m, steps[1..], hasPtt)
    ensures AllEnabled(w, steps, hasPtt) && Outcome(w, steps, hasPtt) == Outcome(m, steps[1..], hasPtt)
  {}

  lemma BusyStays(w: World, st: Step, hasPtt: bool)
    requires w.s.closed && !st.Abort? && (InTransmit(w.pc) ==> w.gen != w.s.gen)
    ensures Next(w, st, hasPtt).s.busy == w.s.busy && Next(w, st, hasPtt).s.gen == w.s.gen
  {
    hide DoAbort, DoNext;
    if st.Keyer? { KeyerStays(w, st.works, st.pick, hasPtt); }
    hide KeyerNext;
  }

  lemma KeyerStays(w: World, works: bool, pick: Pick, hasPtt: bool)
    requires w.s.closed && (InTransmit(w.pc) ==> w.gen != w.s.gen)
    ensures var m := KeyerNext(w, works, pick, hasPtt); m.s.busy == w.s.busy && m.s.gen == w.s.gen
  {
    hide DoAbort, DoNext, KeyingNext;
    if Keying(w.pc) { KeyingStays(w); }
  }

  lemma KeyingStays(w: World)
    requires w.s.closed && Keying(w.pc)
    ensures var m := KeyingNext(w); m.s.busy == w.s.busy && m.s.gen == w.s.gen
  {
    hide DoNext;
  }
}

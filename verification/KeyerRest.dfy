/** The serial keyer left alone (internal/cw/serialkey.go): it keys all it owes and comes to rest. */
module KeyerRest {
  import opened Basics
  import opened Morse
  import opened SerialKeyer
  import opened KeyerLedger

  /** Nothing to do, and asleep; or gone. */
  predicate AtRest(w: World) { w.pc.Done? || (w.pc.Parked? && w.s.queue == [] && !w.s.closed) }

  // How far queued symbols are from being keyed.
  function Toil(syms: seq<Symbol>): nat {
    if syms == [] then 0 else 2 + 4 * |syms[0].elements| + Toil(syms[1..])
  }

  // How far the keyer is from rest, in steps of its own.
  function Distance(w: World): nat {
    var toil, some, live := Toil(w.s.queue), w.s.queue != [], Live(w.s, w.gen);
    match w.pc
    case Done => 0
    case Parked => if AtRest(w) then 0 else toil + 30 + (if w.wake || w.abort in w.s.shut then 0 else 1)
    case Idle => if some then toil + 25 else 1
    case Cleanup => if some then toil + 26 else 2
    case DropPtt => if some then toil + 27 else 3
    case Raise => toil + (if live then 24 else 70)
    case Loop => toil + (if live then 20 else 70)
    case Edge(left) => toil + (if live then 20 + 4 * |left| else 71)
    case Ready(left) => toil + (if live then 19 + 4 * |left| else 70)
    case Down(left) => toil + (if live then 18 + 4 * |left| else 81)
    case Lift(left) => toil + (if live then 17 + 4 * |left| else 80)
    case DropKey => toil + 75
    case TailCheck => if live then (if some then toil + 36 else 15) else toil + 84
    case TailWait => if live then (if some then toil + 35 else 14) else toil + 83
  }

  /** What the keyer does next where there is nobody else: a call that has queued something gets to
      wake it, and the tail runs out. */
  function Alone(w: World): Step {
    if w.pc.Parked? then
      if w.wake then Keyer(true, Woken) else if w.abort in w.s.shut then Keyer(true, SawAbort) else Signal
    else Keyer(true, TimedOut)
  }

  lemma AloneEnabled(w: World, hasPtt: bool)
    requires Safe(w, hasPtt) && !AtRest(w)
    ensures Enabled(w, Alone(w))
  {}

  lemma ToilPop(syms: seq<Symbol>)
    requires syms != []
    ensures Toil(syms) == 2 + 4 * |syms[0].elements| + Toil(syms[1..])
  {}

  lemma Closer(w: World, hasPtt: bool)
    requires Safe(w, hasPtt) && Tidy(w) && !AtRest(w)
    ensures Distance(Next(w, Alone(w), hasPtt)) < Distance(w)
  {
    if Keying(w.pc) { KeyingCloser(w, hasPtt); }
    else if w.pc.Raise? || w.pc.Ready? { RaisingCloser(w, hasPtt); }
    else { WaitingCloser(w, hasPtt); }
  }

  lemma KeyingCloser(w: World, hasPtt: bool)
    requires Safe(w, hasPtt) && Tidy(w) && Keying(w.pc)
    ensures Distance(Next(w, Alone(w), hasPtt)) < Distance(w)
  {
    AbortSeen(w, hasPtt);
    hide Safe, Toil, WaitingNext, SerialKeyer.Raised;
    if w.pc.Loop? { LoopCloser(w, hasPtt); } else { hide DoNext; }
  }

  lemma LoopCloser(w: World, hasPtt: bool)
    requires Tidy(w) && w.pc.Loop?
    ensures Distance(KeyingNext(w)) < Distance(w)
  {
    if w.s.queue != [] { ToilPop(w.s.queue); }
    hide Toil;
  }

  lemma RaisingCloser(w: World, hasPtt: bool)
    requires Safe(w, hasPtt) && Tidy(w) && (w.pc.Raise? || w.pc.Ready?)
    ensures Distance(Next(w, Alone(w), hasPtt)) < Distance(w)
  {
    hide Safe, Toil;
  }

  lemma WaitingCloser(w: World, hasPtt: bool)
    requires Safe(w, hasPtt) && Tidy(w) && !AtRest(w) && !Keying(w.pc) && !w.pc.Raise? && !w.pc.Ready?
    ensures Distance(Next(w, Alone(w), hasPtt)) < Distance(w)
  {
    hide Toil;
  }

  /** Left alone, with lines that work, a keyer comes to rest in finitely many steps, having keyed
      every element it owed, in order; and at rest both lines are down. */
  lemma ComesToRest(w: World, hasPtt: bool) returns (steps: seq<Step>)
    requires Safe(w, hasPtt) && Tidy(w)
    ensures AllEnabled(w, steps, hasPtt) && forall k :: 0 <= k < |steps| ==> steps[k].Signal? || (steps[k].Keyer? && steps[k].works)
    ensures var m := Outcome(w, steps, hasPtt);
      && AtRest(m) && !m.s.key && !m.s.ptt
      && Edges(m.rises) == Edges(w.rises) + Owed(w)
    decreases Distance(w)
  {
    if AtRest(w) {
      steps := [];
      RestOwesNothing(w, hasPtt);
    } else {
      var st := Alone(w);
      AloneEnabled(w, hasPtt);
      Closer(w, hasPtt);
      StepSafe(w, st, hasPtt);
      StepKeeps(w, st, hasPtt);
      AloneKeeps(w);
      hide *;
      var rest := ComesToRest(Next(w, st, hasPtt), hasPtt);
      steps := [st] + rest;
      assert steps[1..] == rest;
      RunFirst(w, st, rest, hasPtt);
    }
  }

  lemma RestOwesNothing(w: World, hasPtt: bool)
    requires Safe(w, hasPtt) && Tidy(w) && AtRest(w)
    ensures !w.s.key && !w.s.ptt && Owed(w) == [] && AllEnabled(w, [], hasPtt) && Outcome(w, [], hasPtt) == w
  {}

  lemma AloneKeeps(w: World)
    ensures var st := Alone(w); SoundStep(st) && Survives(w, st) == Owed(w) && AllElements(Accepts(w, st)) == []
    ensures var st := Alone(w); st.Signal? || (st.Keyer? && st.works)
  {}

  lemma RunFirst(w: World, st: Step, rest: seq<Step>, hasPtt: bool)
    requires Enabled(w, st) && AllEnabled(Next(w, st, hasPtt), rest, hasPtt)
    ensures AllEnabled(w, [st] + rest, hasPtt) && Outcome(w, [st] + rest, hasPtt) == Outcome(Next(w, st, hasPtt), rest, hasPtt)
  {
    hide Next, Enabled;
    assert ([st] + rest)[1..] == rest;
  }

  /** Text that comes while PTT is held for the tail is keyed in the same transmission: PTT does not
      drop in between. */
  lemma TextInTail(w: World, hasPtt: bool)
    requires Safe(w, hasPtt) && w.pc.TailWait? && w.wake && Live(w.s, w.gen) && w.s.queue != []
    ensures var steps := [Keyer(true, Woken), Keyer(true, TimedOut)];
      && AllEnabled(w, steps, hasPtt)
      && Outcome(w, steps, hasPtt) == w.(pc := Loop, wake := false)
  {
    var m := Next(w, Keyer(true, Woken), hasPtt);
    assert m == w.(pc := TailCheck, wake := false);
    assert [Keyer(true, Woken), Keyer(true, TimedOut)][1..] == [Keyer(true, TimedOut)] && [Keyer(true, TimedOut)][1..] == [];
    Unroll(m, Next(m, Keyer(true, TimedOut), hasPtt), [Keyer(true, TimedOut)], hasPtt);
    Unroll(w, m, [Keyer(true, Woken), Keyer(true, TimedOut)], hasPtt);
  }
}
